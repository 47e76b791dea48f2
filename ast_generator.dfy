/**
  `ast_mermaid_generator.py`: the generator built on the standard `ast`
  module. The functions below state what each step computes; the class
  `AstMermaidGenerator` carries the source's loops, each method proved to
  compute its function. The disk is the file map `fs`.
*/
module AstGenerator {
  import opened Wrappers
  import opened Text
  import opened FileSystem
  import opened PyAst
  import opened Entities
  import opened Mermaid

  /** One class as extracted: name, base names, attributes and methods. */
  datatype ClassInfo = ClassInfo(name: string, parents: seq<string>, attributes: seq<Attribute>, functions: seq<Function>)

  /** One `from module import a, b` line: the module text and the imported names. */
  datatype Import = Import(modname: string, names: seq<string>)

  /** What one pass over a parsed file returns: records, accumulated base names, import table. */
  datatype Extraction = Extraction(classes: seq<ClassInfo>, parents: seq<string>, imports: seq<Import>)

  type Disk = Files<Module>

  // ---------------------------------------------------------------------
  // Extraction from one parsed file

  /** `str(node.module)`: a relative `from . import x` has module `None`. */
  function ModuleText(m: Option<string>): string {
    match m
    case Some(s) => s
    case None => "None"
  }

  /** The import-table entry of one `ImportFrom`; aliases are ignored. */
  function ImportOf(s: Stmt): Import
    requires s.ImportFrom?
  {
    Import(ModuleText(s.fromModule), seq(|s.names|, k requires 0 <= k < |s.names| => s.names[k].name))
  }

  /** The import table: one entry per top-level `ImportFrom`, in order. */
  function ImportTable(body: seq<Stmt>): seq<Import> {
    if body == [] then []
    else
      var last := body[|body| - 1];
      ImportTable(body[..|body| - 1]) + if last.ImportFrom? then [ImportOf(last)] else []
  }

  /** The `Assign` and `AnnAssign` statements of a class body, as attributes. */
  function BodyAttributes(body: seq<Stmt>): seq<Attribute> {
    if body == [] then []
    else
      var last := body[|body| - 1];
      BodyAttributes(body[..|body| - 1]) + if last.Assign? || last.AnnAssign? then [Attribute(last)] else []
  }

  /** The `FunctionDef` statements of a class body, as methods. */
  function BodyFunctions(body: seq<Stmt>): seq<Function> {
    if body == [] then []
    else
      var last := body[|body| - 1];
      BodyFunctions(body[..|body| - 1]) + if last.FunctionDef? then [Function(last)] else []
  }

  /** The name a base contributes: a bare name, or the outer name of `Name[...]`. */
  function BaseName(base: Expr): seq<string> {
    match base
    case Subscript(outer, _) => if outer.Name? then [outer.id] else []
    case Name(id) => [id]
    case _ => []
  }

  /** The parent names of a class, from its bases in order. */
  function BaseNames(bases: seq<Expr>): seq<string> {
    if bases == [] then []
    else BaseNames(bases[..|bases| - 1]) + BaseName(bases[|bases| - 1])
  }

  /** The record of one class definition. */
  function ClassInfoOf(c: Stmt): ClassInfo
    requires c.ClassDef?
  {
    ClassInfo(c.name, BaseNames(c.bases), BodyAttributes(c.body), BodyFunctions(c.body))
  }

  /** The state of the class loop: stopped at a match, or all records and base names seen. */
  datatype Scan = Found(info: ClassInfo) | Finished(classes: seq<ClassInfo>, parents: seq<string>)

  /** Records and base names seen before a scan's remainder. */
  function Glue(classes: seq<ClassInfo>, parents: seq<string>, s: Scan): Scan {
    match s
    case Found(info) => Found(info)
    case Finished(cs, ps) => Finished(classes + cs, parents + ps)
  }

  /**
    The class loop over top-level statements: it stops at the first class
    named `className`, otherwise it collects every class record and the
    concatenation of their base names.
  */
  function ScanClasses(body: seq<Stmt>, className: Option<string>): Scan
    decreases |body|
  {
    if body == [] then Finished([], [])
    else if body[0].ClassDef? then
      var info := ClassInfoOf(body[0]);
      if className == Some(info.name) then Found(info)
      else Glue([info], info.parents, ScanClasses(body[1..], className))
    else ScanClasses(body[1..], className)
  }

  /** `_extract_class_info_from_parsed_ast(parsed, class_name)` */
  function ExtractClassInfo(parsed: Module, className: Option<string>): Extraction {
    match ScanClasses(parsed.body, className)
    case Found(info) => Extraction([info], [], [])
    case Finished(cs, ps) => Extraction(cs, ps, ImportTable(parsed.body))
  }

  // ---------------------------------------------------------------------
  // Parent lookup and per-file collection

  /**
    The records one imported name contributes: nothing unless it is a base
    name; nothing if its module file is missing; otherwise the scoped
    extraction of that file. Opening a directory and a syntax error raise.
  */
  function ResolveParent(root: string, fs: Disk, modname: string, name: string, parents: seq<string>)
    : Result<seq<ClassInfo>, Error>
  {
    if name !in parents then Ok([])
    else
      var path := ModulePath(root, modname);
      if path !in fs then Ok([])
      else
        match fs[path]
        case Directory(_) => Err(IsADirectoryError(path))
        case File(None) => Err(SyntaxError(path))
        case File(Some(m)) => Ok(ExtractClassInfo(m, Some(name)).classes)
  }

  /** The records of the imported names of one import, in order. */
  function ResolveNames(root: string, fs: Disk, modname: string, names: seq<string>, parents: seq<string>)
    : Result<seq<ClassInfo>, Error>
    decreases |names|
  {
    if names == [] then Ok([])
    else Chain(ResolveParent(root, fs, modname, names[0], parents), ResolveNames(root, fs, modname, names[1..], parents))
  }

  /** `_get_parents_info_from_imports(parents, imports)` */
  function ResolveImports(root: string, fs: Disk, imports: seq<Import>, parents: seq<string>)
    : Result<seq<ClassInfo>, Error>
    decreases |imports|
  {
    if imports == [] then Ok([])
    else Chain(ResolveNames(root, fs, imports[0].modname, imports[0].names, parents),
               ResolveImports(root, fs, imports[1..], parents))
  }

  /** `_collect_classes_info_from_file_ast(path)`: a file's records, then its resolved parents. */
  function CollectFromFile(root: string, fs: Disk, path: string): Result<seq<ClassInfo>, Error> {
    if !IsFile(fs, path) then Err(ValueError(path))
    else
      match fs[path].parsed
      case None => Err(SyntaxError(path))
      case Some(m) =>
        var e := ExtractClassInfo(m, None);
        Then(e.classes, ResolveImports(root, fs, e.imports, e.parents))
  }

  /** The records of the ".py" paths among `paths`, in order. */
  function CollectPython(root: string, fs: Disk, paths: seq<string>): Result<seq<ClassInfo>, Error>
    decreases |paths|
  {
    if paths == [] then Ok([])
    else if !EndsWith(paths[0], ".py") then CollectPython(root, fs, paths[1..])
    else Chain(CollectFromFile(root, fs, paths[0]), CollectPython(root, fs, paths[1..]))
  }

  /** `_get_classes_info()` */
  function ClassesInfo(root: string, fs: Disk, target: string): Result<seq<ClassInfo>, Error> {
    var pieces := Split(target, "++");
    if |pieces| > 1 then CollectPython(root, fs, pieces)
    else if IsDir(fs, target) then CollectPython(root, fs, fs[target].walk)
    else if IsFile(fs, target) then CollectFromFile(root, fs, target)
    else Ok([])
  }

  // ---------------------------------------------------------------------
  // Diagram text

  /** One attribute line; reading the name or the label may raise. */
  function AttributeText(a: Attribute): Result<string, Error> {
    var n :- a.Name();
    var t :- a.TypeAnnotation();
    Ok(AttributeLine(n, t))
  }

  /** The attribute lines of one class, or the first error. */
  function AttributeLines(attributes: seq<Attribute>): Result<string, Error>
    decreases |attributes|
  {
    if attributes == [] then Ok("")
    else Chain(AttributeText(attributes[0]), AttributeLines(attributes[1..]))
  }

  function FunctionNames(functions: seq<Function>): seq<string> {
    if functions == [] then []
    else FunctionNames(functions[..|functions| - 1]) + [functions[|functions| - 1].Name()]
  }

  /** The block of one class. */
  function Block(info: ClassInfo): Result<string, Error> {
    var attributes :- AttributeLines(info.attributes);
    Ok(ClassBlock(info.name, Connections(info.name, info.parents), attributes, MethodLines(FunctionNames(info.functions))))
  }

  /** The blocks of all records, in order, or the first error. */
  function Blocks(infos: seq<ClassInfo>): Result<string, Error>
    decreases |infos|
  {
    if infos == [] then Ok("")
    else Chain(Block(infos[0]), Blocks(infos[1..]))
  }

  /** `generate_diagram()` */
  function Diagram(title: string, root: string, fs: Disk, target: string): Result<string, Error> {
    var infos :- ClassesInfo(root, fs, target);
    Then(Header(title), Blocks(infos))
  }

  // ---------------------------------------------------------------------
  // One-step unfoldings used by the loop invariants

  lemma ScanStep(body: seq<Stmt>, i: nat, className: Option<string>)
    requires i < |body|
    ensures ScanClasses(body[i..], className) ==
      if body[i].ClassDef? then
        (if className == Some(body[i].name) then Found(ClassInfoOf(body[i]))
         else Glue([ClassInfoOf(body[i])], ClassInfoOf(body[i]).parents, ScanClasses(body[i + 1..], className)))
      else ScanClasses(body[i + 1..], className)
  {
    assert body[i..][0] == body[i];
    assert body[i..][1..] == body[i + 1..];
  }

  lemma GlueGlue(cs: seq<ClassInfo>, ps: seq<string>, cs': seq<ClassInfo>, ps': seq<string>, s: Scan)
    ensures Glue(cs, ps, Glue(cs', ps', s)) == Glue(cs + cs', ps + ps', s)
  {
    match s
    case Found(_) =>
    case Finished(a, b) =>
      assert cs + (cs' + a) == (cs + cs') + a;
      assert ps + (ps' + b) == (ps + ps') + b;
  }

  lemma GlueEmpty(s: Scan)
    ensures Glue([], [], s) == s
  {
    match s
    case Found(_) =>
    case Finished(a, b) =>
      assert [] + a == a;
      assert [] + b == b;
  }

  lemma ConnectionsSnoc(child: string, parents: seq<string>, p: string)
    ensures Connections(child, parents + [p]) == Connections(child, parents) + Connection(child, p)
  {
    assert (parents + [p])[..|parents|] == parents;
  }

  lemma MethodLinesSnoc(names: seq<string>, n: string)
    ensures MethodLines(names + [n]) == MethodLines(names) + MethodLine(n)
  {
    assert (names + [n])[..|names|] == names;
  }

  // ---------------------------------------------------------------------
  // The generator object

  class AstMermaidGenerator {
    const title: string
    const targetPath: string
    const projectAbsolutePath: string

    constructor (title: string, targetPath: string, projectAbsolutePath: string)
      ensures this.title == title && this.targetPath == targetPath
      ensures this.projectAbsolutePath == projectAbsolutePath
    {
      this.title := title;
      this.targetPath := targetPath;
      this.projectAbsolutePath := projectAbsolutePath;
    }

    /** The diagram of every class the target designates, with its resolved parents. */
    method GenerateDiagram(fs: Disk) returns (r: Result<string, Error>)
      ensures r == Diagram(title, projectAbsolutePath, fs, targetPath)
    {
      var diagram := Header(title);
      var found := GetClassesInfo(fs);
      if found.Err? {
        return Err(found.error);
      }
      var infos := found.value;
      ThenEmpty(Blocks(infos));
      for i := 0 to |infos|
        invariant Then(diagram, Blocks(infos[i..])) == Then(Header(title), Blocks(infos))
      {
        assert infos[i..][0] == infos[i] && infos[i..][1..] == infos[i + 1..];
        var classTemplate := ClassTemplate(infos[i]);
        if classTemplate.Err? {
          return Err(classTemplate.error);
        }
        ThenThen(diagram, classTemplate.value, Blocks(infos[i + 1..]));
        diagram := diagram + classTemplate.value;
      }
      assert infos[|infos|..] == [];
      assert diagram + "" == diagram;
      r := Ok(diagram);
    }

    /** The class template of one record, filled in line by line. */
    method ClassTemplate(info: ClassInfo) returns (r: Result<string, Error>)
      ensures r == Block(info)
    {
      var connectionDefinitions := ConnectionDefinitions(info.name, info.parents);
      var attributeDefinitions := AttributeDefinitions(info.attributes);
      if attributeDefinitions.Err? {
        return Err(attributeDefinitions.error);
      }
      var functionDefinitions := FunctionDefinitions(info.functions);
      r := Ok(ClassBlock(info.name, connectionDefinitions, attributeDefinitions.value, functionDefinitions));
    }

    /** One inheritance line per parent, in order. */
    method ConnectionDefinitions(className: string, parents: seq<string>) returns (connectionDefinitions: string)
      ensures connectionDefinitions == Connections(className, parents)
    {
      connectionDefinitions := "";
      for k := 0 to |parents|
        invariant connectionDefinitions == Connections(className, parents[..k])
      {
        ConnectionsSnoc(className, parents[..k], parents[k]);
        assert parents[..k + 1] == parents[..k] + [parents[k]];
        connectionDefinitions := connectionDefinitions + Connection(className, parents[k]);
      }
      assert parents[..|parents|] == parents;
    }

    /** One `name: type` line per attribute, in order, or the first error reading one. */
    method AttributeDefinitions(attributes: seq<Attribute>) returns (r: Result<string, Error>)
      ensures r == AttributeLines(attributes)
    {
      var attributeDefinitions := "";
      ThenEmpty(AttributeLines(attributes));
      for k := 0 to |attributes|
        invariant Then(attributeDefinitions, AttributeLines(attributes[k..])) == AttributeLines(attributes)
      {
        var attribute := attributes[k];
        assert attributes[k..][0] == attribute && attributes[k..][1..] == attributes[k + 1..];
        var name := attribute.Name();
        if name.Err? {
          return Err(name.error);
        }
        var typeAnnotation := attribute.TypeAnnotation();
        if typeAnnotation.Err? {
          return Err(typeAnnotation.error);
        }
        ThenThen(attributeDefinitions, AttributeLine(name.value, typeAnnotation.value), AttributeLines(attributes[k + 1..]));
        attributeDefinitions := attributeDefinitions + AttributeLine(name.value, typeAnnotation.value);
      }
      assert attributes[|attributes|..] == [];
      assert attributeDefinitions + "" == attributeDefinitions;
      r := Ok(attributeDefinitions);
    }

    /** One `name()` line per method, in order. */
    method FunctionDefinitions(functions: seq<Function>) returns (functionDefinitions: string)
      ensures functionDefinitions == MethodLines(FunctionNames(functions))
    {
      functionDefinitions := "";
      for k := 0 to |functions|
        invariant functionDefinitions == MethodLines(FunctionNames(functions[..k]))
      {
        assert functions[..k + 1][..k] == functions[..k];
        MethodLinesSnoc(FunctionNames(functions[..k]), functions[k].Name());
        functionDefinitions := functionDefinitions + MethodLine(functions[k].Name());
      }
      assert functions[..|functions|] == functions;
    }

    /** The records of every designated file, in order. */
    method GetClassesInfo(fs: Disk) returns (r: Result<seq<ClassInfo>, Error>)
      ensures r == ClassesInfo(projectAbsolutePath, fs, targetPath)
    {
      var splitedFilesPath := Split(targetPath, "++");
      if |splitedFilesPath| > 1 {
        r := CollectEach(fs, splitedFilesPath);
      } else if IsDir(fs, targetPath) {
        r := CollectEach(fs, fs[targetPath].walk);
      } else if IsFile(fs, targetPath) {
        r := CollectClassesInfoFromFileAst(fs, targetPath);
      } else {
        r := Ok([]);
      }
    }

    /** The loop of `_get_classes_info` over candidate paths, skipping non-".py" ones. */
    method CollectEach(fs: Disk, paths: seq<string>) returns (r: Result<seq<ClassInfo>, Error>)
      ensures r == CollectPython(projectAbsolutePath, fs, paths)
    {
      var classObjects: seq<ClassInfo> := [];
      ThenEmpty(CollectPython(projectAbsolutePath, fs, paths));
      for i := 0 to |paths|
        invariant Then(classObjects, CollectPython(projectAbsolutePath, fs, paths[i..]))
          == CollectPython(projectAbsolutePath, fs, paths)
      {
        assert paths[i..][0] == paths[i] && paths[i..][1..] == paths[i + 1..];
        if !EndsWith(paths[i], ".py") {
          continue;
        }
        var more := CollectClassesInfoFromFileAst(fs, paths[i]);
        if more.Err? {
          return Err(more.error);
        }
        ThenThen(classObjects, more.value, CollectPython(projectAbsolutePath, fs, paths[i + 1..]));
        classObjects := classObjects + more.value;
      }
      assert paths[|paths|..] == [];
      assert classObjects + [] == classObjects;
      r := Ok(classObjects);
    }

    /** The records of one file followed by the records of its resolvable parents. */
    method CollectClassesInfoFromFileAst(fs: Disk, filePath: string) returns (r: Result<seq<ClassInfo>, Error>)
      ensures r == CollectFromFile(projectAbsolutePath, fs, filePath)
    {
      if !IsFile(fs, filePath) {
        return Err(ValueError(filePath));
      }
      var parsedFile := fs[filePath].parsed;
      if parsedFile.None? {
        return Err(SyntaxError(filePath));
      }
      var e := ExtractClassInfoFromParsedAst(parsedFile.value, None);
      var parentsInfo := GetParentsInfoFromImports(fs, e.parents, e.imports);
      if parentsInfo.Err? {
        return Err(parentsInfo.error);
      }
      r := Ok(e.classes + parentsInfo.value);
    }

    /** For each imported base name, the scoped records of its module file. */
    method GetParentsInfoFromImports(fs: Disk, parents: seq<string>, imports: seq<Import>)
      returns (r: Result<seq<ClassInfo>, Error>)
      ensures r == ResolveImports(projectAbsolutePath, fs, imports, parents)
    {
      var root := projectAbsolutePath;
      var parentClassesInfo: seq<ClassInfo> := [];
      ThenEmpty(ResolveImports(root, fs, imports, parents));
      for i := 0 to |imports|
        invariant Then(parentClassesInfo, ResolveImports(root, fs, imports[i..], parents))
          == ResolveImports(root, fs, imports, parents)
      {
        assert imports[i..][0] == imports[i] && imports[i..][1..] == imports[i + 1..];
        var rest := ResolveImports(root, fs, imports[i + 1..], parents);
        var moduleInfo := ParentsInfoFromModule(fs, parents, imports[i].modname, imports[i].names);
        if moduleInfo.Err? {
          return Err(moduleInfo.error);
        }
        ThenThen(parentClassesInfo, moduleInfo.value, rest);
        parentClassesInfo := parentClassesInfo + moduleInfo.value;
      }
      assert imports[|imports|..] == [];
      assert parentClassesInfo + [] == parentClassesInfo;
      r := Ok(parentClassesInfo);
    }

    /** The inner loop over the names one `from ... import` brings from `importModule`. */
    method ParentsInfoFromModule(fs: Disk, parents: seq<string>, importModule: string, importNames: seq<string>)
      returns (r: Result<seq<ClassInfo>, Error>)
      ensures r == ResolveNames(projectAbsolutePath, fs, importModule, importNames, parents)
    {
      var root := projectAbsolutePath;
      var parentClassesInfo: seq<ClassInfo> := [];
      ThenEmpty(ResolveNames(root, fs, importModule, importNames, parents));
      for j := 0 to |importNames|
        invariant Then(parentClassesInfo, ResolveNames(root, fs, importModule, importNames[j..], parents))
          == ResolveNames(root, fs, importModule, importNames, parents)
      {
        assert importNames[j..][0] == importNames[j] && importNames[j..][1..] == importNames[j + 1..];
        var later := ResolveNames(root, fs, importModule, importNames[j + 1..], parents);
        var classInfo := ParentInfo(fs, parents, importModule, importNames[j]);
        if classInfo.Err? {
          return Err(classInfo.error);
        }
        ThenThen(parentClassesInfo, classInfo.value, later);
        parentClassesInfo := parentClassesInfo + classInfo.value;
      }
      assert importNames[|importNames|..] == [];
      assert parentClassesInfo + [] == parentClassesInfo;
      r := Ok(parentClassesInfo);
    }

    /**
      The body of the inner loop for one imported name: nothing unless it
      names a parent or when its module file is missing; reading a directory
      or a file that does not parse raises; otherwise the records scoped to
      that name.
    */
    method ParentInfo(fs: Disk, parents: seq<string>, importModule: string, importName: string)
      returns (r: Result<seq<ClassInfo>, Error>)
      ensures r == ResolveParent(projectAbsolutePath, fs, importModule, importName, parents)
    {
      if importName !in parents {
        return Ok([]);
      }
      var filePath := ModulePath(projectAbsolutePath, importModule);
      if filePath !in fs {
        return Ok([]);
      }
      match fs[filePath]
      case Directory(_) =>
        return Err(IsADirectoryError(filePath));
      case File(parsed) =>
        if parsed.None? {
          return Err(SyntaxError(filePath));
        }
        var classInfo := ExtractClassInfoFromParsedAst(parsed.value, Some(importName));
        r := Ok(classInfo.classes);
    }

    /**
      The import table, then the class loop; with a `className` the loop
      returns at the first class of that name alone.
    */
    method ExtractClassInfoFromParsedAst(parsedFile: Module, className: Option<string>) returns (e: Extraction)
      ensures e == ExtractClassInfo(parsedFile, className)
    {
      var body := parsedFile.body;
      var imports := CollectImports(body);
      var classesInfo: seq<ClassInfo> := [];
      var classesParents: seq<string> := [];

      GlueEmpty(ScanClasses(body, className));
      for i := 0 to |body|
        invariant Glue(classesInfo, classesParents, ScanClasses(body[i..], className)) == ScanClasses(body, className)
      {
        var node := body[i];
        ScanStep(body, i, className);
        if node.ClassDef? {
          var attributes, functions := CollectClassBody(node);
          var parents := CollectParents(node.bases);
          var classInfo := ClassInfo(node.name, parents, attributes, functions);
          if className == Some(node.name) {
            return Extraction([classInfo], [], []);
          }
          GlueGlue(classesInfo, classesParents, [classInfo], parents, ScanClasses(body[i + 1..], className));
          classesInfo := classesInfo + [classInfo];
          classesParents := classesParents + parents;
        }
      }
      assert body[|body|..] == [];
      assert classesInfo + [] == classesInfo && classesParents + [] == classesParents;
      e := Extraction(classesInfo, classesParents, imports);
    }

    /** The first loop of the extraction: one entry per top-level `ImportFrom`. */
    method CollectImports(body: seq<Stmt>) returns (imports: seq<Import>)
      ensures imports == ImportTable(body)
    {
      imports := [];
      for i := 0 to |body|
        invariant imports == ImportTable(body[..i])
      {
        assert body[..i + 1][..i] == body[..i];
        var node := body[i];
        if node.ImportFrom? {
          var importModule := ModuleText(node.fromModule);
          var importNames := seq(|node.names|, k requires 0 <= k < |node.names| => node.names[k].name);
          imports := imports + [Import(importModule, importNames)];
        }
      }
      assert body[..|body|] == body;
    }

    /** The loop over a class body: its assignments and its method definitions. */
    method CollectClassBody(node: Stmt) returns (attributes: seq<Attribute>, functions: seq<Function>)
      requires node.ClassDef?
      ensures attributes == BodyAttributes(node.body)
      ensures functions == BodyFunctions(node.body)
    {
      attributes := [];
      functions := [];
      for k := 0 to |node.body|
        invariant attributes == BodyAttributes(node.body[..k])
        invariant functions == BodyFunctions(node.body[..k])
      {
        assert node.body[..k + 1][..k] == node.body[..k];
        var bodyNode := node.body[k];
        if bodyNode.Assign? || bodyNode.AnnAssign? {
          attributes := attributes + [Attribute(bodyNode)];
        } else if bodyNode.FunctionDef? {
          functions := functions + [Function(bodyNode)];
        }
      }
      assert node.body[..|node.body|] == node.body;
    }

    /** The loop over a class's bases: the names it keeps. */
    method CollectParents(bases: seq<Expr>) returns (parents: seq<string>)
      ensures parents == BaseNames(bases)
    {
      parents := [];
      for k := 0 to |bases|
        invariant parents == BaseNames(bases[..k])
      {
        assert bases[..k + 1][..k] == bases[..k];
        var parent := bases[k];
        if parent.Subscript? {
          if parent.value.Name? {
            parents := parents + [parent.value.id];
          }
        } else if parent.Name? {
          parents := parents + [parent.id];
        }
      }
      assert bases[..|bases|] == bases;
    }
  }
}
