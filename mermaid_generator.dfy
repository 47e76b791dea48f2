/**
  `generator/mermaid_generator.py`: the generator built on astroid. Records
  carry instance attributes before class-body ones; every base names its
  parent through inference; parent lookup skips unparsable files; the
  method text of each block is stripped. The functions state what each step
  computes; the class `AstMermaidGenerator` carries the source's loops.
*/
module MermaidGenerator {
  import opened Wrappers
  import opened Text
  import opened FileSystem
  import opened AstroidNodes
  import opened AstroidEntities
  import opened Mermaid

  /**
    One class as extracted: name, parent names, the nodes of its attributes
    (an `Attribute` object is made from each when the diagram is written) and
    its methods.
  */
  datatype ClassInfo = ClassInfo(name: string, parents: seq<string>, attributes: seq<AttrNode>, functions: seq<Function>)

  datatype Import = Import(modname: string, names: seq<string>)

  datatype Extraction = Extraction(classes: seq<ClassInfo>, parents: seq<string>, imports: seq<Import>)

  type Disk = Files<Module>

  // ---------------------------------------------------------------------
  // Extraction from one parsed file

  /** The import-table entry of one `ImportFrom`: the first element of each name pair. */
  function ImportOf(s: Stmt): Import
    requires s.ImportFrom?
  {
    Import(s.modname, seq(|s.names|, k requires 0 <= k < |s.names| => s.names[k].name))
  }

  function ImportTable(body: seq<Stmt>): seq<Import> {
    if body == [] then []
    else
      var last := body[|body| - 1];
      ImportTable(body[..|body| - 1]) + if last.ImportFrom? then [ImportOf(last)] else []
  }

  /** `extract_instance_attributes`: the nodes of the `instance_attrs` table, entry by entry. */
  function InstanceAttributes(table: seq<InstanceAttr>): seq<AttrNode> {
    if table == [] then [] else InstanceAttributes(table[..|table| - 1]) + table[|table| - 1].nodes
  }

  function BodyAttributes(body: seq<Stmt>): seq<AttrNode> {
    if body == [] then []
    else
      var last := body[|body| - 1];
      BodyAttributes(body[..|body| - 1]) + if last.Assign? || last.AnnAssign? then [StmtNode(last)] else []
  }

  function BodyFunctions(body: seq<Stmt>): seq<Function> {
    if body == [] then []
    else
      var last := body[|body| - 1];
      BodyFunctions(body[..|body| - 1]) + if last.FunctionDef? then [Function(last)] else []
  }

  /**
    `_infer(base).name`: reading `name` of `None` (an `InferenceError`) or of
    a node without one raises `AttributeError`, which nothing catches.
  */
  function BaseName(base: ExprNode): Result<string, Error> {
    var inferred :- Infer(base);
    if inferred.None? then Err(AttributeError("name"))
    else
      match InferredName(inferred.value)
      case Some(n) => Ok(n)
      case None => Err(AttributeError("name"))
  }

  function BaseNames(bases: seq<ExprNode>): Result<seq<string>, Error>
    decreases |bases|
  {
    if bases == [] then Ok([])
    else
      var n :- BaseName(bases[0]);
      Then([n], BaseNames(bases[1..]))
  }

  /** The record of one class definition, or the error inferring a base raised. */
  function ClassInfoOf(c: Stmt): Result<ClassInfo, Error>
    requires c.ClassDef?
  {
    var parents :- BaseNames(c.bases);
    Ok(ClassInfo(c.name, parents, InstanceAttributes(c.instanceAttrs) + BodyAttributes(c.body), BodyFunctions(c.body)))
  }

  datatype Scan = Found(info: ClassInfo) | Finished(classes: seq<ClassInfo>, parents: seq<string>)

  function Glue(classes: seq<ClassInfo>, parents: seq<string>, s: Result<Scan, Error>): Result<Scan, Error> {
    match s
    case Err(e) => Err(e)
    case Ok(Found(info)) => Ok(Found(info))
    case Ok(Finished(cs, ps)) => Ok(Finished(classes + cs, parents + ps))
  }

  /**
    The class loop: each class is recorded in turn (inferring its bases can
    raise); it stops at the first class named `className`, otherwise it
    collects every record and the concatenation of their parent names.
  */
  function ScanClasses(body: seq<Stmt>, className: Option<string>): Result<Scan, Error>
    decreases |body|
  {
    if body == [] then Ok(Finished([], []))
    else if body[0].ClassDef? then
      var info :- ClassInfoOf(body[0]);
      if className == Some(info.name) then Ok(Found(info))
      else Glue([info], info.parents, ScanClasses(body[1..], className))
    else ScanClasses(body[1..], className)
  }

  /** `_extract_class_info_from_ast(parsed, class_name)` */
  function ExtractClassInfo(parsed: Module, className: Option<string>): Result<Extraction, Error> {
    var scan :- ScanClasses(parsed.body, className);
    match scan
    case Found(info) => Ok(Extraction([info], [], []))
    case Finished(cs, ps) => Ok(Extraction(cs, ps, ImportTable(parsed.body)))
  }

  // ---------------------------------------------------------------------
  // Files, parent lookup and per-file collection

  /**
    `parse_file(path)` as intended by its `except SyntaxError` clause: the
    parse, or `None` on a syntax error; opening a missing path or a
    directory raises. The rest of the astroid model uses this reading.
  */
  function ParseResult(fs: Disk, path: string): (r: Result<Option<Module>, Error>)
    ensures r.Err? <==> path !in fs || fs[path].Directory?
    ensures r.Ok? && r.value.None? <==> path in fs && fs[path] == File(None)
  {
    if path !in fs then Err(FileNotFoundError(path))
    else
      match fs[path]
      case Directory(_) => Err(IsADirectoryError(path))
      case File(parsed) => Ok(parsed)
  }

  /**
    `parse_file(path)` as written. `astroid.parse` reports a syntax error by
    raising `AstroidSyntaxError`, which does not derive from `SyntaxError`,
    so the `except` clause never fires: the error escapes and `None` is
    never returned.
  */
  function ParseFileAsWritten(fs: Disk, path: string): (r: Result<Option<Module>, Error>)
    ensures r.Ok? ==> r.value.Some?
    ensures r.Ok? <==> path in fs && fs[path].File? && fs[path].parsed.Some?
  {
    if path !in fs then Err(FileNotFoundError(path))
    else
      match fs[path]
      case Directory(_) => Err(IsADirectoryError(path))
      case File(None) => Err(AstroidSyntaxError(path))
      case File(Some(m)) => Ok(Some(m))
  }

  /**
    The records one imported name contributes: nothing unless it is a parent
    name; nothing if its module file is missing or does not parse; otherwise
    the scoped extraction of that file.
  */
  function ResolveParent(root: string, fs: Disk, modname: string, name: string, parents: seq<string>)
    : Result<seq<ClassInfo>, Error>
  {
    if name !in parents then Ok([])
    else
      match ParseResult(fs, ModulePath(root, modname))
      case Err(FileNotFoundError(_)) => Ok([])
      case Err(e) => Err(e)
      case Ok(None) => Ok([])
      case Ok(Some(m)) =>
        var e :- ExtractClassInfo(m, Some(name));
        Ok(e.classes)
  }

  function ResolveNames(root: string, fs: Disk, modname: string, names: seq<string>, parents: seq<string>)
    : Result<seq<ClassInfo>, Error>
    decreases |names|
  {
    if names == [] then Ok([])
    else Chain(ResolveParent(root, fs, modname, names[0], parents), ResolveNames(root, fs, modname, names[1..], parents))
  }

  /** `_get_parents_info_from_imports(parents, imports)` */
  function ResolveImports(root: string, fs: Disk, imports: seq<Import>, parents: seq<string>)
    : Result<seq<ClassInfo>, Error>
    decreases |imports|
  {
    if imports == [] then Ok([])
    else Chain(ResolveNames(root, fs, imports[0].modname, imports[0].names, parents),
               ResolveImports(root, fs, imports[1..], parents))
  }

  /**
    `_collect_classes_info_from_file(path)`. A file that does not parse is
    passed on as `None`, and reading its `body` raises `AttributeError`.
  */
  function CollectFromFile(root: string, fs: Disk, path: string): Result<seq<ClassInfo>, Error> {
    if !IsFile(fs, path) then Err(ValueError(path))
    else
      var parsed :- ParseResult(fs, path);
      if parsed.None? then Err(AttributeError("body"))
      else
        var e :- ExtractClassInfo(parsed.value, None);
        Then(e.classes, ResolveImports(root, fs, e.imports, e.parents))
  }

  function CollectPython(root: string, fs: Disk, paths: seq<string>): Result<seq<ClassInfo>, Error>
    decreases |paths|
  {
    if paths == [] then Ok([])
    else if !EndsWith(paths[0], ".py") then CollectPython(root, fs, paths[1..])
    else Chain(CollectFromFile(root, fs, paths[0]), CollectPython(root, fs, paths[1..]))
  }

  /** `_get_classes_info()` */
  function ClassesInfo(root: string, fs: Disk, target: string): Result<seq<ClassInfo>, Error> {
    var pieces := Split(target, "++");
    if |pieces| > 1 then CollectPython(root, fs, pieces)
    else if IsDir(fs, target) then CollectPython(root, fs, fs[target].walk)
    else if IsFile(fs, target) then CollectFromFile(root, fs, target)
    else Ok([])
  }

  // ---------------------------------------------------------------------
  // Diagram text

  /** One attribute line of a fresh `Attribute`: its name, then its type label. */
  function AttributeText(n: AttrNode): string {
    AttributeLine(PyText(AttributeName(n)), PyText(TypeLabel(n)))
  }

  function AttributeLines(nodes: seq<AttrNode>): string {
    if nodes == [] then "" else AttributeLines(nodes[..|nodes| - 1]) + AttributeText(nodes[|nodes| - 1])
  }

  function FunctionNames(functions: seq<Function>): seq<string> {
    if functions == [] then []
    else FunctionNames(functions[..|functions| - 1]) + [functions[|functions| - 1].Name()]
  }

  /** The block of one class; its method text is stripped. */
  function Block(info: ClassInfo): string {
    ClassBlock(info.name, Connections(info.name, info.parents), AttributeLines(info.attributes),
               Strip(MethodLines(FunctionNames(info.functions))))
  }

  function Blocks(infos: seq<ClassInfo>): string {
    if infos == [] then "" else Blocks(infos[..|infos| - 1]) + Block(infos[|infos| - 1])
  }

  /** `generate_diagram()` */
  function Diagram(title: string, root: string, fs: Disk, target: string): Result<string, Error> {
    var infos :- ClassesInfo(root, fs, target);
    Ok(Header(title) + Blocks(infos))
  }

  // ---------------------------------------------------------------------
  // One-step unfoldings used by the loop invariants

  lemma ScanStep(body: seq<Stmt>, i: nat, className: Option<string>)
    requires i < |body|
    ensures ScanClasses(body[i..], className) ==
      if body[i].ClassDef? then
        (match ClassInfoOf(body[i])
         case Err(e) => Err(e)
         case Ok(info) =>
           if className == Some(info.name) then Ok(Found(info))
           else Glue([info], info.parents, ScanClasses(body[i + 1..], className)))
      else ScanClasses(body[i + 1..], className)
  {
    assert body[i..][0] == body[i];
    assert body[i..][1..] == body[i + 1..];
  }

  lemma GlueGlue(cs: seq<ClassInfo>, ps: seq<string>, cs': seq<ClassInfo>, ps': seq<string>, s: Result<Scan, Error>)
    ensures Glue(cs, ps, Glue(cs', ps', s)) == Glue(cs + cs', ps + ps', s)
  {
    if s.Ok? && s.value.Finished? {
      assert cs + (cs' + s.value.classes) == (cs + cs') + s.value.classes;
      assert ps + (ps' + s.value.parents) == (ps + ps') + s.value.parents;
    }
  }

  lemma BlocksSnoc(infos: seq<ClassInfo>, i: nat)
    requires i < |infos|
    ensures Blocks(infos[..i + 1]) == Blocks(infos[..i]) + Block(infos[i])
  {
    assert infos[..i + 1][..i] == infos[..i];
  }

  lemma GlueEmpty(s: Result<Scan, Error>)
    ensures Glue([], [], s) == s
  {
    if s.Ok? && s.value.Finished? {
      assert [] + s.value.classes == s.value.classes;
      assert [] + s.value.parents == s.value.parents;
    }
  }

  // ---------------------------------------------------------------------
  // The generator object

  class AstMermaidGenerator {
    const title: string
    const targetPath: string
    const projectAbsolutePath: string

    constructor (title: string, targetPath: string, projectAbsolutePath: string)
      ensures this.title == title && this.targetPath == targetPath
      ensures this.projectAbsolutePath == projectAbsolutePath
    {
      this.title := title;
      this.targetPath := targetPath;
      this.projectAbsolutePath := projectAbsolutePath;
    }

    /** The diagram of every class the target designates, with its resolved parents. */
    method GenerateDiagram(fs: Disk) returns (r: Result<string, Error>)
      ensures r == Diagram(title, projectAbsolutePath, fs, targetPath)
    {
      var diagram := Header(title);
      var found := GetClassesInfo(fs);
      if found.Err? {
        return Err(found.error);
      }
      diagram := AppendClassTemplates(diagram, found.value);
      assert Diagram(title, projectAbsolutePath, fs, targetPath) == Ok(Header(title) + Blocks(found.value));
      r := Ok(diagram);
    }

    /** The loop of `generate_diagram`: the class template of each record, appended in order. */
    method AppendClassTemplates(header: string, infos: seq<ClassInfo>) returns (diagram: string)
      ensures diagram == header + Blocks(infos)
    {
      diagram := header;
      assert infos[..0] == [];
      assert diagram + Blocks(infos[..0]) == diagram;
      for i := 0 to |infos|
        invariant diagram == header + Blocks(infos[..i])
      {
        BlocksSnoc(infos, i);
        var classTemplate := ClassTemplate(infos[i]);
        ConcatAssoc(header, Blocks(infos[..i]), classTemplate);
        diagram := diagram + classTemplate;
      }
      assert infos[..|infos|] == infos;
    }

    /** The class template of one record, filled in line by line. */
    method ClassTemplate(info: ClassInfo) returns (classTemplate: string)
      ensures classTemplate == Block(info)
    {
      var connectionDefinitions := ConnectionDefinitions(info.name, info.parents);
      var attributeDefinitions := AttributeDefinitions(info.attributes);
      var functionDefinitions := FunctionDefinitions(info.functions);
      classTemplate := ClassBlock(info.name, connectionDefinitions, attributeDefinitions, Strip(functionDefinitions));
    }

    /** One inheritance line per parent, in order. */
    method ConnectionDefinitions(className: string, parents: seq<string>) returns (connectionDefinitions: string)
      ensures connectionDefinitions == Connections(className, parents)
    {
      connectionDefinitions := "";
      for k := 0 to |parents|
        invariant connectionDefinitions == Connections(className, parents[..k])
      {
        assert parents[..k + 1][..k] == parents[..k];
        connectionDefinitions := connectionDefinitions + Connection(className, parents[k]);
      }
      assert parents[..|parents|] == parents;
    }

    /**
      One `name: type` line per attribute, in order. Each line comes from a
      fresh `Attribute` whose name is read before its type label.
    */
    method AttributeDefinitions(attributes: seq<AttrNode>) returns (attributeDefinitions: string)
      ensures attributeDefinitions == AttributeLines(attributes)
    {
      attributeDefinitions := "";
      for k := 0 to |attributes|
        invariant attributeDefinitions == AttributeLines(attributes[..k])
      {
        assert attributes[..k + 1][..k] == attributes[..k];
        var attribute := new Attribute(attributes[k]);
        var name := attribute.Name();
        var typeAnnotation := attribute.TypeAnnotation();
        attributeDefinitions := attributeDefinitions + AttributeLine(PyText(name), PyText(typeAnnotation));
      }
      assert attributes[..|attributes|] == attributes;
    }

    /** One `name()` line per method, in order, before stripping. */
    method FunctionDefinitions(functions: seq<Function>) returns (functionDefinitions: string)
      ensures functionDefinitions == MethodLines(FunctionNames(functions))
    {
      functionDefinitions := "";
      for k := 0 to |functions|
        invariant functionDefinitions == MethodLines(FunctionNames(functions[..k]))
      {
        assert functions[..k + 1][..k] == functions[..k];
        var names := FunctionNames(functions[..k + 1]);
        assert names[..|names| - 1] == FunctionNames(functions[..k]);
        functionDefinitions := functionDefinitions + MethodLine(functions[k].Name());
      }
      assert functions[..|functions|] == functions;
    }

    /** The records of every designated file, in order. */
    method GetClassesInfo(fs: Disk) returns (r: Result<seq<ClassInfo>, Error>)
      ensures r == ClassesInfo(projectAbsolutePath, fs, targetPath)
    {
      var splitedFilesPath := Split(targetPath, "++");
      if |splitedFilesPath| > 1 {
        r := CollectEach(fs, splitedFilesPath);
      } else if IsDir(fs, targetPath) {
        r := CollectEach(fs, fs[targetPath].walk);
      } else if IsFile(fs, targetPath) {
        r := CollectClassesInfoFromFile(fs, targetPath);
      } else {
        r := Ok([]);
      }
    }

    /** The loop of `_get_classes_info` over candidate paths, skipping non-".py" ones. */
    method CollectEach(fs: Disk, paths: seq<string>) returns (r: Result<seq<ClassInfo>, Error>)
      ensures r == CollectPython(projectAbsolutePath, fs, paths)
    {
      var classInfoObjects: seq<ClassInfo> := [];
      ThenEmpty(CollectPython(projectAbsolutePath, fs, paths));
      for i := 0 to |paths|
        invariant Then(classInfoObjects, CollectPython(projectAbsolutePath, fs, paths[i..]))
          == CollectPython(projectAbsolutePath, fs, paths)
      {
        assert paths[i..][0] == paths[i] && paths[i..][1..] == paths[i + 1..];
        if !EndsWith(paths[i], ".py") {
          continue;
        }
        var more := CollectClassesInfoFromFile(fs, paths[i]);
        if more.Err? {
          return Err(more.error);
        }
        ThenThen(classInfoObjects, more.value, CollectPython(projectAbsolutePath, fs, paths[i + 1..]));
        classInfoObjects := classInfoObjects + more.value;
      }
      assert paths[|paths|..] == [];
      assert classInfoObjects + [] == classInfoObjects;
      r := Ok(classInfoObjects);
    }

    /** The records of one file followed by the records of its resolvable parents. */
    method CollectClassesInfoFromFile(fs: Disk, filePath: string) returns (r: Result<seq<ClassInfo>, Error>)
      ensures r == CollectFromFile(projectAbsolutePath, fs, filePath)
    {
      if !IsFile(fs, filePath) {
        return Err(ValueError(filePath));
      }
      var parsedFile := ParseFile(fs, filePath);
      assert parsedFile.Ok?;
      if parsedFile.value.None? {
        return Err(AttributeError("body"));
      }
      var e := ExtractClassInfoFromAst(parsedFile.value.value, None);
      if e.Err? {
        return Err(e.error);
      }
      var parentsInfo := GetParentsInfoFromImports(fs, e.value.parents, e.value.imports);
      if parentsInfo.Err? {
        return Err(parentsInfo.error);
      }
      r := Ok(e.value.classes + parentsInfo.value);
    }

    /** For each imported parent name, the scoped records of its module file when that file parses. */
    method GetParentsInfoFromImports(fs: Disk, parents: seq<string>, imports: seq<Import>)
      returns (r: Result<seq<ClassInfo>, Error>)
      ensures r == ResolveImports(projectAbsolutePath, fs, imports, parents)
    {
      var root := projectAbsolutePath;
      var parentClassesInfo: seq<ClassInfo> := [];
      ThenEmpty(ResolveImports(root, fs, imports, parents));
      for i := 0 to |imports|
        invariant Then(parentClassesInfo, ResolveImports(root, fs, imports[i..], parents))
          == ResolveImports(root, fs, imports, parents)
      {
        assert imports[i..][0] == imports[i] && imports[i..][1..] == imports[i + 1..];
        var rest := ResolveImports(root, fs, imports[i + 1..], parents);
        var moduleInfo := ParentsInfoFromModule(fs, parents, imports[i].modname, imports[i].names);
        if moduleInfo.Err? {
          return Err(moduleInfo.error);
        }
        ThenThen(parentClassesInfo, moduleInfo.value, rest);
        parentClassesInfo := parentClassesInfo + moduleInfo.value;
      }
      assert imports[|imports|..] == [];
      assert parentClassesInfo + [] == parentClassesInfo;
      r := Ok(parentClassesInfo);
    }

    /** The inner loop over the names one `from ... import` brings from `importModule`. */
    method ParentsInfoFromModule(fs: Disk, parents: seq<string>, importModule: string, importNames: seq<string>)
      returns (r: Result<seq<ClassInfo>, Error>)
      ensures r == ResolveNames(projectAbsolutePath, fs, importModule, importNames, parents)
    {
      var root := projectAbsolutePath;
      var parentClassesInfo: seq<ClassInfo> := [];
      ThenEmpty(ResolveNames(root, fs, importModule, importNames, parents));
      for j := 0 to |importNames|
        invariant Then(parentClassesInfo, ResolveNames(root, fs, importModule, importNames[j..], parents))
          == ResolveNames(root, fs, importModule, importNames, parents)
      {
        assert importNames[j..][0] == importNames[j] && importNames[j..][1..] == importNames[j + 1..];
        var later := ResolveNames(root, fs, importModule, importNames[j + 1..], parents);
        var classInfo := ParentInfo(fs, parents, importModule, importNames[j]);
        if classInfo.Err? {
          return Err(classInfo.error);
        }
        ThenThen(parentClassesInfo, classInfo.value, later);
        parentClassesInfo := parentClassesInfo + classInfo.value;
      }
      assert importNames[|importNames|..] == [];
      assert parentClassesInfo + [] == parentClassesInfo;
      r := Ok(parentClassesInfo);
    }

    /**
      The body of the inner loop for one imported name: nothing unless it
      names a parent; nothing when its module file is missing or does not
      parse; otherwise the records scoped to that name.
    */
    method ParentInfo(fs: Disk, parents: seq<string>, importModule: string, importName: string)
      returns (r: Result<seq<ClassInfo>, Error>)
      ensures r == ResolveParent(projectAbsolutePath, fs, importModule, importName, parents)
    {
      if importName !in parents {
        return Ok([]);
      }
      var absoluteFilePath := ModulePath(projectAbsolutePath, importModule);
      var parsedAst := ParseFile(fs, absoluteFilePath);
      if parsedAst.Err? {
        if parsedAst.error.FileNotFoundError? {
          return Ok([]);
        }
        return Err(parsedAst.error);
      }
      if parsedAst.value.None? {
        return Ok([]);
      }
      var classInfo := ExtractClassInfoFromAst(parsedAst.value.value, Some(importName));
      if classInfo.Err? {
        return Err(classInfo.error);
      }
      r := Ok(classInfo.value.classes);
    }

    /**
      The import table, then the class loop; with a `className` the loop
      returns at the first class of that name alone.
    */
    method ExtractClassInfoFromAst(parsedAst: Module, className: Option<string>) returns (r: Result<Extraction, Error>)
      ensures r == ExtractClassInfo(parsedAst, className)
    {
      var body := parsedAst.body;
      var imports := CollectImports(body);
      var classesInfo: seq<ClassInfo> := [];
      var classesParents: seq<string> := [];

      GlueEmpty(ScanClasses(body, className));
      for i := 0 to |body|
        invariant Glue(classesInfo, classesParents, ScanClasses(body[i..], className)) == ScanClasses(body, className)
      {
        var node := body[i];
        ScanStep(body, i, className);
        if node.ClassDef? {
          var instanceAttributes := ExtractInstanceAttributes(node);
          var attributes, functions := CollectClassBody(node, instanceAttributes);
          var parents := CollectParents(node.bases);
          if parents.Err? {
            return Err(parents.error);
          }
          var classInfo := ClassInfo(node.name, parents.value, attributes, functions);
          assert ClassInfoOf(node) == Ok(classInfo);
          if className == Some(node.name) {
            return Ok(Extraction([classInfo], [], []));
          }
          GlueGlue(classesInfo, classesParents, [classInfo], parents.value, ScanClasses(body[i + 1..], className));
          classesInfo := classesInfo + [classInfo];
          classesParents := classesParents + parents.value;
        }
      }
      assert body[|body|..] == [];
      assert classesInfo + [] == classesInfo && classesParents + [] == classesParents;
      r := Ok(Extraction(classesInfo, classesParents, imports));
    }

    /** The first loop of the extraction: one entry per top-level `ImportFrom`. */
    method CollectImports(body: seq<Stmt>) returns (imports: seq<Import>)
      ensures imports == ImportTable(body)
    {
      imports := [];
      for i := 0 to |body|
        invariant imports == ImportTable(body[..i])
      {
        assert body[..i + 1][..i] == body[..i];
        var node := body[i];
        if node.ImportFrom? {
          var importNames := seq(|node.names|, k requires 0 <= k < |node.names| => node.names[k].name);
          imports := imports + [Import(node.modname, importNames)];
        }
      }
      assert body[..|body|] == body;
    }

    /** The loop over a class body, appending its assignments to `attributes` and collecting its methods. */
    method CollectClassBody(node: Stmt, attributes: seq<AttrNode>) returns (all: seq<AttrNode>, functions: seq<Function>)
      requires node.ClassDef?
      ensures all == attributes + BodyAttributes(node.body)
      ensures functions == BodyFunctions(node.body)
    {
      all := attributes;
      functions := [];
      for k := 0 to |node.body|
        invariant all == attributes + BodyAttributes(node.body[..k])
        invariant functions == BodyFunctions(node.body[..k])
      {
        assert node.body[..k + 1][..k] == node.body[..k];
        var bodyNode := node.body[k];
        if bodyNode.Assign? || bodyNode.AnnAssign? {
          all := all + [StmtNode(bodyNode)];
        } else if bodyNode.FunctionDef? {
          functions := functions + [Function(bodyNode)];
        }
      }
      assert node.body[..|node.body|] == node.body;
    }

    /** The loop over a class's bases: the name of each base's first inference, or the error reading it. */
    method CollectParents(bases: seq<ExprNode>) returns (r: Result<seq<string>, Error>)
      ensures r == BaseNames(bases)
    {
      var parents: seq<string> := [];
      ThenEmpty(BaseNames(bases));
      for k := 0 to |bases|
        invariant Then(parents, BaseNames(bases[k..])) == BaseNames(bases)
      {
        assert bases[k..][0] == bases[k] && bases[k..][1..] == bases[k + 1..];
        var inferredNode := Infer(bases[k]);
        if inferredNode.Err? {
          return Err(inferredNode.error);
        }
        if inferredNode.value.None? {
          return Err(AttributeError("name"));
        }
        var parentName := InferredName(inferredNode.value.value);
        if parentName.None? {
          return Err(AttributeError("name"));
        }
        ThenThen(parents, [parentName.value], BaseNames(bases[k + 1..]));
        parents := parents + [parentName.value];
      }
      assert bases[|bases|..] == [];
      assert parents + [] == parents;
      r := Ok(parents);
    }

    /** The nodes of a class's `instance_attrs` table, flattened in table order. */
    method ExtractInstanceAttributes(classNode: Stmt) returns (attributes: seq<AttrNode>)
      requires classNode.ClassDef?
      ensures attributes == InstanceAttributes(classNode.instanceAttrs)
    {
      var table := classNode.instanceAttrs;
      attributes := [];
      for i := 0 to |table|
        invariant attributes == InstanceAttributes(table[..i])
      {
        assert table[..i + 1][..i] == table[..i];
        var instanceAttr := table[i].nodes;
        for k := 0 to |instanceAttr|
          invariant attributes == InstanceAttributes(table[..i]) + instanceAttr[..k]
        {
          assert instanceAttr[..k + 1] == instanceAttr[..k] + [instanceAttr[k]];
          attributes := attributes + [instanceAttr[k]];
        }
        assert instanceAttr[..|instanceAttr|] == instanceAttr;
      }
      assert table[..|table|] == table;
    }

    /** `parse_file`: the parse of an existing file, `None` when it has a syntax error. */
    method ParseFile(fs: Disk, absoluteFilePath: string) returns (r: Result<Option<Module>, Error>)
      ensures r == ParseResult(fs, absoluteFilePath)
    {
      var parsedAst: Option<Module> := None;
      if absoluteFilePath !in fs {
        return Err(FileNotFoundError(absoluteFilePath));
      }
      match fs[absoluteFilePath]
      case Directory(_) =>
        return Err(IsADirectoryError(absoluteFilePath));
      case File(parsed) =>
        if parsed.Some? {
          parsedAst := parsed;
        }
      r := Ok(parsedAst);
    }
  }
}
