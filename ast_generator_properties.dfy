/**
  What the stdlib generator promises, stated over the functions of
  `AstGenerator`: which nodes become records, attributes, methods, base names
  and imports; how the scoped lookup behaves; which files parent lookup
  reads; which files a target designates; and what the diagram shows.
*/
module AstGeneratorProperties {
  import opened Wrappers
  import opened Text
  import opened FileSystem
  import opened PyAst
  import opened Entities
  import opened Mermaid
  import opened AstGenerator

  // ---------------------------------------------------------------------
  // Import table, class bodies and bases: each is a filter over its list

  /** The import table is built statement by statement: only `ImportFrom` contributes. */
  lemma {:induction false} ImportTableAppend(a: seq<Stmt>, b: seq<Stmt>)
    ensures ImportTable(a + b) == ImportTable(a) + ImportTable(b)
    decreases |b|
  {
    if b == [] {
      assert a + b == a;
    } else {
      var b' := b[..|b| - 1];
      ImportTableAppend(a, b');
      SnocSplit(a, b);
    }
  }

  lemma ImportTableOne(s: Stmt)
    ensures ImportTable([s]) == if s.ImportFrom? then [ImportOf(s)] else []
  {
    assert [s][..0] == [];
  }

  /** An import entry keeps the module text and each imported name; aliases are dropped. */
  lemma ImportEntry(m: Option<string>, names: seq<Alias>)
    ensures ImportOf(ImportFrom(m, names)).modname == (if m.Some? then m.value else "None")
    ensures |ImportOf(ImportFrom(m, names)).names| == |names|
    ensures forall k :: 0 <= k < |names| ==> ImportOf(ImportFrom(m, names)).names[k] == names[k].name
  {
  }

  lemma {:induction false} BodyAttributesAppend(a: seq<Stmt>, b: seq<Stmt>)
    ensures BodyAttributes(a + b) == BodyAttributes(a) + BodyAttributes(b)
    decreases |b|
  {
    if b == [] {
      assert a + b == a;
    } else {
      var b' := b[..|b| - 1];
      BodyAttributesAppend(a, b');
      SnocSplit(a, b);
    }
  }

  /** A record's attributes are exactly the `Assign` and `AnnAssign` statements of its body. */
  lemma {:induction false} BodyAttributesExactly(body: seq<Stmt>)
    ensures forall a :: a in BodyAttributes(body) <==> a.node in body && (a.node.Assign? || a.node.AnnAssign?)
    decreases |body|
  {
    if body != [] {
      var init := body[..|body| - 1];
      BodyAttributesExactly(init);
      assert body == init + [body[|body| - 1]];
    }
  }

  lemma {:induction false} BodyFunctionsAppend(a: seq<Stmt>, b: seq<Stmt>)
    ensures BodyFunctions(a + b) == BodyFunctions(a) + BodyFunctions(b)
    decreases |b|
  {
    if b == [] {
      assert a + b == a;
    } else {
      var b' := b[..|b| - 1];
      BodyFunctionsAppend(a, b');
      SnocSplit(a, b);
    }
  }

  /** A record's methods are exactly the `FunctionDef` statements of its body. */
  lemma {:induction false} BodyFunctionsExactly(body: seq<Stmt>)
    ensures forall f :: f in BodyFunctions(body) <==> f.node in body
    decreases |body|
  {
    if body != [] {
      var init := body[..|body| - 1];
      BodyFunctionsExactly(init);
      assert body == init + [body[|body| - 1]];
    }
  }

  lemma {:induction false} BaseNamesAppend(a: seq<Expr>, b: seq<Expr>)
    ensures BaseNames(a + b) == BaseNames(a) + BaseNames(b)
    decreases |b|
  {
    if b == [] {
      assert a + b == a;
    } else {
      var b' := b[..|b| - 1];
      BaseNamesAppend(a, b');
      SnocSplit(a, b);
    }
  }

  /** A base that is not `Name` or `Name[...]` (such as `mod.Cls`) adds no parent name. */
  lemma DroppedBase(before: seq<Expr>, base: Expr, after: seq<Expr>)
    requires !base.Name? && !(base.Subscript? && base.value.Name?)
    ensures BaseNames(before + [base] + after) == BaseNames(before) + BaseNames(after)
  {
    var left := before + [base];
    assert BaseNames([base]) == [] by {
      assert [base][..0] == [];
    }
    BaseNamesAppend(before, [base]);
    AppendEmpty(BaseNames(before));
    BaseNamesAppend(left, after);
  }

  /**
    The parent names are exactly the ids of `Name` bases and the outer ids
    of `Name[...]` bases.
  */
  lemma {:induction false} BaseNamesExactly(bases: seq<Expr>)
    ensures forall n :: n in BaseNames(bases) <==> Name(n) in bases || exists p :: Subscript(Name(n), p) in bases
    decreases |bases|
  {
    if bases != [] {
      var init := bases[..|bases| - 1];
      var last := bases[|bases| - 1];
      BaseNamesExactly(init);
      assert bases == init + [last];
      forall n | n in BaseNames(bases)
        ensures Name(n) in bases || exists p :: Subscript(Name(n), p) in bases
      {
        if n !in BaseNames(init) {
          assert n in BaseName(last);
          if last.Subscript? {
            assert Subscript(Name(n), last.slice) in bases;
          }
        }
      }
    }
  }

  // ---------------------------------------------------------------------
  // The class loop

  /** The records of every top-level class, in source order (a reference definition). */
  ghost function AllClasses(body: seq<Stmt>): seq<ClassInfo> {
    if body == [] then []
    else
      var last := body[|body| - 1];
      AllClasses(body[..|body| - 1]) + if last.ClassDef? then [ClassInfoOf(last)] else []
  }

  /** Every record's parent names, one record after the other. */
  ghost function AllParents(infos: seq<ClassInfo>): seq<string> {
    if infos == [] then [] else AllParents(infos[..|infos| - 1]) + infos[|infos| - 1].parents
  }

  lemma {:induction false} AllClassesAppend(a: seq<Stmt>, b: seq<Stmt>)
    ensures AllClasses(a + b) == AllClasses(a) + AllClasses(b)
    decreases |b|
  {
    if b == [] {
      assert a + b == a;
    } else {
      var b' := b[..|b| - 1];
      AllClassesAppend(a, b');
      SnocSplit(a, b);
    }
  }

  lemma {:induction false} AllParentsAppend(a: seq<ClassInfo>, b: seq<ClassInfo>)
    ensures AllParents(a + b) == AllParents(a) + AllParents(b)
    decreases |b|
  {
    if b == [] {
      assert a + b == a;
    } else {
      var b' := b[..|b| - 1];
      AllParentsAppend(a, b');
      SnocSplit(a, b);
    }
  }

  /**
    Without a class name, every top-level class gives a record, in source
    order, and the parent list is the concatenation of their parent lists.
  */
  lemma {:induction false} UnscopedScan(body: seq<Stmt>)
    ensures ScanClasses(body, None) == Finished(AllClasses(body), AllParents(AllClasses(body)))
    decreases |body|
  {
    if body != [] {
      var rest := body[1..];
      UnscopedScan(rest);
      assert body == [body[0]] + rest;
      AllClassesAppend([body[0]], rest);
      assert [body[0]][..0] == [];
      AllParentsAppend(AllClasses([body[0]]), AllClasses(rest));
      if body[0].ClassDef? {
        var info := ClassInfoOf(body[0]);
        assert AllClasses([body[0]]) == [info];
        assert AllParents([info]) == info.parents by {
          assert [info][..0] == [];
        }
      } else {
        assert AllClasses([body[0]]) == [];
      }
    }
  }

  /** The unscoped extraction: every record, all their parents, the whole import table. */
  lemma UnscopedExtraction(m: Module)
    ensures ExtractClassInfo(m, None)
      == Extraction(AllClasses(m.body), AllParents(AllClasses(m.body)), ImportTable(m.body))
  {
    UnscopedScan(m.body);
  }

  /** No top-level class in `body` is named `name`. */
  ghost predicate NoClassNamed(body: seq<Stmt>, name: string) {
    forall j :: 0 <= j < |body| ==> !(body[j].ClassDef? && body[j].name == name)
  }

  /**
    A scoped lookup returns the first top-level class of that name alone,
    with no parents and no imports.
  */
  lemma {:induction false} ScopedFound(body: seq<Stmt>, name: string, i: nat)
    requires i < |body| && body[i].ClassDef? && body[i].name == name
    requires NoClassNamed(body[..i], name)
    ensures ScanClasses(body, Some(name)) == Found(ClassInfoOf(body[i]))
    ensures ExtractClassInfo(Module(body), Some(name)) == Extraction([ClassInfoOf(body[i])], [], [])
    decreases i
  {
    if i > 0 {
      var rest := body[1..];
      assert rest[i - 1] == body[i];
      var before := rest[..i - 1];
      forall j | 0 <= j < i - 1
        ensures !(before[j].ClassDef? && before[j].name == name)
      {
        assert before[j] == body[..i][j + 1];
      }
      ScopedFound(rest, name, i - 1);
      assert body[..i][0] == body[0];
    }
  }

  /** A scoped lookup that matches no class gives exactly the unscoped result. */
  lemma {:induction false} ScopedNotFound(body: seq<Stmt>, name: string)
    requires NoClassNamed(body, name)
    ensures ScanClasses(body, Some(name)) == ScanClasses(body, None)
    ensures ExtractClassInfo(Module(body), Some(name)) == ExtractClassInfo(Module(body), None)
    decreases |body|
  {
    if body != [] {
      var rest := body[1..];
      assert forall j :: 0 <= j < |rest| ==> rest[j] == body[j + 1];
      ScopedNotFound(rest, name);
    }
  }

  // ---------------------------------------------------------------------
  // Parent lookup

  /** The outcome of looking up one imported name, case by case. */
  lemma ResolveParentCases(root: string, fs: Disk, modname: string, name: string, parents: seq<string>)
    ensures name !in parents ==> ResolveParent(root, fs, modname, name, parents) == Ok([])
    ensures ModulePath(root, modname) !in fs ==> ResolveParent(root, fs, modname, name, parents) == Ok([])
    ensures name in parents && IsDir(fs, ModulePath(root, modname)) ==>
      ResolveParent(root, fs, modname, name, parents) == Err(IsADirectoryError(ModulePath(root, modname)))
    ensures name in parents && ModulePath(root, modname) in fs && fs[ModulePath(root, modname)] == File(None) ==>
      ResolveParent(root, fs, modname, name, parents) == Err(SyntaxError(ModulePath(root, modname)))
  {
  }

  /** An imported base resolves to the record of its first class of that name in its module's file. */
  lemma ResolvedParent(root: string, fs: Disk, modname: string, name: string, parents: seq<string>,
                       body: seq<Stmt>, i: nat)
    requires name in parents
    requires ModulePath(root, modname) in fs && fs[ModulePath(root, modname)] == File(Some(Module(body)))
    requires i < |body| && body[i].ClassDef? && body[i].name == name
    requires NoClassNamed(body[..i], name)
    ensures ResolveParent(root, fs, modname, name, parents) == Ok([ClassInfoOf(body[i])])
  {
    ScopedFound(body, name, i);
  }

  /**
    When the module file has no class of that name, the lookup brings in
    every class of that file.
  */
  lemma UnmatchedParentBringsWholeFile(root: string, fs: Disk, modname: string, name: string,
                                       parents: seq<string>, body: seq<Stmt>)
    requires name in parents
    requires ModulePath(root, modname) in fs && fs[ModulePath(root, modname)] == File(Some(Module(body)))
    requires NoClassNamed(body, name)
    ensures ResolveParent(root, fs, modname, name, parents) == Ok(AllClasses(body))
  {
    ScopedNotFound(body, name);
    UnscopedScan(body);
  }

  /** No imported name among the parents: nothing is looked up. */
  ghost predicate NothingImported(imports: seq<Import>, parents: seq<string>) {
    forall i, k :: 0 <= i < |imports| && 0 <= k < |imports[i].names| ==> imports[i].names[k] !in parents
  }

  lemma {:induction false} NamesNotResolved(root: string, fs: Disk, modname: string, names: seq<string>, parents: seq<string>)
    requires forall k :: 0 <= k < |names| ==> names[k] !in parents
    ensures ResolveNames(root, fs, modname, names, parents) == Ok([])
    decreases |names|
  {
    if names != [] {
      assert forall k :: 0 <= k < |names| - 1 ==> names[1..][k] == names[k + 1];
      NamesNotResolved(root, fs, modname, names[1..], parents);
      ChainUnit(ResolveNames(root, fs, modname, names[1..], parents));
    }
  }

  /** Imports that bring in no base name contribute no records, and read no file. */
  lemma {:induction false} UnimportedParentsIgnored(root: string, fs: Disk, imports: seq<Import>, parents: seq<string>)
    requires NothingImported(imports, parents)
    ensures ResolveImports(root, fs, imports, parents) == Ok([])
    decreases |imports|
  {
    if imports != [] {
      NamesNotResolved(root, fs, imports[0].modname, imports[0].names, parents);
      assert forall i :: 0 <= i < |imports| - 1 ==> imports[1..][i] == imports[i + 1];
      UnimportedParentsIgnored(root, fs, imports[1..], parents);
      ChainUnit(ResolveImports(root, fs, imports[1..], parents));
    }
  }

  /** Imports are resolved in order: the records of earlier imports come first. */
  lemma {:induction false} ResolveImportsAppend(root: string, fs: Disk, a: seq<Import>, b: seq<Import>, parents: seq<string>)
    ensures ResolveImports(root, fs, a + b, parents)
      == Chain(ResolveImports(root, fs, a, parents), ResolveImports(root, fs, b, parents))
    decreases |a|
  {
    if a == [] {
      assert a + b == b;
      ChainUnit(ResolveImports(root, fs, b, parents));
    } else {
      assert (a + b)[0] == a[0] && (a + b)[1..] == a[1..] + b;
      ResolveImportsAppend(root, fs, a[1..], b, parents);
      ChainAssoc(ResolveNames(root, fs, a[0].modname, a[0].names, parents),
                 ResolveImports(root, fs, a[1..], parents), ResolveImports(root, fs, b, parents));
    }
  }

  // ---------------------------------------------------------------------
  // Files and targets

  /**
    A path that is not a file raises `ValueError`; otherwise a successful
    result starts with every record of the file itself, in source order.
  */
  lemma FileRecordsFirst(root: string, fs: Disk, path: string)
    ensures !IsFile(fs, path) ==> CollectFromFile(root, fs, path) == Err(ValueError(path))
    ensures IsFile(fs, path) && fs[path].parsed.None? ==> CollectFromFile(root, fs, path) == Err(SyntaxError(path))
    ensures IsFile(fs, path) && fs[path].parsed.Some? && CollectFromFile(root, fs, path).Ok? ==>
      var own := AllClasses(fs[path].parsed.value.body);
      |own| <= |CollectFromFile(root, fs, path).value|
      && CollectFromFile(root, fs, path).value[..|own|] == own
  {
    if IsFile(fs, path) && fs[path].parsed.Some? {
      UnscopedScan(fs[path].parsed.value.body);
    }
  }

  /** The records of every path, in order, with no ".py" test (a reference definition). */
  ghost function CollectAll(root: string, fs: Disk, paths: seq<string>): Result<seq<ClassInfo>, Error> {
    if paths == [] then Ok([])
    else Chain(CollectAll(root, fs, paths[..|paths| - 1]), CollectFromFile(root, fs, paths[|paths| - 1]))
  }

  lemma {:induction false} CollectPythonAppend(root: string, fs: Disk, a: seq<string>, b: seq<string>)
    ensures CollectPython(root, fs, a + b) == Chain(CollectPython(root, fs, a), CollectPython(root, fs, b))
    decreases |a|
  {
    if a == [] {
      assert a + b == b;
      ChainUnit(CollectPython(root, fs, b));
    } else {
      assert (a + b)[0] == a[0] && (a + b)[1..] == a[1..] + b;
      CollectPythonAppend(root, fs, a[1..], b);
      if EndsWith(a[0], ".py") {
        ChainAssoc(CollectFromFile(root, fs, a[0]), CollectPython(root, fs, a[1..]), CollectPython(root, fs, b));
      }
    }
  }

  /** The ".py" filter and the collection loop together collect exactly the ".py" paths. */
  lemma CollectPythonOne(root: string, fs: Disk, path: string)
    ensures CollectPython(root, fs, [path]) == if EndsWith(path, ".py") then CollectFromFile(root, fs, path) else Ok([])
  {
    assert [path][1..] == [];
    ChainUnit(CollectFromFile(root, fs, path));
  }

  lemma {:induction false} CollectPythonFilters(root: string, fs: Disk, paths: seq<string>)
    ensures CollectPython(root, fs, paths) == CollectAll(root, fs, PythonFiles(paths))
    decreases |paths|
  {
    if paths != [] {
      var init := paths[..|paths| - 1];
      var last := paths[|paths| - 1];
      CollectPythonFilters(root, fs, init);
      assert paths == init + [last];
      CollectPythonAppend(root, fs, init, [last]);
      CollectPythonOne(root, fs, last);
      if EndsWith(last, ".py") {
        SnocSplit(PythonFiles(init), [last]);
        assert CollectAll(root, fs, PythonFiles(paths)) == Chain(CollectPython(root, fs, init), CollectFromFile(root, fs, last));
      } else {
        ChainUnit(CollectPython(root, fs, init));
      }
    }
  }

  /** The records of a `--path` argument are those of the files it designates, in order. */
  lemma TargetsCollected(root: string, fs: Disk, target: string)
    ensures ClassesInfo(root, fs, target) == CollectAll(root, fs, TargetFiles(fs, target))
  {
    var pieces := Split(target, "++");
    if |pieces| > 1 {
      CollectPythonFilters(root, fs, pieces);
    } else if IsDir(fs, target) {
      CollectPythonFilters(root, fs, fs[target].walk);
    } else if IsFile(fs, target) {
      assert [target][..0] == [];
      ChainUnit(CollectFromFile(root, fs, target));
    }
  }

  // ---------------------------------------------------------------------
  // The diagram

  /** Two lists of records give their blocks one after the other. */
  lemma {:induction false} BlocksAppend(a: seq<ClassInfo>, b: seq<ClassInfo>)
    ensures Blocks(a + b) == Chain(Blocks(a), Blocks(b))
    decreases |a|
  {
    if a == [] {
      assert a + b == b;
      ChainUnit(Blocks(b));
    } else {
      assert (a + b)[0] == a[0] && (a + b)[1..] == a[1..] + b;
      BlocksAppend(a[1..], b);
      ChainAssoc(Block(a[0]), Blocks(a[1..]), Blocks(b));
    }
  }

  /** Rendering fails exactly when reading some attribute's name or label raises. */
  lemma {:induction false} AttributeLinesOkExactly(attributes: seq<Attribute>)
    ensures AttributeLines(attributes).Ok? <==>
      forall k :: 0 <= k < |attributes| ==> AttributeText(attributes[k]).Ok?
    decreases |attributes|
  {
    if attributes != [] {
      AttributeLinesOkExactly(attributes[1..]);
      assert forall k :: 1 <= k < |attributes| ==> attributes[1..][k - 1] == attributes[k];
    }
  }

  lemma {:induction false} BlocksOkExactly(infos: seq<ClassInfo>)
    ensures Blocks(infos).Ok? <==>
      forall i, k :: 0 <= i < |infos| && 0 <= k < |infos[i].attributes| ==> AttributeText(infos[i].attributes[k]).Ok?
    decreases |infos|
  {
    if infos != [] {
      AttributeLinesOkExactly(infos[0].attributes);
      BlocksOkExactly(infos[1..]);
      assert forall i :: 1 <= i < |infos| ==> infos[1..][i - 1] == infos[i];
    }
  }

  /** Each attribute that renders gets its line. */
  lemma {:induction false} AttributeLinePresent(attributes: seq<Attribute>, k: nat)
    requires k < |attributes|
    requires AttributeLines(attributes).Ok?
    ensures AttributeText(attributes[k]).Ok?
    ensures Contains(AttributeLines(attributes).value, AttributeText(attributes[k]).value)
    decreases k
  {
    var rest := AttributeLines(attributes[1..]);
    var head := AttributeText(attributes[0]);
    ChainOk(head, rest);
    assert head.Ok? && rest.Ok? && AttributeLines(attributes).value == head.value + rest.value;
    if k == 0 {
      var h := head.value;
      assert h[0..|h|] == h;
      assert OccursAt(h, h, 0);
      ContainsExtend(h, rest.value, h);
    } else {
      AttributeLinePresent(attributes[1..], k - 1);
      assert attributes[1..][k - 1] == attributes[k];
      ContainsPrepend(head.value, rest.value, AttributeText(attributes[k]).value);
    }
  }

  /** Text `t` shows record `info`: every line its block is made of occurs in `t`. */
  ghost predicate Shows(t: string, info: ClassInfo) {
    (forall k :: 0 <= k < |info.parents| ==> Contains(t, Connection(info.name, info.parents[k])))
    && (forall k :: 0 <= k < |info.attributes| ==>
          AttributeText(info.attributes[k]).Ok? && Contains(t, AttributeText(info.attributes[k]).value))
    && (forall k :: 0 <= k < |info.functions| ==> Contains(t, MethodLine(info.functions[k].Name())))
  }

  lemma {:induction false} FunctionNamesIndex(functions: seq<Function>, k: nat)
    requires k < |functions|
    ensures |FunctionNames(functions)| == |functions|
    ensures FunctionNames(functions)[k] == functions[k].Name()
    decreases |functions|
  {
    if k < |functions| - 1 {
      FunctionNamesIndex(functions[..|functions| - 1], k);
    } else if |functions| > 1 {
      FunctionNamesIndex(functions[..|functions| - 1], 0);
    }
  }

  /**
    A rendered block shows one connection line per parent name (resolved or
    not), one line per attribute and one line per method.
  */
  lemma BlockShows(info: ClassInfo)
    requires Block(info).Ok?
    ensures Shows(Block(info).value, info)
  {
    var attributes := AttributeLines(info.attributes).value;
    var connections := Connections(info.name, info.parents);
    var methods := MethodLines(FunctionNames(info.functions));
    var b := Block(info).value;
    assert b == ClassBlock(info.name, connections, attributes, methods);
    forall k | 0 <= k < |info.parents|
      ensures Contains(b, Connection(info.name, info.parents[k]))
    {
      ConnectionPresent(info.name, info.parents, k);
      ClassBlockShows(info.name, connections, attributes, methods, Connection(info.name, info.parents[k]));
    }
    forall k | 0 <= k < |info.attributes|
      ensures AttributeText(info.attributes[k]).Ok? && Contains(b, AttributeText(info.attributes[k]).value)
    {
      AttributeLinePresent(info.attributes, k);
      ClassBlockShows(info.name, connections, attributes, methods, AttributeText(info.attributes[k]).value);
    }
    forall k | 0 <= k < |info.functions|
      ensures Contains(b, MethodLine(info.functions[k].Name()))
    {
      FunctionNamesIndex(info.functions, k);
      MethodPresent(FunctionNames(info.functions), k);
      ClassBlockShows(info.name, connections, attributes, methods, MethodLine(info.functions[k].Name()));
    }
  }

  lemma ShowsPrepend(prefix: string, t: string, info: ClassInfo)
    requires Shows(t, info)
    ensures Shows(prefix + t, info)
  {
    forall k | 0 <= k < |info.parents| ensures Contains(prefix + t, Connection(info.name, info.parents[k])) {
      ContainsPrepend(prefix, t, Connection(info.name, info.parents[k]));
    }
    forall k | 0 <= k < |info.attributes| ensures Contains(prefix + t, AttributeText(info.attributes[k]).value) {
      ContainsPrepend(prefix, t, AttributeText(info.attributes[k]).value);
    }
    forall k | 0 <= k < |info.functions| ensures Contains(prefix + t, MethodLine(info.functions[k].Name())) {
      ContainsPrepend(prefix, t, MethodLine(info.functions[k].Name()));
    }
  }

  lemma ShowsExtend(t: string, suffix: string, info: ClassInfo)
    requires Shows(t, info)
    ensures Shows(t + suffix, info)
  {
    forall k | 0 <= k < |info.parents| ensures Contains(t + suffix, Connection(info.name, info.parents[k])) {
      ContainsExtend(t, suffix, Connection(info.name, info.parents[k]));
    }
    forall k | 0 <= k < |info.attributes| ensures Contains(t + suffix, AttributeText(info.attributes[k]).value) {
      ContainsExtend(t, suffix, AttributeText(info.attributes[k]).value);
    }
    forall k | 0 <= k < |info.functions| ensures Contains(t + suffix, MethodLine(info.functions[k].Name())) {
      ContainsExtend(t, suffix, MethodLine(info.functions[k].Name()));
    }
  }

  lemma {:induction false} BlocksShow(infos: seq<ClassInfo>, i: nat)
    requires i < |infos|
    requires Blocks(infos).Ok?
    ensures Shows(Blocks(infos).value, infos[i])
    decreases i
  {
    var head := Block(infos[0]).value;
    var rest := Blocks(infos[1..]).value;
    assert Blocks(infos).value == head + rest;
    if i == 0 {
      BlockShows(infos[0]);
      ShowsExtend(head, rest, infos[0]);
    } else {
      BlocksShow(infos[1..], i - 1);
      assert infos[1..][i - 1] == infos[i];
      ShowsPrepend(head, rest, infos[i]);
    }
  }

  /**
    A diagram that renders starts with the titled header and shows every
    record of the designated files: all its parent, attribute and method lines.
  */
  lemma DiagramShowsEveryRecord(title: string, root: string, fs: Disk, target: string)
    requires Diagram(title, root, fs, target).Ok?
    ensures ClassesInfo(root, fs, target).Ok?
    ensures var d := Diagram(title, root, fs, target).value;
      |Header(title)| <= |d| && d[..|Header(title)|] == Header(title)
    ensures forall i :: 0 <= i < |ClassesInfo(root, fs, target).value| ==>
      Shows(Diagram(title, root, fs, target).value, ClassesInfo(root, fs, target).value[i])
  {
    var infos := ClassesInfo(root, fs, target).value;
    var d := Diagram(title, root, fs, target).value;
    assert d == Header(title) + Blocks(infos).value;
    forall i | 0 <= i < |infos| ensures Shows(d, infos[i]) {
      BlocksShow(infos, i);
      ShowsPrepend(Header(title), Blocks(infos).value, infos[i]);
    }
  }

  /** With the records in hand, the diagram fails exactly when some attribute fails to render. */
  lemma DiagramFailsOnlyOnAttributes(title: string, root: string, fs: Disk, target: string)
    requires ClassesInfo(root, fs, target).Ok?
    ensures var infos := ClassesInfo(root, fs, target).value;
      Diagram(title, root, fs, target).Ok? <==>
      forall i, k :: 0 <= i < |infos| && 0 <= k < |infos[i].attributes| ==> AttributeText(infos[i].attributes[k]).Ok?
  {
    BlocksOkExactly(ClassesInfo(root, fs, target).value);
  }
}
