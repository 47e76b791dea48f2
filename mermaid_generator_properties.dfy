/**
  What the astroid generator promises, stated over the functions of
  `MermaidGenerator`: the order of a record's attributes, one parent name
  per base, the scoped lookup, parent lookup that skips unparsable files,
  target selection, and a diagram that cannot fail once the records are in
  hand.
*/
module MermaidGeneratorProperties {
  import opened Wrappers
  import opened Text
  import opened FileSystem
  import opened AstroidNodes
  import opened AstroidEntities
  import opened Mermaid
  import opened MermaidGenerator

  // ---------------------------------------------------------------------
  // Import table and attributes

  /** The import table is built statement by statement: only `ImportFrom` contributes. */
  lemma {:induction false} ImportTableAppend(a: seq<Stmt>, b: seq<Stmt>)
    ensures ImportTable(a + b) == ImportTable(a) + ImportTable(b)
    decreases |b|
  {
    if b == [] {
      assert a + b == a;
    } else {
      var b' := b[..|b| - 1];
      ImportTableAppend(a, b');
      SnocSplit(a, b);
    }
  }

  lemma ImportTableOne(s: Stmt)
    ensures ImportTable([s]) == if s.ImportFrom? then [ImportOf(s)] else []
  {
    assert [s][..0] == [];
  }

  /** An import entry keeps the module name and the first element of each name pair. */
  lemma ImportEntry(modname: string, names: seq<ImportName>)
    ensures ImportOf(ImportFrom(modname, names)).modname == modname
    ensures |ImportOf(ImportFrom(modname, names)).names| == |names|
    ensures forall k :: 0 <= k < |names| ==> ImportOf(ImportFrom(modname, names)).names[k] == names[k].name
  {
  }

  lemma {:induction false} InstanceAttributesAppend(a: seq<InstanceAttr>, b: seq<InstanceAttr>)
    ensures InstanceAttributes(a + b) == InstanceAttributes(a) + InstanceAttributes(b)
    decreases |b|
  {
    if b == [] {
      assert a + b == a;
    } else {
      var b' := b[..|b| - 1];
      InstanceAttributesAppend(a, b');
      SnocSplit(a, b);
      var last := b[|b| - 1].nodes;
      assert InstanceAttributes(a + b) == InstanceAttributes(a + b') + last;
      assert InstanceAttributes(b) == InstanceAttributes(b') + last;
      SeqAssoc(InstanceAttributes(a), InstanceAttributes(b'), last);
    }
  }

  /** The flattened table holds each entry's nodes, entry after entry, and nothing else. */
  lemma {:induction false} InstanceAttributesExactly(table: seq<InstanceAttr>)
    ensures forall n :: n in InstanceAttributes(table) <==> exists i :: 0 <= i < |table| && n in table[i].nodes
    decreases |table|
  {
    if table != [] {
      var init := table[..|table| - 1];
      var last := table[|table| - 1];
      InstanceAttributesExactly(init);
      forall n | n in InstanceAttributes(table)
        ensures exists i :: 0 <= i < |table| && n in table[i].nodes
      {
        if n in InstanceAttributes(init) {
          var i :| 0 <= i < |init| && n in init[i].nodes;
          assert table[i] == init[i];
        } else {
          assert n in table[|table| - 1].nodes;
        }
      }
      forall n | exists i :: 0 <= i < |table| && n in table[i].nodes
        ensures n in InstanceAttributes(table)
      {
        var i :| 0 <= i < |table| && n in table[i].nodes;
        if i < |table| - 1 {
          assert init[i] == table[i];
        }
      }
    }
  }

  /** The `Assign` and `AnnAssign` statements of a class body, exactly. */
  lemma {:induction false} BodyAttributesExactly(body: seq<Stmt>)
    ensures forall n :: n in BodyAttributes(body) <==> n.StmtNode? && n.stmt in body && (n.stmt.Assign? || n.stmt.AnnAssign?)
    decreases |body|
  {
    if body != [] {
      var init := body[..|body| - 1];
      BodyAttributesExactly(init);
      assert body == init + [body[|body| - 1]];
    }
  }

  /** The `FunctionDef` statements of a class body, exactly. */
  lemma {:induction false} BodyFunctionsExactly(body: seq<Stmt>)
    ensures forall f :: f in BodyFunctions(body) <==> f.node in body
    decreases |body|
  {
    if body != [] {
      var init := body[..|body| - 1];
      BodyFunctionsExactly(init);
      assert body == init + [body[|body| - 1]];
    }
  }

  /**
    A record lists its instance attributes first, then its class-body
    assignments; its methods are exactly its body's function definitions.
  */
  lemma RecordAttributes(c: Stmt)
    requires c.ClassDef?
    requires ClassInfoOf(c).Ok?
    ensures var info := ClassInfoOf(c).value;
      var k := |InstanceAttributes(c.instanceAttrs)|;
      k <= |info.attributes|
      && info.attributes[..k] == InstanceAttributes(c.instanceAttrs)
      && (forall n :: n in info.attributes[k..] <==> n.StmtNode? && n.stmt in c.body && (n.stmt.Assign? || n.stmt.AnnAssign?))
      && (forall f :: f in info.functions <==> f.node in c.body)
  {
    var info := ClassInfoOf(c).value;
    var inst := InstanceAttributes(c.instanceAttrs);
    assert info.attributes == inst + BodyAttributes(c.body);
    assert info.attributes[|inst|..] == BodyAttributes(c.body);
    BodyAttributesExactly(c.body);
    BodyFunctionsExactly(c.body);
  }

  // ---------------------------------------------------------------------
  // Parent names

  /** A base names its parent exactly when it infers to a node that has a name. */
  lemma BaseNameCases(base: ExprNode)
    ensures BaseName(base).Ok? <==> base.inference.Inferred? && InferredName(base.inference.first).Some?
    ensures BaseName(base).Ok? ==> BaseName(base).value == InferredName(base.inference.first).value
    ensures base.inference.InferenceError? ==> BaseName(base) == Err(AttributeError("name"))
  {
  }

  /**
    Every base contributes exactly one parent name, in order, with no
    filtering; a single base that cannot be named makes the whole record fail.
  */
  lemma {:induction false} BaseNamesExactly(bases: seq<ExprNode>)
    ensures BaseNames(bases).Ok? <==> forall k :: 0 <= k < |bases| ==> BaseName(bases[k]).Ok?
    ensures BaseNames(bases).Ok? ==>
      |BaseNames(bases).value| == |bases|
      && forall k :: 0 <= k < |bases| ==> BaseNames(bases).value[k] == BaseName(bases[k]).value
    decreases |bases|
  {
    if bases != [] {
      var rest := bases[1..];
      BaseNamesExactly(rest);
      assert forall k :: 1 <= k < |bases| ==> rest[k - 1] == bases[k];
      if BaseNames(bases).Ok? {
        var r := BaseNames(bases).value;
        assert r == [BaseName(bases[0]).value] + BaseNames(rest).value;
        assert forall k :: 1 <= k < |bases| ==> r[k] == BaseNames(rest).value[k - 1];
      }
    }
  }

  // ---------------------------------------------------------------------
  // The class loop

  /** `[info]`, or the error recording the class raised. */
  function Single(r: Result<ClassInfo, Error>): Result<seq<ClassInfo>, Error> {
    match r
    case Ok(info) => Ok([info])
    case Err(e) => Err(e)
  }

  /** The records of every top-level class in source order, or the first error (a reference definition). */
  ghost function AllClasses(body: seq<Stmt>): Result<seq<ClassInfo>, Error> {
    if body == [] then Ok([])
    else
      var last := body[|body| - 1];
      if last.ClassDef? then Chain(AllClasses(body[..|body| - 1]), Single(ClassInfoOf(last)))
      else AllClasses(body[..|body| - 1])
  }

  ghost function AllParents(infos: seq<ClassInfo>): seq<string> {
    if infos == [] then [] else AllParents(infos[..|infos| - 1]) + infos[|infos| - 1].parents
  }

  lemma {:induction false} AllClassesAppend(a: seq<Stmt>, b: seq<Stmt>)
    ensures AllClasses(a + b) == Chain(AllClasses(a), AllClasses(b))
    decreases |b|
  {
    if b == [] {
      assert a + b == a;
      ChainUnit(AllClasses(a));
    } else {
      var b' := b[..|b| - 1];
      AllClassesAppend(a, b');
      SnocSplit(a, b);
      if b[|b| - 1].ClassDef? {
        ChainAssoc(AllClasses(a), AllClasses(b'), Single(ClassInfoOf(b[|b| - 1])));
      }
    }
  }

  lemma {:induction false} AllParentsAppend(a: seq<ClassInfo>, b: seq<ClassInfo>)
    ensures AllParents(a + b) == AllParents(a) + AllParents(b)
    decreases |b|
  {
    if b == [] {
      assert a + b == a;
    } else {
      var b' := b[..|b| - 1];
      AllParentsAppend(a, b');
      SnocSplit(a, b);
    }
  }

  /** What the unscoped class loop gives, from the reference records. */
  ghost function Unscoped(all: Result<seq<ClassInfo>, Error>): Result<Scan, Error> {
    match all
    case Ok(cs) => Ok(Finished(cs, AllParents(cs)))
    case Err(e) => Err(e)
  }

  /**
    Without a class name, every top-level class gives a record, in source
    order, and the parent list is the concatenation of their parent lists;
    the first class whose bases cannot be named makes the whole file fail.
  */
  lemma {:induction false} UnscopedScan(body: seq<Stmt>)
    ensures ScanClasses(body, None) == Unscoped(AllClasses(body))
    decreases |body|
  {
    if body != [] {
      var rest := body[1..];
      UnscopedScan(rest);
      assert body == [body[0]] + rest;
      AllClassesAppend([body[0]], rest);
      assert [body[0]][..0] == [];
      if body[0].ClassDef? {
        var r := ClassInfoOf(body[0]);
        assert AllClasses([body[0]]) == Chain(Ok([]), Single(r));
        ChainUnit(Single(r));
        if r.Ok? && AllClasses(rest).Ok? {
          AllParentsAppend([r.value], AllClasses(rest).value);
          assert AllParents([r.value]) == r.value.parents by {
            assert [r.value][..0] == [];
          }
        }
      } else {
        ChainUnit(AllClasses(rest));
      }
    }
  }

  /** No top-level class in `body` is named `name`. */
  ghost predicate NoClassNamed(body: seq<Stmt>, name: string) {
    forall j :: 0 <= j < |body| ==> !(body[j].ClassDef? && body[j].name == name)
  }

  /** Every top-level class in `body` can be recorded. */
  ghost predicate AllRecordable(body: seq<Stmt>) {
    forall j :: 0 <= j < |body| && body[j].ClassDef? ==> ClassInfoOf(body[j]).Ok?
  }

  /**
    A scoped lookup returns the first top-level class of that name alone,
    with no parents and no imports, once every class up to it can be recorded.
  */
  lemma {:induction false} ScopedFound(body: seq<Stmt>, name: string, i: nat)
    requires i < |body| && body[i].ClassDef? && body[i].name == name
    requires NoClassNamed(body[..i], name)
    requires AllRecordable(body[..i + 1])
    ensures ClassInfoOf(body[i]).Ok?
    ensures ScanClasses(body, Some(name)) == Ok(Found(ClassInfoOf(body[i]).value))
    ensures ExtractClassInfo(Module(body), Some(name)) == Ok(Extraction([ClassInfoOf(body[i]).value], [], []))
    decreases i
  {
    assert body[..i + 1][i] == body[i];
    if i > 0 {
      var rest := body[1..];
      assert rest[i - 1] == body[i];
      var before := rest[..i - 1];
      forall j | 0 <= j < i - 1
        ensures !(before[j].ClassDef? && before[j].name == name)
      {
        assert before[j] == body[..i][j + 1];
      }
      var upTo := rest[..i];
      forall j | 0 <= j < i && upTo[j].ClassDef?
        ensures ClassInfoOf(upTo[j]).Ok?
      {
        assert upTo[j] == body[..i + 1][j + 1];
      }
      ScopedFound(rest, name, i - 1);
      assert body[..i][0] == body[0];
      assert body[..i + 1][0] == body[0];
    }
  }

  /** A scoped lookup that matches no class gives exactly the unscoped result. */
  lemma {:induction false} ScopedNotFound(body: seq<Stmt>, name: string)
    requires NoClassNamed(body, name)
    ensures ScanClasses(body, Some(name)) == ScanClasses(body, None)
    ensures ExtractClassInfo(Module(body), Some(name)) == ExtractClassInfo(Module(body), None)
    decreases |body|
  {
    if body != [] {
      var rest := body[1..];
      assert forall j :: 0 <= j < |rest| ==> rest[j] == body[j + 1];
      ScopedNotFound(rest, name);
    }
  }

  /**
    A class that cannot be recorded stops the scan with its error, scoped or
    not, once the classes before it can be recorded and none of them is the
    one looked for.
  */
  lemma {:induction false} ScopedRaisesFirst(body: seq<Stmt>, className: Option<string>, i: nat)
    requires i < |body| && body[i].ClassDef? && ClassInfoOf(body[i]).Err?
    requires AllRecordable(body[..i])
    requires className.Some? ==> NoClassNamed(body[..i], className.value)
    ensures ScanClasses(body, className) == Err(ClassInfoOf(body[i]).error)
    ensures ExtractClassInfo(Module(body), className) == Err(ClassInfoOf(body[i]).error)
    decreases i
  {
    if i > 0 {
      var rest := body[1..];
      assert rest[i - 1] == body[i];
      var before := rest[..i - 1];
      forall j | 0 <= j < i - 1 && before[j].ClassDef?
        ensures ClassInfoOf(before[j]).Ok?
      {
        assert before[j] == body[..i][j + 1];
      }
      if className.Some? {
        forall j | 0 <= j < i - 1
          ensures !(before[j].ClassDef? && before[j].name == className.value)
        {
          assert before[j] == body[..i][j + 1];
        }
      }
      ScopedRaisesFirst(rest, className, i - 1);
      assert body[..i][0] == body[0];
    }
  }

  // ---------------------------------------------------------------------
  // Parent lookup

  /**
    `parse_file` as written differs from the intended reading exactly on a
    file that does not parse: there it raises `AstroidSyntaxError` instead of
    giving `None`, so neither the parent lookup's skip nor the later
    `AttributeError` on `None.body` is reached.
  */
  lemma SyntaxErrorEscapes(fs: Disk, path: string)
    ensures path in fs && fs[path] == File(None) ==>
      ParseFileAsWritten(fs, path) == Err(AstroidSyntaxError(path)) && ParseResult(fs, path) == Ok(None)
    ensures !(path in fs && fs[path] == File(None)) ==> ParseFileAsWritten(fs, path) == ParseResult(fs, path)
  {
  }

  /**
    The outcome of looking up one parent name, case by case: a missing file
    and a file with a syntax error are skipped; a directory raises.
  */
  lemma ResolveParentCases(root: string, fs: Disk, modname: string, name: string, parents: seq<string>)
    ensures name !in parents ==> ResolveParent(root, fs, modname, name, parents) == Ok([])
    ensures ModulePath(root, modname) !in fs ==> ResolveParent(root, fs, modname, name, parents) == Ok([])
    ensures ModulePath(root, modname) in fs && fs[ModulePath(root, modname)] == File(None) ==>
      ResolveParent(root, fs, modname, name, parents) == Ok([])
    ensures name in parents && IsDir(fs, ModulePath(root, modname)) ==>
      ResolveParent(root, fs, modname, name, parents) == Err(IsADirectoryError(ModulePath(root, modname)))
  {
  }

  /** An imported parent resolves to the record of its first class of that name in its module's file. */
  lemma ResolvedParent(root: string, fs: Disk, modname: string, name: string, parents: seq<string>,
                       body: seq<Stmt>, i: nat)
    requires name in parents
    requires ModulePath(root, modname) in fs && fs[ModulePath(root, modname)] == File(Some(Module(body)))
    requires i < |body| && body[i].ClassDef? && body[i].name == name
    requires NoClassNamed(body[..i], name)
    requires AllRecordable(body[..i + 1])
    ensures ClassInfoOf(body[i]).Ok?
    ensures ResolveParent(root, fs, modname, name, parents) == Ok([ClassInfoOf(body[i]).value])
  {
    ScopedFound(body, name, i);
  }

  /** When the module file has no class of that name, the lookup brings in every class of that file. */
  lemma UnmatchedParentBringsWholeFile(root: string, fs: Disk, modname: string, name: string,
                                       parents: seq<string>, body: seq<Stmt>)
    requires name in parents
    requires ModulePath(root, modname) in fs && fs[ModulePath(root, modname)] == File(Some(Module(body)))
    requires NoClassNamed(body, name)
    ensures ResolveParent(root, fs, modname, name, parents) == AllClasses(body)
  {
    ScopedNotFound(body, name);
    UnscopedScan(body);
  }

  ghost predicate NothingImported(imports: seq<Import>, parents: seq<string>) {
    forall i, k :: 0 <= i < |imports| && 0 <= k < |imports[i].names| ==> imports[i].names[k] !in parents
  }

  lemma {:induction false} NamesNotResolved(root: string, fs: Disk, modname: string, names: seq<string>, parents: seq<string>)
    requires forall k :: 0 <= k < |names| ==> names[k] !in parents
    ensures ResolveNames(root, fs, modname, names, parents) == Ok([])
    decreases |names|
  {
    if names != [] {
      assert forall k :: 0 <= k < |names| - 1 ==> names[1..][k] == names[k + 1];
      NamesNotResolved(root, fs, modname, names[1..], parents);
      ChainUnit(ResolveNames(root, fs, modname, names[1..], parents));
    }
  }

  /** Imports that bring in no parent name contribute no records, and read no file. */
  lemma {:induction false} UnimportedParentsIgnored(root: string, fs: Disk, imports: seq<Import>, parents: seq<string>)
    requires NothingImported(imports, parents)
    ensures ResolveImports(root, fs, imports, parents) == Ok([])
    decreases |imports|
  {
    if imports != [] {
      NamesNotResolved(root, fs, imports[0].modname, imports[0].names, parents);
      assert forall i :: 0 <= i < |imports| - 1 ==> imports[1..][i] == imports[i + 1];
      UnimportedParentsIgnored(root, fs, imports[1..], parents);
      ChainUnit(ResolveImports(root, fs, imports[1..], parents));
    }
  }

  /** Imports are resolved in order: the records of earlier imports come first. */
  lemma {:induction false} ResolveImportsAppend(root: string, fs: Disk, a: seq<Import>, b: seq<Import>, parents: seq<string>)
    ensures ResolveImports(root, fs, a + b, parents)
      == Chain(ResolveImports(root, fs, a, parents), ResolveImports(root, fs, b, parents))
    decreases |a|
  {
    if a == [] {
      assert a + b == b;
      ChainUnit(ResolveImports(root, fs, b, parents));
    } else {
      assert (a + b)[0] == a[0] && (a + b)[1..] == a[1..] + b;
      ResolveImportsAppend(root, fs, a[1..], b, parents);
      ChainAssoc(ResolveNames(root, fs, a[0].modname, a[0].names, parents),
                 ResolveImports(root, fs, a[1..], parents), ResolveImports(root, fs, b, parents));
    }
  }

  // ---------------------------------------------------------------------
  // Files and targets

  /**
    A path that is not a file raises `ValueError`, a target file with a
    syntax error raises `AttributeError`, and otherwise a successful result
    starts with every record of the file itself, in source order.
  */
  lemma FileCases(root: string, fs: Disk, path: string)
    ensures !IsFile(fs, path) ==> CollectFromFile(root, fs, path) == Err(ValueError(path))
    ensures IsFile(fs, path) && fs[path].parsed.None? ==> CollectFromFile(root, fs, path) == Err(AttributeError("body"))
    ensures IsFile(fs, path) && fs[path].parsed.Some? && CollectFromFile(root, fs, path).Ok? ==>
      var own := AllClasses(fs[path].parsed.value.body);
      own.Ok? && |own.value| <= |CollectFromFile(root, fs, path).value|
      && CollectFromFile(root, fs, path).value[..|own.value|] == own.value
  {
    if IsFile(fs, path) && fs[path].parsed.Some? {
      UnscopedScan(fs[path].parsed.value.body);
    }
  }

  /** The records of every path, in order, with no ".py" test (a reference definition). */
  ghost function CollectAll(root: string, fs: Disk, paths: seq<string>): Result<seq<ClassInfo>, Error> {
    if paths == [] then Ok([])
    else Chain(CollectAll(root, fs, paths[..|paths| - 1]), CollectFromFile(root, fs, paths[|paths| - 1]))
  }

  lemma {:induction false} CollectPythonAppend(root: string, fs: Disk, a: seq<string>, b: seq<string>)
    ensures CollectPython(root, fs, a + b) == Chain(CollectPython(root, fs, a), CollectPython(root, fs, b))
    decreases |a|
  {
    if a == [] {
      assert a + b == b;
      ChainUnit(CollectPython(root, fs, b));
    } else {
      assert (a + b)[0] == a[0] && (a + b)[1..] == a[1..] + b;
      CollectPythonAppend(root, fs, a[1..], b);
      if EndsWith(a[0], ".py") {
        ChainAssoc(CollectFromFile(root, fs, a[0]), CollectPython(root, fs, a[1..]), CollectPython(root, fs, b));
      }
    }
  }

  lemma CollectPythonOne(root: string, fs: Disk, path: string)
    ensures CollectPython(root, fs, [path]) == if EndsWith(path, ".py") then CollectFromFile(root, fs, path) else Ok([])
  {
    assert [path][1..] == [];
    ChainUnit(CollectFromFile(root, fs, path));
  }

  lemma {:induction false} CollectPythonFilters(root: string, fs: Disk, paths: seq<string>)
    ensures CollectPython(root, fs, paths) == CollectAll(root, fs, PythonFiles(paths))
    decreases |paths|
  {
    if paths != [] {
      var init := paths[..|paths| - 1];
      var last := paths[|paths| - 1];
      CollectPythonFilters(root, fs, init);
      assert paths == init + [last];
      CollectPythonAppend(root, fs, init, [last]);
      CollectPythonOne(root, fs, last);
      if EndsWith(last, ".py") {
        SnocSplit(PythonFiles(init), [last]);
        assert CollectAll(root, fs, PythonFiles(paths)) == Chain(CollectPython(root, fs, init), CollectFromFile(root, fs, last));
      } else {
        ChainUnit(CollectPython(root, fs, init));
      }
    }
  }

  /** The records of a `--path` argument are those of the files it designates, in order. */
  lemma TargetsCollected(root: string, fs: Disk, target: string)
    ensures ClassesInfo(root, fs, target) == CollectAll(root, fs, TargetFiles(fs, target))
  {
    var pieces := Split(target, "++");
    if |pieces| > 1 {
      CollectPythonFilters(root, fs, pieces);
    } else if IsDir(fs, target) {
      CollectPythonFilters(root, fs, fs[target].walk);
    } else if IsFile(fs, target) {
      assert [target][..0] == [];
      ChainUnit(CollectFromFile(root, fs, target));
    }
  }

  // ---------------------------------------------------------------------
  // The diagram

  /** Rendering never raises: the diagram fails exactly when collecting the records does. */
  lemma DiagramFailsOnlyInCollection(title: string, root: string, fs: Disk, target: string)
    ensures Diagram(title, root, fs, target).Ok? <==> ClassesInfo(root, fs, target).Ok?
    ensures ClassesInfo(root, fs, target).Err? ==>
      Diagram(title, root, fs, target) == Err(ClassesInfo(root, fs, target).error)
  {
  }

  lemma BlocksLast(infos: seq<ClassInfo>)
    requires infos != []
    ensures Blocks(infos) == Blocks(infos[..|infos| - 1]) + Block(infos[|infos| - 1])
  {
  }

  lemma {:induction false} BlocksAppend(a: seq<ClassInfo>, b: seq<ClassInfo>)
    ensures Blocks(a + b) == Blocks(a) + Blocks(b)
    decreases |b|
  {
    if b == [] {
      assert a + b == a;
    } else {
      var b' := b[..|b| - 1];
      BlocksAppend(a, b');
      SnocSplit(a, b);
      BlocksLast(a + b);
      BlocksLast(b);
      ConcatStep(Blocks(a), Blocks(b'), Block(b[|b| - 1]), Blocks(a + b), Blocks(b));
    }
  }

  lemma {:induction false} AttributeLinePresent(nodes: seq<AttrNode>, k: nat)
    requires k < |nodes|
    ensures Contains(AttributeLines(nodes), AttributeText(nodes[k]))
  {
    var init := nodes[..|nodes| - 1];
    if k == |nodes| - 1 {
      ContainsSuffix(AttributeLines(init), AttributeText(nodes[k]));
    } else {
      AttributeLinePresent(init, k);
      ContainsExtend(AttributeLines(init), AttributeText(nodes[|nodes| - 1]), AttributeText(nodes[k]));
    }
  }

  lemma {:induction false} FunctionNamesIndex(functions: seq<Function>, k: nat)
    requires k < |functions|
    ensures |FunctionNames(functions)| == |functions|
    ensures FunctionNames(functions)[k] == functions[k].Name()
    decreases |functions|
  {
    if k < |functions| - 1 {
      FunctionNamesIndex(functions[..|functions| - 1], k);
    } else if |functions| > 1 {
      FunctionNamesIndex(functions[..|functions| - 1], 0);
    }
  }

  /** Method names are identifiers: no whitespace in them. */
  ghost predicate IdentifierNames(info: ClassInfo) {
    forall k :: 0 <= k < |info.functions| ==> NoSpace(info.functions[k].Name())
  }

  lemma NamesHaveNoSpace(info: ClassInfo)
    requires IdentifierNames(info)
    ensures info.functions == [] <==> FunctionNames(info.functions) == []
    ensures forall i :: 0 <= i < |FunctionNames(info.functions)| ==> NoSpace(FunctionNames(info.functions)[i])
  {
    var names := FunctionNames(info.functions);
    if info.functions != [] {
      FunctionNamesIndex(info.functions, 0);
    }
    forall i | 0 <= i < |names| ensures NoSpace(names[i]) {
      FunctionNamesIndex(info.functions, i);
    }
  }

  /**
    Text `t` shows record `info`: one connection line per parent name, one
    line per attribute, and each method's "name()".
  */
  ghost predicate Shows(t: string, info: ClassInfo) {
    (forall k :: 0 <= k < |info.parents| ==> Contains(t, Connection(info.name, info.parents[k])))
    && (forall k :: 0 <= k < |info.attributes| ==> Contains(t, AttributeText(info.attributes[k])))
    && (forall k :: 0 <= k < |info.functions| ==> Contains(t, info.functions[k].Name() + "()"))
  }

  lemma BlockShows(info: ClassInfo)
    requires IdentifierNames(info)
    ensures Shows(Block(info), info)
  {
    var connections := Connections(info.name, info.parents);
    var attributes := AttributeLines(info.attributes);
    var m := MethodLines(FunctionNames(info.functions));
    var methods := Strip(m);
    assert Block(info) == ClassBlock(info.name, connections, attributes, methods);
    forall k | 0 <= k < |info.parents|
      ensures Contains(Block(info), Connection(info.name, info.parents[k]))
    {
      ConnectionPresent(info.name, info.parents, k);
      ClassBlockShows(info.name, connections, attributes, methods, Connection(info.name, info.parents[k]));
    }
    forall k | 0 <= k < |info.attributes|
      ensures Contains(Block(info), AttributeText(info.attributes[k]))
    {
      AttributeLinePresent(info.attributes, k);
      ClassBlockShows(info.name, connections, attributes, methods, AttributeText(info.attributes[k]));
    }
    NamesHaveNoSpace(info);
    StripMethodLines(FunctionNames(info.functions));
    forall k | 0 <= k < |info.functions|
      ensures Contains(Block(info), info.functions[k].Name() + "()")
    {
      var name := info.functions[k].Name();
      FunctionNamesIndex(info.functions, k);
      MethodPresent(FunctionNames(info.functions), k);
      assert MethodLine(name) == (name + "()") + "\n";
      ContainsBeforeLast(m, name + "()", "\n");
      ClassBlockShows(info.name, connections, attributes, methods, name + "()");
    }
  }

  lemma ShowsPrepend(prefix: string, t: string, info: ClassInfo)
    requires Shows(t, info)
    ensures Shows(prefix + t, info)
  {
    forall k | 0 <= k < |info.parents| ensures Contains(prefix + t, Connection(info.name, info.parents[k])) {
      ContainsPrepend(prefix, t, Connection(info.name, info.parents[k]));
    }
    forall k | 0 <= k < |info.attributes| ensures Contains(prefix + t, AttributeText(info.attributes[k])) {
      ContainsPrepend(prefix, t, AttributeText(info.attributes[k]));
    }
    forall k | 0 <= k < |info.functions| ensures Contains(prefix + t, info.functions[k].Name() + "()") {
      ContainsPrepend(prefix, t, info.functions[k].Name() + "()");
    }
  }

  lemma ShowsExtend(t: string, suffix: string, info: ClassInfo)
    requires Shows(t, info)
    ensures Shows(t + suffix, info)
  {
    forall k | 0 <= k < |info.parents| ensures Contains(t + suffix, Connection(info.name, info.parents[k])) {
      ContainsExtend(t, suffix, Connection(info.name, info.parents[k]));
    }
    forall k | 0 <= k < |info.attributes| ensures Contains(t + suffix, AttributeText(info.attributes[k])) {
      ContainsExtend(t, suffix, AttributeText(info.attributes[k]));
    }
    forall k | 0 <= k < |info.functions| ensures Contains(t + suffix, info.functions[k].Name() + "()") {
      ContainsExtend(t, suffix, info.functions[k].Name() + "()");
    }
  }

  lemma {:induction false} BlocksShow(infos: seq<ClassInfo>, i: nat)
    requires i < |infos|
    requires IdentifierNames(infos[i])
    ensures Shows(Blocks(infos), infos[i])
    decreases |infos|
  {
    var init := infos[..|infos| - 1];
    var last := infos[|infos| - 1];
    if i == |infos| - 1 {
      BlockShows(last);
      ShowsPrepend(Blocks(init), Block(last), last);
    } else {
      BlocksShow(init, i);
      assert init[i] == infos[i];
      ShowsExtend(Blocks(init), Block(last), infos[i]);
    }
  }

  /**
    A diagram starts with the titled header and shows every record of the
    designated files: all its parent, attribute and method lines.
  */
  lemma DiagramShowsEveryRecord(title: string, root: string, fs: Disk, target: string)
    requires Diagram(title, root, fs, target).Ok?
    ensures ClassesInfo(root, fs, target).Ok?
    ensures var d := Diagram(title, root, fs, target).value;
      |Header(title)| <= |d| && d[..|Header(title)|] == Header(title)
    ensures forall i :: 0 <= i < |ClassesInfo(root, fs, target).value| && IdentifierNames(ClassesInfo(root, fs, target).value[i]) ==>
      Shows(Diagram(title, root, fs, target).value, ClassesInfo(root, fs, target).value[i])
  {
    var infos := ClassesInfo(root, fs, target).value;
    var d := Diagram(title, root, fs, target).value;
    assert d == Header(title) + Blocks(infos);
    forall i | 0 <= i < |infos| && IdentifierNames(infos[i]) ensures Shows(d, infos[i]) {
      BlocksShow(infos, i);
      ShowsPrepend(Header(title), Blocks(infos), infos[i]);
    }
  }
}
