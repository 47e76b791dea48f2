/**
  The environment both generators work in: the exceptions they can raise, a
  file map standing in for the disk, the import-to-path translation used for
  parent lookup, and the choice of target files from the `--path` argument.
*/
module FileSystem {
  import opened Wrappers
  import opened Text

  /** The Python exceptions that can escape from the generators. */
  datatype Error =
    | ValueError(path: string)         // an explicit target that is not a file
    | SyntaxError(path: string)        // `ast.parse` rejected a file
    | AstroidSyntaxError(path: string) // `astroid.parse` rejected a file; not a `SyntaxError`
    | IsADirectoryError(path: string)  // `open` was called on a directory
    | FileNotFoundError(path: string)  // `open` was called on a missing path
    | AttributeError(what: string)     // an attribute read on a node (or on None) that lacks it
    | IndexError                       // `xs[0]` on an empty list

  /**
    What a path names on disk. A file holds its parse: `None` when the parser
    reports a syntax error. A directory holds the file paths `os.walk` yields
    under it, already joined to their root, in walk order.
  */
  datatype Entry<M> = File(parsed: Option<M>) | Directory(walk: seq<string>)

  type Files<M> = map<string, Entry<M>>

  predicate IsFile<M>(fs: Files<M>, path: string) {
    path in fs && fs[path].File?
  }

  predicate IsDir<M>(fs: Files<M>, path: string) {
    path in fs && fs[path].Directory?
  }

  /**
    The file a `from module import Name` statement is looked up in:
    `root + "/" + module.replace(".", "/") + ".py"`.
  */
  function ModulePath(root: string, modname: string): (path: string)
    ensures |path| == |root| + 1 + |modname| + 3
    ensures path[..|root| + 1] == root + "/"
    ensures EndsWith(path, ".py")
    ensures forall i :: 0 <= i < |modname| ==>
      path[|root| + 1 + i] == if modname[i] == '.' then '/' else modname[i]
  {
    root + "/" + ReplaceDots(modname) + ".py"
  }

  /** The paths of `paths` that end in ".py", in their original order. */
  function PythonFiles(paths: seq<string>): (r: seq<string>)
    ensures |r| <= |paths|
    ensures forall i :: 0 <= i < |r| ==> EndsWith(r[i], ".py")
    ensures forall p :: p in r <==> p in paths && EndsWith(p, ".py")
  {
    if paths == [] then []
    else
      var rest := PythonFiles(paths[..|paths| - 1]);
      var last := paths[|paths| - 1];
      assert paths == paths[..|paths| - 1] + [last];
      if EndsWith(last, ".py") then rest + [last] else rest
  }

  /** A single path is kept exactly when it ends in ".py". */
  lemma PythonFilesOne(p: string)
    ensures PythonFiles([p]) == if EndsWith(p, ".py") then [p] else []
  {
    assert [p][..0] == [];
  }

  /** Filtering keeps order and multiplicity: it distributes over concatenation. */
  lemma {:induction false} PythonFilesAppend(a: seq<string>, b: seq<string>)
    ensures PythonFiles(a + b) == PythonFiles(a) + PythonFiles(b)
    decreases |b|
  {
    if b == [] {
      assert a + b == a;
    } else {
      var b' := b[..|b| - 1];
      var last := b[|b| - 1];
      PythonFilesAppend(a, b');
      SnocSplit(a, b);
      if EndsWith(last, ".py") {
        assert PythonFiles(a + b) == PythonFiles(a + b') + [last];
        assert PythonFiles(b) == PythonFiles(b') + [last];
        SeqAssoc(PythonFiles(a), PythonFiles(b'), [last]);
      } else {
        assert PythonFiles(a + b) == PythonFiles(a + b');
        assert PythonFiles(b) == PythonFiles(b');
      }
    }
  }

  /**
    The files a `--path` argument designates, in processing order: the ".py"
    pieces of a `++`-separated list when there are at least two pieces;
    otherwise the ".py" files of a directory walk; otherwise the path itself
    when it is a file (with no ".py" test); otherwise nothing.
  */
  function TargetFiles<M>(fs: Files<M>, target: string): seq<string> {
    var pieces := Split(target, "++");
    if |pieces| > 1 then PythonFiles(pieces)
    else if IsDir(fs, target) then PythonFiles(fs[target].walk)
    else if IsFile(fs, target) then [target]
    else []
  }

  /** A `++` list designates exactly its ".py" pieces, whatever is on disk. */
  lemma MultiTargetsArePythonPieces<M>(fs: Files<M>, target: string)
    requires Contains(target, "++")
    ensures forall p :: p in TargetFiles(fs, target) <==> p in Split(target, "++") && EndsWith(p, ".py")
    ensures forall p :: p in TargetFiles(fs, target) ==> !Contains(p, "++")
  {
    SplitCutsLeftmost(target, "++");
    SplitPiecesAreFree(target, "++");
  }

  /** Without a `++`, an existing file is its own only target, ".py" or not. */
  lemma SingleFileTarget<M>(fs: Files<M>, target: string)
    requires !Contains(target, "++")
    requires IsFile(fs, target)
    ensures TargetFiles(fs, target) == [target]
  {
    assert Find(target, "++").None?;
  }

  /** Without a `++`, a path that is neither a file nor a directory designates nothing. */
  lemma MissingTarget<M>(fs: Files<M>, target: string)
    requires !Contains(target, "++")
    requires target !in fs
    ensures TargetFiles(fs, target) == []
  {
    assert Find(target, "++").None?;
  }
}
