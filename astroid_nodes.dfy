/**
  The part of astroid's node classes that the astroid generator inspects.
  What astroid computes about a node on request — the text `as_string()`
  gives and the first result of `infer()` — is part of the input: each
  node that is asked carries the answer it gets.
*/
module AstroidNodes {
  import opened Wrappers
  import opened FileSystem

  /**
    Expression nodes. `Name` stands for both `Name` and `AssignName`; a
    `Const` is astroid's own constant node, carrying the Python type name
    of its value; `AttributeNode` is astroid's `Attribute` (and
    `AssignAttr` in target position), which has an `attrname` but no
    `name`; a `Lambda` is named "<lambda>".
  */
  datatype Expr =
    | Name(id: string)
    | Const(typeName: string)
    | List
    | Dict
    | Set
    | Tuple
    | Call(func: Expr)
    | Subscript(value: Expr, slice: Expr)
    | BinOp(left: Expr, right: Expr)
    | AttributeNode(expr: Expr, attrname: string)
    | Lambda
    | OtherExpr(kind: string)

  /**
    `node.name`, for the nodes that have one; reading it elsewhere raises.
    astroid's constant and collection display nodes are instances of a
    builtin class, and an attribute they lack is read from that class: a
    `Const` is named by its value's type, and `[a, b]`, `{}`, `{a}` and
    `a, b` by "list", "dict", "set" and "tuple".
  */
  function NameOf(e: Expr): (r: Option<string>)
    ensures r.Some? <==> !(e.Call? || e.Subscript? || e.BinOp? || e.AttributeNode? || e.OtherExpr?)
    ensures e.Name? ==> r == Some(e.id)
    ensures e.Const? ==> r == Some(e.typeName)
    ensures e.List? ==> r == Some("list")
    ensures e.Dict? ==> r == Some("dict")
    ensures e.Set? ==> r == Some("set")
    ensures e.Tuple? ==> r == Some("tuple")
  {
    match e
    case Name(id) => Some(id)
    case Lambda => Some("<lambda>")
    case Const(typeName) => Some(typeName)
    case List => Some("list")
    case Dict => Some("dict")
    case Set => Some("set")
    case Tuple => Some("tuple")
    case _ => None
  }

  /** `type(node).__name__` of a collection display. */
  function CollectionKind(e: Expr): string
    requires e.List? || e.Dict? || e.Set? || e.Tuple?
  {
    match e
    case List => "List"
    case Dict => "Dict"
    case Set => "Set"
    case Tuple => "Tuple"
  }

  /**
    The node `infer()` yields first: a class definition with the names of
    its type parameters, or any other node, with its `name` if it has one.
  */
  datatype InferredNode = ClassNode(className: string, typeParams: seq<string>) | OtherNode(nodeName: Option<string>)

  /** What asking a node for its inference gives: an `InferenceError`, no result at all, or a first result. */
  datatype Inference = InferenceError | NoResult | Inferred(first: InferredNode)

  /** An expression together with what astroid answers about it. */
  datatype ExprNode = ExprNode(expr: Expr, text: string, inference: Inference)

  /**
    `utils._infer(node)`: the first inferred node, `None` on an
    `InferenceError`; an empty inference raises `IndexError`.
  */
  function Infer(n: ExprNode): (r: Result<Option<InferredNode>, Error>)
    ensures r == Err(IndexError) <==> n.inference.NoResult?
    ensures r == Ok(None) <==> n.inference.InferenceError?
    ensures n.inference.Inferred? ==> r == Ok(Some(n.inference.first))
  {
    match n.inference
    case InferenceError => Ok(None)
    case NoResult => Err(IndexError)
    case Inferred(first) => Ok(Some(first))
  }

  /** `inferred.name` */
  function InferredName(n: InferredNode): Option<string> {
    match n
    case ClassNode(name, _) => Some(name)
    case OtherNode(name) => name
  }

  /** One `(name, asname)` pair of an import. */
  datatype ImportName = ImportName(name: string, asname: Option<string>)

  /** Statement nodes. `modname` is "" for `from . import x`. */
  datatype Stmt =
    | ImportFrom(modname: string, names: seq<ImportName>)
    | ClassDef(name: string, bases: seq<ExprNode>, body: seq<Stmt>, instanceAttrs: seq<InstanceAttr>)
    | FunctionDef(name: string, body: seq<Stmt>)
    | Assign(targets: seq<Expr>, value: Expr)
    | AnnAssign(target: Expr, annotation: ExprNode, annValue: Option<Expr>)
    | OtherStmt

  /**
    A node an attribute is made of: a class-body statement, or the
    `AssignAttr` of `self.x = …` with the statement it sits in.
  */
  datatype AttrNode = StmtNode(stmt: Stmt) | AssignAttr(attrname: string, parent: Stmt)

  /** One entry of a class's `instance_attrs` table: a name and the nodes assigning it. */
  datatype InstanceAttr = InstanceAttr(attrName: string, nodes: seq<AttrNode>)

  /** `astroid.Module`: the top-level statements of one file. */
  datatype Module = Module(body: seq<Stmt>)
}
