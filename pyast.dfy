/**
  The part of Python's standard `ast` node classes that the stdlib generator
  inspects. A parsed file and its nodes are inputs to the model: parsing
  itself is done by `ast.parse` and is not modelled.
*/
module PyAst {
  import opened Wrappers
  import opened Text

  /**
    The value held by an `ast.Constant`. Floats, complex numbers and bytes
    are kept as the text `str()` gives for them.
  */
  datatype Literal =
    | IntLit(i: int)
    | StrLit(s: string)
    | BoolLit(b: bool)
    | NoneLit
    | FloatLit(floatText: string)
    | ComplexLit(complexText: string)
    | BytesLit(bytesText: string)
    | EllipsisLit

  /** `type(value).__name__` */
  function TypeName(v: Literal): string {
    match v
    case IntLit(_) => "int"
    case StrLit(_) => "str"
    case BoolLit(_) => "bool"
    case NoneLit => "NoneType"
    case FloatLit(_) => "float"
    case ComplexLit(_) => "complex"
    case BytesLit(_) => "bytes"
    case EllipsisLit => "ellipsis"
  }

  /** `str(value)`, which is what an f-string prints for it. */
  function Str(v: Literal): string {
    match v
    case IntLit(i) => IntToDecimal(i)
    case StrLit(s) => s
    case BoolLit(b) => if b then "True" else "False"
    case NoneLit => "None"
    case FloatLit(t) => t
    case ComplexLit(t) => t
    case BytesLit(t) => t
    case EllipsisLit => "Ellipsis"
  }

  /**
    Expression nodes. Collection displays keep no elements and a call keeps
    no arguments: the generator never looks at them. A `BinOp` carries the
    `repr` Python prints for each operand object, used when an operand is
    neither a `Name` nor a `Constant` (it contains the object's address).
  */
  datatype Expr =
    | Name(id: string)
    | Constant(literal: Literal)
    | List
    | Dict
    | Set
    | Tuple
    | Call(func: Expr)
    | Subscript(value: Expr, slice: Expr)
    | BinOp(left: Expr, right: Expr, leftRepr: string, rightRepr: string)
    | AttributeAccess(value: Expr, attr: string)  // `ast.Attribute`, as in `mod.Cls`
    | OtherExpr(kind: string)

  /** `type(node).__name__` */
  function ClassName(e: Expr): string {
    match e
    case Name(_) => "Name"
    case Constant(_) => "Constant"
    case List => "List"
    case Dict => "Dict"
    case Set => "Set"
    case Tuple => "Tuple"
    case Call(_) => "Call"
    case Subscript(_, _) => "Subscript"
    case BinOp(_, _, _, _) => "BinOp"
    case AttributeAccess(_, _) => "Attribute"
    case OtherExpr(kind) => kind
  }

  /** One `name as asname` clause of an import. */
  datatype Alias = Alias(name: string, asname: Option<string>)

  /** Statement nodes; `fromModule` is `ImportFrom.module`, `None` for `from . import x`. */
  datatype Stmt =
    | ImportFrom(fromModule: Option<string>, names: seq<Alias>)
    | ClassDef(name: string, bases: seq<Expr>, body: seq<Stmt>)
    | FunctionDef(name: string, body: seq<Stmt>)
    | Assign(targets: seq<Expr>, value: Expr)
    | AnnAssign(target: Expr, annotation: Expr, annValue: Option<Expr>)
    | OtherStmt

  /** `ast.Module`: the top-level statements of one file. */
  datatype Module = Module(body: seq<Stmt>)
}
