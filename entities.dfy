/**
  `entities.py`: the stdlib generator's view of one class attribute and one
  method. Every property reads the wrapped node; nothing is cached or
  changed. An attribute read the node lacks raises, and nothing catches it:
  such reads are `Err` results here.
*/
module Entities {
  import opened Wrappers
  import opened Text
  import opened PyAst
  import opened FileSystem

  /** `node.id`, which only a `Name` has. */
  function IdOf(e: Expr): (r: Result<string, Error>)
    ensures r.Ok? <==> e.Name?
    ensures e.Name? ==> r.value == e.id
  {
    match e
    case Name(id) => Ok(id)
    case _ => Err(AttributeError("id"))
  }

  /**
    How one operand of a union annotation is printed: a `Name` by its id, a
    `Constant` by its value, any other node by its object `repr`.
  */
  function OperandText(operand: Expr, objectRepr: string): string {
    match operand
    case Name(id) => id
    case Constant(v) => Str(v)
    case _ => objectRepr
  }

  /** A class attribute: an `Assign` or `AnnAssign` node of a class body. */
  datatype Attribute = Attribute(node: Stmt) {

    /** The `name` property. */
    function Name(): Result<string, Error> {
      match node
      case Assign(targets, _) => if targets == [] then Err(IndexError) else IdOf(targets[0])
      case AnnAssign(target, _, _) => IdOf(target)
      case _ => Ok("")
    }

    /** The `type_annotation` property. */
    function TypeAnnotation(): Result<string, Error> {
      match node
      case Assign(_, _) => ExtractTypeFromAssign()
      case AnnAssign(_, _, _) => Ok(ExtractTypeFromAnnAssign())
      case _ => Ok("")
    }

    /** `_extract_type_from_Assign_node`: label an unannotated assignment by its value. */
    function ExtractTypeFromAssign(): Result<string, Error>
      requires node.Assign?
    {
      var value := node.value;
      if value.Constant? then Ok(TypeName(value.literal))
      else if value.List? || value.Dict? || value.Set? || value.Tuple? then Ok(Lower(ClassName(value)))
      else if value.Call? then IdOf(value.func)
      else Ok("")
    }

    /** `_extract_type_from_AnnAssign_node`: label an annotated assignment by its annotation. */
    function ExtractTypeFromAnnAssign(): string
      requires node.AnnAssign?
    {
      var annotation := node.annotation;
      match annotation
      case Subscript(outer, _) =>
        var fromValue := if node.annValue.Some? && node.annValue.value.Name? then node.annValue.value.id else "";
        if outer.Name? then outer.id else fromValue
      case Name(id) => id
      case BinOp(left, right, leftRepr, rightRepr) =>
        OperandText(left, leftRepr) + " | " + OperandText(right, rightRepr)
      case _ => ""
    }
  }

  /** The nodes a `Function` is made from. */
  type FunctionNode = s: Stmt | s.FunctionDef? witness FunctionDef("", [])

  /** A method: a `FunctionDef` node of a class body. */
  datatype Function = Function(node: FunctionNode) {
    /** The `name` property. */
    function Name(): string {
      node.name
    }
  }

  // Properties of the type labels.

  /** A literal value is labelled with the name of its Python type. */
  lemma ConstantLabel(targets: seq<Expr>, v: Literal)
    ensures Attribute(Assign(targets, Constant(v))).TypeAnnotation() == Ok(TypeName(v))
    ensures v.IntLit? ==> TypeName(v) == "int"
    ensures v.StrLit? ==> TypeName(v) == "str"
    ensures v.BoolLit? ==> TypeName(v) == "bool"
    ensures v.NoneLit? ==> TypeName(v) == "NoneType"
    ensures v.FloatLit? ==> TypeName(v) == "float"
  {
  }

  /** A collection display is labelled with its lower-cased node class name. */
  lemma CollectionLabels(targets: seq<Expr>)
    ensures Attribute(Assign(targets, List)).TypeAnnotation() == Ok("list")
    ensures Attribute(Assign(targets, Dict)).TypeAnnotation() == Ok("dict")
    ensures Attribute(Assign(targets, Set)).TypeAnnotation() == Ok("set")
    ensures Attribute(Assign(targets, Tuple)).TypeAnnotation() == Ok("tuple")
  {
    LowerCollectionNames();
  }

  /**
    A call is labelled with its callee's id; a callee that is not a bare name
    (`mod.Cls()`, `f()()`) has no id and the label raises.
  */
  lemma CallLabel(targets: seq<Expr>, func: Expr)
    ensures func.Name? ==> Attribute(Assign(targets, Call(func))).TypeAnnotation() == Ok(func.id)
    ensures !func.Name? ==> Attribute(Assign(targets, Call(func))).TypeAnnotation().Err?
  {
  }

  /** Labelling raises exactly for a call whose callee is not a bare name. */
  lemma TypeAnnotationRaisesExactly(a: Attribute)
    ensures a.TypeAnnotation().Err? <==>
      a.node.Assign? && a.node.value.Call? && !a.node.value.func.Name?
  {
  }

  /** Every other value shape of an unannotated assignment is labelled "". */
  lemma OtherValuesUnlabelled(targets: seq<Expr>, value: Expr)
    requires value.Name? || value.Subscript? || value.BinOp? || value.AttributeAccess? || value.OtherExpr?
    ensures Attribute(Assign(targets, value)).TypeAnnotation() == Ok("")
  {
  }

  /** A bare-name annotation is the label, verbatim. */
  lemma NameAnnotationLabel(target: Expr, id: string, value: Option<Expr>)
    ensures Attribute(AnnAssign(target, Name(id), value)).TypeAnnotation() == Ok(id)
  {
  }

  /**
    A parametrised annotation gives its outer name only (`dict[str, Any]` is
    "dict"); if the outer part is not a bare name, an assigned bare name is
    used instead, and otherwise the label is "".
  */
  lemma SubscriptAnnotationLabel(target: Expr, outer: Expr, params: Expr, value: Option<Expr>)
    ensures outer.Name? ==>
      Attribute(AnnAssign(target, Subscript(outer, params), value)).TypeAnnotation() == Ok(outer.id)
    ensures !outer.Name? && value.Some? && value.value.Name? ==>
      Attribute(AnnAssign(target, Subscript(outer, params), value)).TypeAnnotation() == Ok(value.value.id)
    ensures !outer.Name? && !(value.Some? && value.value.Name?) ==>
      Attribute(AnnAssign(target, Subscript(outer, params), value)).TypeAnnotation() == Ok("")
  {
    var a := Attribute(AnnAssign(target, Subscript(outer, params), value));
    assert a.TypeAnnotation() == Ok(a.ExtractTypeFromAnnAssign());
  }

  /**
    A union annotation is printed from the two direct operands of its top
    `BinOp` only: in `A | B | C` the left operand is itself a `BinOp` and is
    printed as an object repr.
  */
  lemma UnionAnnotationLabel(target: Expr, a: string, b: string, value: Option<Expr>, r1: string, r2: string)
    ensures Attribute(AnnAssign(target, BinOp(Name(a), Name(b), r1, r2), value)).TypeAnnotation()
      == Ok(a + " | " + b)
    ensures Attribute(AnnAssign(target, BinOp(Name(a), Constant(NoneLit), r1, r2), value)).TypeAnnotation()
      == Ok(a + " | None")
  {
    assert Str(NoneLit) == "None";
    assert a + " | " + "None" == a + " | None";
  }

  lemma ThreeTermUnionLabel(target: Expr, inner: Expr, c: string, value: Option<Expr>, r1: string, r2: string)
    requires inner.BinOp?
    ensures Attribute(AnnAssign(target, BinOp(inner, Name(c), r1, r2), value)).TypeAnnotation()
      == Ok(r1 + " | " + c)
  {
  }

  /** Annotations of any other shape are labelled "". */
  lemma OtherAnnotationsUnlabelled(target: Expr, annotation: Expr, value: Option<Expr>)
    requires !annotation.Name? && !annotation.Subscript? && !annotation.BinOp?
    ensures Attribute(AnnAssign(target, annotation, value)).TypeAnnotation() == Ok("")
  {
  }

  /** Nodes other than assignments have the empty name and the empty label. */
  lemma OtherNodesEmpty(a: Attribute)
    requires !a.node.Assign? && !a.node.AnnAssign?
    ensures a.Name() == Ok("") && a.TypeAnnotation() == Ok("")
  {
  }

  /**
    The name is the first target's id or the annotated target's id; reading
    it raises exactly when that target is not a bare name (or there is none).
  */
  lemma NameRaisesExactly(a: Attribute)
    ensures a.Name().Err? <==>
      (a.node.Assign? && (a.node.targets == [] || !a.node.targets[0].Name?))
      || (a.node.AnnAssign? && !a.node.target.Name?)
    ensures a.node.Assign? && a.node.targets != [] && a.node.targets[0].Name? ==>
      a.Name() == Ok(a.node.targets[0].id)
    ensures a.node.AnnAssign? && a.node.target.Name? ==> a.Name() == Ok(a.node.target.id)
  {
  }
}
