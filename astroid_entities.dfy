/**
  `generator/entities.py`: the astroid generator's view of one class
  attribute and one method. Both `Attribute` properties swallow every
  exception and give "" instead (`default_return`); a property whose match
  has no case for the node gives Python's `None`. Reading the type label of
  an instance attribute declared by an annotated assignment replaces the
  attribute's node with that assignment, which is why `Attribute` is a class.
*/
module AstroidEntities {
  import opened Wrappers
  import opened Text
  import opened FileSystem
  import opened AstroidNodes

  /** `default_return(default_value=d)`: the value, or `d` when the body raised. */
  function DefaultReturn<T>(r: Result<T, Error>, d: T): (v: T)
    ensures r.Ok? ==> v == r.value
    ensures r.Err? ==> v == d
  {
    match r
    case Ok(x) => x
    case Err(_) => d
  }

  /** How an f-string prints a property value: a string as is, `None` as "None". */
  function PyText(v: Option<string>): string {
    match v
    case Some(s) => s
    case None => "None"
  }

  /** `e.name`, raising where the node has none. */
  function NameAttr(e: Expr): Result<string, Error> {
    match NameOf(e)
    case Some(n) => Ok(n)
    case None => Err(AttributeError("name"))
  }

  /** The body of the `name` property, before `default_return`. */
  function RawName(n: AttrNode): Result<Option<string>, Error> {
    match n
    case StmtNode(Assign(targets, _)) =>
      if targets == [] then Err(IndexError)
      else var name :- NameAttr(targets[0]); Ok(Some(name))
    case StmtNode(AnnAssign(target, _, _)) =>
      var name :- NameAttr(target); Ok(Some(name))
    case AssignAttr(attrname, _) => Ok(Some(attrname))
    case StmtNode(_) => Ok(None)
  }

  /** The `name` property of an attribute whose node is `n`. */
  function AttributeName(n: AttrNode): Option<string> {
    DefaultReturn(RawName(n), Some(""))
  }

  /**
    `_extract_type_from_Assign_node`. Its first test asks whether the value
    is an instance of the standard library's `_ast.Constant`, which no
    astroid node is, so a literal value falls through to "".
  */
  function ExtractTypeFromAssign(s: Stmt): Result<string, Error>
    requires s.Assign?
  {
    var value := s.value;
    if value.List? || value.Dict? || value.Set? || value.Tuple? then Ok(Lower(CollectionKind(value)))
    else if value.Call? then NameAttr(value.func)
    else Ok("")
  }

  /** `name` or `name[P1, P2]` for an inferred class with type parameters. */
  function ClassLabel(name: string, typeParams: seq<string>): string {
    if typeParams == [] then name else name + "[" + Join(typeParams, ", ") + "]"
  }

  /** `_extract_type_from_AnnAssign_node` */
  function ExtractTypeFromAnnAssign(s: Stmt): Result<string, Error>
    requires s.AnnAssign?
  {
    var annotation := s.annotation;
    match annotation.expr
    case Name(id) => Ok(id)
    case Subscript(_, _) => Ok(annotation.text)
    case BinOp(_, _) => Ok(annotation.text)
    case _ =>
      var inferred :- Infer(annotation);
      if inferred.Some? && inferred.value.ClassNode? then
        Ok(ClassLabel(inferred.value.className, inferred.value.typeParams))
      else Ok("")
  }

  /** The new node after the type label of `n` has been read. */
  function AfterTypeAnnotation(n: AttrNode): AttrNode {
    if n.AssignAttr? && n.parent.AnnAssign? then StmtNode(n.parent) else n
  }

  /** The body of the `type_annotation` property, before `default_return`. */
  function RawTypeAnnotation(n: AttrNode): Result<Option<string>, Error> {
    match n
    case StmtNode(s) =>
      if s.Assign? then var t :- ExtractTypeFromAssign(s); Ok(Some(t))
      else if s.AnnAssign? then var t :- ExtractTypeFromAnnAssign(s); Ok(Some(t))
      else Ok(None)
    case AssignAttr(_, parent) =>
      if parent.AnnAssign? then var t :- ExtractTypeFromAnnAssign(parent); Ok(Some(t))
      else Ok(Some(""))
  }

  /** The `type_annotation` property of an attribute whose node is `n`. */
  function TypeLabel(n: AttrNode): Option<string> {
    DefaultReturn(RawTypeAnnotation(n), Some(""))
  }

  /** A class attribute: a class-body assignment or an instance attribute. */
  class Attribute {
    var node: AttrNode

    constructor (node: AttrNode)
      ensures this.node == node
    {
      this.node := node;
    }

    /** The `name` property. */
    function Name(): (r: Option<string>)
      reads this
      ensures r == AttributeName(node)
    {
      match node
      case StmtNode(Assign(targets, _)) =>
        if targets == [] then Some("") else Some(DefaultReturn(NameAttr(targets[0]), ""))
      case StmtNode(AnnAssign(target, _, _)) => Some(DefaultReturn(NameAttr(target), ""))
      case AssignAttr(attrname, _) => Some(attrname)
      case StmtNode(_) => None
    }

    /**
      The `type_annotation` property. An `AssignAttr` whose statement is an
      annotated assignment first becomes that statement, then is labelled
      by its annotation.
    */
    method TypeAnnotation() returns (typeLabel: Option<string>)
      modifies this
      ensures typeLabel == TypeLabel(old(node))
      ensures node == AfterTypeAnnotation(old(node))
    {
      match node
      case StmtNode(s) =>
        if s.Assign? {
          typeLabel := Some(DefaultReturn(ExtractTypeFromAssign(s), ""));
        } else if s.AnnAssign? {
          typeLabel := Some(DefaultReturn(ExtractTypeFromAnnAssign(s), ""));
        } else {
          typeLabel := None;
        }
      case AssignAttr(_, parent) =>
        if parent.AnnAssign? {
          node := StmtNode(parent);
          typeLabel := Some(DefaultReturn(ExtractTypeFromAnnAssign(parent), ""));
        } else {
          typeLabel := Some("");
        }
    }
  }

  /** The nodes a `Function` is made from. */
  type FunctionNode = s: Stmt | s.FunctionDef? witness FunctionDef("", [])

  /** A method: a `FunctionDef` node of a class body. */
  datatype Function = Function(node: FunctionNode) {
    /** The `name` property. */
    function Name(): string {
      node.name
    }
  }

  // Properties of the labels.

  /** A property gives `None` exactly for a node kind its match has no case for. */
  lemma NoneExactlyForOtherNodes(n: AttrNode)
    ensures AttributeName(n).None? <==> n.StmtNode? && !n.stmt.Assign? && !n.stmt.AnnAssign?
    ensures TypeLabel(n).None? <==> n.StmtNode? && !n.stmt.Assign? && !n.stmt.AnnAssign?
  {
  }

  /**
    The name is the first target's name, the annotated target's name or the
    instance attribute's name; where that name cannot be read the result
    is "".
  */
  lemma NameCases(n: AttrNode)
    ensures n.StmtNode? && n.stmt.Assign? && n.stmt.targets != [] && NameOf(n.stmt.targets[0]).Some? ==>
      AttributeName(n) == NameOf(n.stmt.targets[0])
    ensures n.StmtNode? && n.stmt.Assign? && (n.stmt.targets == [] || NameOf(n.stmt.targets[0]).None?) ==>
      AttributeName(n) == Some("")
    ensures n.StmtNode? && n.stmt.AnnAssign? ==>
      AttributeName(n) == Some(NameOf(n.stmt.target).GetOr(""))
    ensures n.AssignAttr? ==> AttributeName(n) == Some(n.attrname)
  {
  }

  /**
    An unpacking target is named through its builtin class: the attribute
    of `a, b = 1, 2` is named "tuple" and that of `[a, b] = 1, 2` "list".
  */
  lemma UnpackingTargetNamed(rest: seq<Expr>, value: Expr)
    ensures AttributeName(StmtNode(Assign([Tuple] + rest, value))) == Some("tuple")
    ensures AttributeName(StmtNode(Assign([List] + rest, value))) == Some("list")
  {
  }

  /** A literal value is not labelled: the test is against the standard library's node class. */
  lemma ConstantUnlabelled(targets: seq<Expr>, typeName: string)
    ensures TypeLabel(StmtNode(Assign(targets, Const(typeName)))) == Some("")
  {
  }

  /** A collection display is labelled with its lower-cased node class name. */
  lemma CollectionLabels(targets: seq<Expr>)
    ensures TypeLabel(StmtNode(Assign(targets, List))) == Some("list")
    ensures TypeLabel(StmtNode(Assign(targets, Dict))) == Some("dict")
    ensures TypeLabel(StmtNode(Assign(targets, Set))) == Some("set")
    ensures TypeLabel(StmtNode(Assign(targets, Tuple))) == Some("tuple")
  {
    LowerCollectionNames();
  }

  /** A call is labelled with its callee's name; a callee without one (`mod.Cls()`) gives "". */
  lemma CallLabel(targets: seq<Expr>, func: Expr)
    ensures TypeLabel(StmtNode(Assign(targets, Call(func)))) == Some(NameOf(func).GetOr(""))
  {
  }

  /** A bare-name annotation is the label; a parametrised or union annotation is labelled by its full text. */
  lemma AnnotationTextLabels(target: Expr, annotation: ExprNode, value: Option<Expr>)
    ensures annotation.expr.Name? ==>
      TypeLabel(StmtNode(AnnAssign(target, annotation, value))) == Some(annotation.expr.id)
    ensures annotation.expr.Subscript? || annotation.expr.BinOp? ==>
      TypeLabel(StmtNode(AnnAssign(target, annotation, value))) == Some(annotation.text)
  {
  }

  /**
    Any other annotation is labelled through inference: an inferred class by
    its name, followed by its type parameters in brackets if it has any;
    anything else, and a failed inference, gives "".
  */
  lemma InferredAnnotationLabel(target: Expr, annotation: ExprNode, value: Option<Expr>)
    requires !annotation.expr.Name? && !annotation.expr.Subscript? && !annotation.expr.BinOp?
    ensures annotation.inference.Inferred? && annotation.inference.first.ClassNode? ==>
      TypeLabel(StmtNode(AnnAssign(target, annotation, value)))
        == Some(ClassLabel(annotation.inference.first.className, annotation.inference.first.typeParams))
    ensures !(annotation.inference.Inferred? && annotation.inference.first.ClassNode?) ==>
      TypeLabel(StmtNode(AnnAssign(target, annotation, value))) == Some("")
  {
  }

  /** The bracketed label lists the type parameters, comma-separated. */
  lemma ClassLabelParams(name: string, p: string, q: string)
    ensures ClassLabel(name, []) == name
    ensures ClassLabel(name, [p]) == name + "[" + p + "]"
    ensures ClassLabel(name, [p, q]) == name + "[" + p + ", " + q + "]"
  {
    assert Join([p, q], ", ") == p + ", " + q by {
      assert [p, q][1..] == [q];
    }
  }

  /**
    An instance attribute declared by an annotated assignment is labelled
    like that assignment; any other instance attribute gives "".
  */
  lemma InstanceAttributeLabel(attrname: string, parent: Stmt)
    ensures parent.AnnAssign? ==> TypeLabel(AssignAttr(attrname, parent)) == TypeLabel(StmtNode(parent))
    ensures !parent.AnnAssign? ==> TypeLabel(AssignAttr(attrname, parent)) == Some("")
  {
  }

  /**
    After its type label of `self.a: int = a` is read, the attribute's node
    is the annotated assignment, whose target `self.a` has no `name`: a
    second read of `name` gives "" where the first gave "a".
  */
  lemma NameAfterTypeAnnotation(owner: Expr, attrname: string, annotation: ExprNode, value: Option<Expr>)
    ensures var n := AssignAttr(attrname, AnnAssign(AttributeNode(owner, attrname), annotation, value));
      AttributeName(n) == Some(attrname) && AttributeName(AfterTypeAnnotation(n)) == Some("")
  {
  }

  /** Reading the type label changes the node only for an instance attribute under an annotated assignment. */
  lemma TypeAnnotationChangesOnlyInstanceAttributes(n: AttrNode)
    ensures AfterTypeAnnotation(n) != n <==> n.AssignAttr? && n.parent.AnnAssign?
    ensures TypeLabel(AfterTypeAnnotation(n)) == TypeLabel(n)
  {
  }
}
