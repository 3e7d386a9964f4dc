/**
 * The tagged tree every builder produces and its canonical output
 * (src/ast/nodos.py). A tree node is a value; the one operation that changes
 * a node in place, `append`, is modelled by the class MutableNode.
 */
module Nodes {
  import opened Wrappers

  /** The node kinds the builders use (the AstLabel enumeration). */
  datatype Label =
    | Program | Def | Id
    | ExprVar | ExprConstructor | ExprNumber | ExprChar
    | ExprApply | ExprLambda | ExprLet | ExprCase
    | CaseBranch | Params | CaseBranches

  /** The text a label is serialised as. */
  function LabelName(l: Label): string
  {
    match l
    case Program => "Program"
    case Def => "Def"
    case Id => "Id"
    case ExprVar => "ExprVar"
    case ExprConstructor => "ExprConstructor"
    case ExprNumber => "ExprNumber"
    case ExprChar => "ExprChar"
    case ExprApply => "ExprApply"
    case ExprLambda => "ExprLambda"
    case ExprLet => "ExprLet"
    case ExprCase => "ExprCase"
    case CaseBranch => "CaseBranch"
    case Params => "Params"
    case CaseBranches => "CaseBranches"
  }

  /** A scalar a leaf can hold: an integer, a string, or None. */
  datatype Scalar = Int(i: int) | Str(s: string) | Null

  /** The value `_out` returns: an int, a string, null, or a list of outputs. */
  datatype Output = OInt(i: int) | OStr(s: string) | ONull | OList(items: seq<Output>)

  /**
   * A tree node, one constructor per output shape of the source's classes:
   *   Plain    - AstNode and every subclass that keeps its `_out`
   *              (ApplyExpr, LambdaExpr, LetExpr, CaseBranch, Def);
   *   Leaf     - AstLeaf (identifiers built by `build_id`);
   *   Literal  - LiteralExpr (variables, constructors, numbers, characters);
   *   NodeList - AstNodeList (Params, CaseBranches, Program);
   *   Case     - CaseExpr, whose children are the scrutinee then the branches.
   */
  datatype Node =
    | Plain(kind: Label, children: seq<Node>)
    | Leaf(kind: Label, value: Scalar)
    | Literal(kind: Label, value: Scalar)
    | NodeList(kind: Label, children: seq<Node>)
    | Case(scrutinee: Node, branches: seq<Node>)

  /** The one rewrite a leaf applies to the value it stores: the text "||" is kept as "OR". */
  function Normalize(v: Scalar): (r: Scalar)
    ensures r != Str("||")
    ensures v != Str("||") ==> r == v
    ensures v == Str("||") ==> r == Str("OR")
  {
    if v == Str("||") then Str("OR") else v
  }

  /** The name an identifier leaf built from `s` holds. */
  function NormalizeName(s: string): (r: string)
    ensures Normalize(Str(s)) == Str(r)
  {
    if s == "||" then "OR" else s
  }

  /** AstLeaf(label, value): a childless node holding the normalised value. */
  function MakeLeaf(kind: Label, v: Scalar): Node
  {
    Leaf(kind, Normalize(v))
  }

  /** LiteralExpr(label, value): a leaf whose output also carries its label. */
  function MakeLiteral(kind: Label, v: Scalar): Node
  {
    Literal(kind, Normalize(v))
  }

  /** The `children` attribute of a node; a leaf's is the empty list it was built with. */
  function Children(n: Node): seq<Node>
  {
    match n
    case Plain(_, cs) => cs
    case Leaf(_, _) => []
    case Literal(_, _) => []
    case NodeList(_, cs) => cs
    case Case(e, bs) => [e] + bs
  }

  /** The `value` attribute of a node; nodes that are not leaves hold None. */
  function ValueOf(n: Node): Scalar
  {
    match n
    case Leaf(_, v) => v
    case Literal(_, v) => v
    case _ => Null
  }

  function ScalarOut(v: Scalar): Output
  {
    match v
    case Int(i) => OInt(i)
    case Str(s) => OStr(s)
    case Null => ONull
  }

  /** `_out`: each node kind's own output shape. */
  function Out(n: Node): Output
  {
    match n
    case Plain(l, cs) => OList([OStr(LabelName(l))] + ChildrenOut(cs))
    case Leaf(_, v) => ScalarOut(v)
    case Literal(l, v) => OList([OStr(LabelName(l)), ScalarOut(v)])
    case NodeList(_, cs) => OList(if cs != [] then ChildrenOut(cs) else [])
    case Case(e, bs) => OList([OStr(LabelName(ExprCase)), Out(e), OList(ChildrenOut(bs))])
  }

  /** `_children_out`: the outputs of the children, in order. */
  function ChildrenOut(cs: seq<Node>): seq<Output>
  {
    if cs == [] then [] else [Out(cs[0])] + ChildrenOut(cs[1..])
  }

  /** `__eq__`: two nodes are equal when their outputs are equal. */
  predicate Equal(a: Node, b: Node)
  {
    Out(a) == Out(b)
  }

  /** `_children_out` keeps one output per child, each in its child's position. */
  lemma {:induction false} ChildrenOutAt(cs: seq<Node>)
    ensures |ChildrenOut(cs)| == |cs|
    ensures forall i :: 0 <= i < |cs| ==> ChildrenOut(cs)[i] == Out(cs[i])
  {
    if cs != [] {
      ChildrenOutAt(cs[1..]);
      assert forall i :: 1 <= i < |cs| ==> cs[i] == cs[1..][i - 1];
    }
  }

  /** The output of an appended child goes after the outputs of the earlier children. */
  lemma {:induction false} ChildrenOutAppend(cs: seq<Node>, c: Node)
    ensures ChildrenOut(cs + [c]) == ChildrenOut(cs) + [Out(c)]
  {
    if cs == [] {
      assert cs + [c] == [c];
    } else {
      assert (cs + [c])[1..] == cs[1..] + [c];
      ChildrenOutAppend(cs[1..], c);
    }
  }

  /** The outputs of one, two or three children, as a plain node or a let holds them. */
  lemma ChildrenOutShort(a: Node, b: Node, c: Node)
    ensures ChildrenOut([a]) == [Out(a)]
    ensures ChildrenOut([a, b]) == [Out(a), Out(b)]
    ensures ChildrenOut([a, b, c]) == [Out(a), Out(b), Out(c)]
  {
    assert [a, b][1..] == [b];
    assert [b, c][1..] == [c];
    assert ChildrenOut([c]) == [Out(c)];
    assert ChildrenOut([b, c]) == [Out(b)] + ChildrenOut([c]);
    assert [a, b, c][1..] == [b, c];
  }

  /** A plain node outputs its label followed by the outputs of its children, in order. */
  lemma PlainOut(k: Label, cs: seq<Node>)
    ensures Out(Plain(k, cs)).OList?
    ensures |Out(Plain(k, cs)).items| == |cs| + 1
    ensures Out(Plain(k, cs)).items[0] == OStr(LabelName(k))
    ensures forall i :: 0 <= i < |cs| ==> Out(Plain(k, cs)).items[i + 1] == Out(cs[i])
  {
    var items := [OStr(LabelName(k))] + ChildrenOut(cs);
    assert Out(Plain(k, cs)) == OList(items);
    ChildrenOutAt(cs);
    assert forall i :: 0 <= i < |cs| ==> items[i + 1] == ChildrenOut(cs)[i];
  }

  /** A node list outputs the outputs of its children with no label; an empty one outputs []. */
  lemma NodeListOut(k: Label, cs: seq<Node>)
    ensures Out(NodeList(k, cs)).OList?
    ensures |Out(NodeList(k, cs)).items| == |cs|
    ensures forall i :: 0 <= i < |cs| ==> Out(NodeList(k, cs)).items[i] == Out(cs[i])
    ensures cs == [] ==> Out(NodeList(k, cs)) == OList([])
  {
    ChildrenOutAt(cs);
  }

  /** A leaf has no children and outputs exactly the value it stores, with "||" stored as "OR". */
  lemma LeafOut(k: Label, v: Scalar)
    ensures Children(MakeLeaf(k, v)) == []
    ensures Out(MakeLeaf(k, v)) == ScalarOut(ValueOf(MakeLeaf(k, v)))
    ensures v == Str("||") ==> Out(MakeLeaf(k, v)) == OStr("OR")
    ensures v != Str("||") ==> Out(MakeLeaf(k, v)) == ScalarOut(v)
  {
  }

  /** A literal outputs [label, value], with "||" stored as "OR". */
  lemma LiteralOut(k: Label, v: Scalar)
    ensures Children(MakeLiteral(k, v)) == []
    ensures Out(MakeLiteral(k, v)) == OList([OStr(LabelName(k)), ScalarOut(ValueOf(MakeLiteral(k, v)))])
    ensures v == Str("||") ==> ValueOf(MakeLiteral(k, v)) == Str("OR")
    ensures v != Str("||") ==> ValueOf(MakeLiteral(k, v)) == v
  {
  }

  /** Appending a child to a plain node or a node list adds its output at the end. */
  lemma {:induction false} AppendOut(k: Label, cs: seq<Node>, c: Node)
    ensures Out(Plain(k, cs + [c])) == OList(Out(Plain(k, cs)).items + [Out(c)])
    ensures Out(NodeList(k, cs + [c])) == OList(Out(NodeList(k, cs)).items + [Out(c)])
  {
    ChildrenOutAppend(cs, c);
  }

  /** Node equality is an equivalence. */
  lemma EqualIsEquivalence(a: Node, b: Node, c: Node)
    ensures Equal(a, a)
    ensures Equal(a, b) ==> Equal(b, a)
    ensures Equal(a, b) && Equal(b, c) ==> Equal(a, c)
  {
  }

  /** Equality looks only at outputs: any two empty node lists are equal, whatever their labels. */
  lemma EmptyNodeListsEqual(k1: Label, k2: Label)
    ensures Equal(NodeList(k1, []), NodeList(k2, []))
  {
  }

  /**
   * AstNode with its in-place `append`. Only list nodes (a Program, a
   * CaseBranches) are grown this way; `Value` is the tree node it stands for.
   */
  class MutableNode {
    const kind: Label
    const isList: bool
    var children: seq<Node>

    /** AstNode(label, children) or AstNodeList(label, nodes); omitted children mean []. */
    constructor (kind: Label, isList: bool, children: Option<seq<Node>>)
      ensures this.kind == kind && this.isList == isList
      ensures children.None? ==> this.children == []
      ensures children.Some? ==> this.children == children.value
    {
      this.kind := kind;
      this.isList := isList;
      this.children := if children.Some? then children.value else [];
    }

    /** Adds `child` after the existing children and returns the same node. */
    method Append(child: Node) returns (self: MutableNode)
      modifies this
      ensures self == this
      ensures children == old(children) + [child]
      ensures |children| == |old(children)| + 1 && children[|children| - 1] == child
      ensures forall i :: 0 <= i < |old(children)| ==> children[i] == old(children)[i]
    {
      children := children + [child];
      self := this;
    }

    /** The tree node this object currently stands for. */
    function Value(): (n: Node)
      reads this
      ensures !n.Case? && n.kind == kind && Children(n) == children
      ensures isList <==> n.NodeList?
    {
      if isList then NodeList(kind, children) else Plain(kind, children)
    }
  }
}
