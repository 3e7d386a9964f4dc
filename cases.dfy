/**
 * Case expressions and their branches (src/ast/casos.py), and the if/else
 * desugaring onto a two-branch case over the constructors True and False.
 */
module Cases {
  import opened Wrappers
  import opened Nodes
  import opened Expressions

  const TrueId: string := "True"
  const FalseId: string := "False"

  /** The identifier leaves for a list of names, in order. */
  function BuildIds(names: seq<string>): (r: seq<Node>)
    ensures |r| == |names|
    ensures forall i :: 0 <= i < |names| ==> r[i] == BuildId(Str(names[i]))
  {
    if names == [] then [] else [BuildId(Str(names[0]))] + BuildIds(names[1..])
  }

  /** The `value` of each node of a list, in order. */
  function Values(ns: seq<Node>): (r: seq<Scalar>)
    ensures |r| == |ns|
    ensures forall i :: 0 <= i < |ns| ==> r[i] == ValueOf(ns[i])
  {
    if ns == [] then [] else [ValueOf(ns[0])] + Values(ns[1..])
  }

  /** CaseBranch(id, params, expr): the constructor name, a Params list of the parameter names, and the body. */
  function CaseBranchNode(id: string, params: seq<string>, e: Node): Node
  {
    Plain(CaseBranch, [BuildId(Str(id)), NodeList(Params, BuildIds(params)), e])
  }

  predicate IsCaseBranch(n: Node)
  {
    n.Plain? && n.kind == CaseBranch && |n.children| == 3
  }

  /** CaseBranch.id */
  function BranchId(n: Node): Scalar
    requires IsCaseBranch(n)
  {
    ValueOf(n.children[0])
  }

  /** CaseBranch.params: the values of the Params list's leaves. */
  function BranchParams(n: Node): seq<Scalar>
    requires IsCaseBranch(n)
  {
    Values(Children(n.children[1]))
  }

  /** CaseBranch.expr */
  function BranchExpr(n: Node): Node
    requires IsCaseBranch(n)
  {
    n.children[2]
  }

  /** The outputs of the parameter names of a branch, in order. */
  function NamesOut(names: seq<string>): (r: seq<Output>)
    ensures |r| == |names|
  {
    seq(|names|, i requires 0 <= i < |names| => OStr(NormalizeName(names[i])))
  }

  /** A branch gives back its name, its parameters in the same order and its body. */
  lemma BranchAccessors(id: string, params: seq<string>, e: Node)
    ensures IsCaseBranch(CaseBranchNode(id, params, e))
    ensures BranchId(CaseBranchNode(id, params, e)) == Str(NormalizeName(id))
    ensures BranchParams(CaseBranchNode(id, params, e)) == IdValues(params)
    ensures BranchExpr(CaseBranchNode(id, params, e)) == e
  {
  }

  /** A branch outputs ["CaseBranch", id, [parameter names], body]. */
  lemma BranchOut(id: string, params: seq<string>, e: Node)
    ensures Out(CaseBranchNode(id, params, e)) ==
      OList([OStr("CaseBranch"), OStr(NormalizeName(id)), OList(NamesOut(params)), Out(e)])
  {
    var ids := BuildIds(params);
    ChildrenOutAt(ids);
    assert ChildrenOut(ids) == NamesOut(params);
    NodeListOut(Params, ids);
    assert Out(NodeList(Params, ids)) == OList(NamesOut(params));
    ChildrenOutShort(BuildId(Str(id)), NodeList(Params, ids), e);
  }

  /** CaseExpr(expr, branches): the scrutinee and a copy of the branch list. */
  function CaseExpr(e: Node, branches: seq<Node>): Node
  {
    Case(e, branches)
  }

  /** CaseExpr.expr: the first child. */
  function CaseScrutinee(n: Node): Node
    requires n.Case?
  {
    Children(n)[0]
  }

  /** CaseExpr.branches: the children after the first. */
  function CaseBranchList(n: Node): seq<Node>
    requires n.Case?
  {
    Children(n)[1..]
  }

  /** A case gives back its scrutinee and its branches in the order given, and outputs them as [ExprCase, scrutinee, [branch, ...]]. */
  lemma CaseParts(e: Node, branches: seq<Node>)
    ensures CaseScrutinee(CaseExpr(e, branches)) == e
    ensures CaseBranchList(CaseExpr(e, branches)) == branches
    ensures Out(CaseExpr(e, branches)).OList? && |Out(CaseExpr(e, branches)).items| == 3
    ensures Out(CaseExpr(e, branches)).items[0] == OStr("ExprCase")
    ensures Out(CaseExpr(e, branches)).items[1] == Out(e)
    ensures Out(CaseExpr(e, branches)).items[2].OList?
    ensures |Out(CaseExpr(e, branches)).items[2].items| == |branches|
    ensures forall i :: 0 <= i < |branches| ==> Out(CaseExpr(e, branches)).items[2].items[i] == Out(branches[i])
  {
    ChildrenOutAt(branches);
  }

  /** build_if: a case over the condition whose first branch is True with the then-part, and whose second branch is the third argument as it is. */
  function BuildIf(c: Node, thenExpr: Node, elseBranch: Node): Node
  {
    CaseExpr(c, [CaseBranchNode(TrueId, [], thenExpr), elseBranch])
  }

  /** build_else: the False branch with no parameters. */
  function BuildElse(e: Node): Node
  {
    CaseBranchNode(FalseId, [], e)
  }

  /** An if has exactly two branches: True with no parameters and the then-part, then the else argument unchanged. */
  lemma IfBranches(c: Node, t: Node, e: Node)
    ensures CaseScrutinee(BuildIf(c, t, e)) == c
    ensures |CaseBranchList(BuildIf(c, t, e))| == 2
    ensures CaseBranchList(BuildIf(c, t, e))[0] == CaseBranchNode("True", [], t)
    ensures CaseBranchList(BuildIf(c, t, e))[1] == e
  {
    CaseParts(c, [CaseBranchNode(TrueId, [], t), e]);
  }

  /** An else branch is the False branch with no parameters around the given body. */
  lemma ElseBranch(e: Node)
    ensures IsCaseBranch(BuildElse(e))
    ensures BranchId(BuildElse(e)) == Str("False")
    ensures BranchParams(BuildElse(e)) == []
    ensures BranchExpr(BuildElse(e)) == e
  {
    BranchAccessors(FalseId, [], e);
  }

  /** `if c then t else e`, built with an else branch, outputs a case over c with the True then the False branch. */
  lemma IfElseOut(c: Node, t: Node, e: Node)
    ensures Out(BuildIf(c, t, BuildElse(e))) ==
      OList([OStr("ExprCase"), Out(c),
             OList([OList([OStr("CaseBranch"), OStr("True"), OList([]), Out(t)]),
                    OList([OStr("CaseBranch"), OStr("False"), OList([]), Out(e)])])])
  {
    var b1, b2 := CaseBranchNode(TrueId, [], t), BuildElse(e);
    BranchOut(TrueId, [], t);
    BranchOut(FalseId, [], e);
    ChildrenOutShort(b1, b2, b2);
  }

  /** CaseBranches(branches): a growable node list of branches. */
  method NewCaseBranches(branches: seq<Node>) returns (cb: MutableNode)
    ensures fresh(cb)
    ensures cb.kind == CaseBranches && cb.isList && cb.children == branches
  {
    cb := new MutableNode(CaseBranches, true, Some(branches));
  }

  /** CaseBranches.append_case: adds the branch at the end and returns the same list. */
  method AppendCase(cb: MutableNode, branch: Node) returns (r: MutableNode)
    modifies cb
    ensures r == cb
    ensures cb.children == old(cb.children) + [branch]
  {
    r := cb.Append(branch);
  }

  /** CaseExpr(expr, branches) given the CaseBranches object: the case holds the list's current branches. */
  method CaseExprOf(e: Node, cb: MutableNode) returns (r: Node)
    ensures r.Case? && CaseScrutinee(r) == e && CaseBranchList(r) == cb.children
  {
    r := CaseExpr(e, cb.children);
  }

  /** A case is unaffected by branches appended to its CaseBranches after it was built. */
  method CaseExprIsSnapshot(e: Node, cb: MutableNode, later: Node) returns (r: Node)
    modifies cb
    ensures r.Case? && CaseBranchList(r) == old(cb.children)
    ensures cb.children == old(cb.children) + [later]
  {
    r := CaseExprOf(e, cb);
    var _ := AppendCase(cb, later);
    CaseParts(e, old(cb.children));
  }
}
