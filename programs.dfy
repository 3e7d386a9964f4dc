/**
 * The top-level container (src/ast/programa.py): a program is a growable
 * node list of definitions, each binding a name to an expression.
 */
module Programs {
  import opened Wrappers
  import opened Nodes
  import opened Expressions

  /** Def(id, expr). */
  function DefNode(id: string, e: Node): Node
  {
    Plain(Def, [BuildId(Str(id)), e])
  }

  predicate IsDef(n: Node)
  {
    n.Plain? && n.kind == Def && |n.children| == 2
  }

  /** Def.id */
  function DefId(n: Node): Scalar
    requires IsDef(n)
  {
    ValueOf(n.children[0])
  }

  /** Def.expr */
  function DefExpr(n: Node): Node
    requires IsDef(n)
  {
    n.children[1]
  }

  /** A definition gives back its name and its expression, and outputs ["Def", name, expression]. */
  lemma DefParts(id: string, e: Node)
    ensures IsDef(DefNode(id, e))
    ensures DefId(DefNode(id, e)) == Str(NormalizeName(id))
    ensures DefExpr(DefNode(id, e)) == e
    ensures Out(DefNode(id, e)) == OList([OStr("Def"), OStr(NormalizeName(id)), Out(e)])
  {
    ChildrenOutShort(BuildId(Str(id)), e, e);
  }

  /** Program(): an empty program, a node list with no definitions. */
  method NewProgram() returns (p: MutableNode)
    ensures fresh(p)
    ensures p.kind == Program && p.isList
    ensures GetDefs(p) == []
    ensures Out(p.Value()) == OList([])
  {
    p := new MutableNode(Program, true, Some([]));
  }

  /** Program.get_defs: the definitions appended so far, in order. */
  function GetDefs(p: MutableNode): seq<Node>
    reads p
  {
    p.children
  }

  /**
   * A program outputs the bare list of its definitions' outputs, with no
   * label: [] when empty, and appending a definition adds its output last.
   */
  lemma ProgramOut(defs: seq<Node>, d: Node)
    ensures Out(NodeList(Program, [])) == OList([])
    ensures Out(NodeList(Program, [d])) == OList([Out(d)])
    ensures Out(NodeList(Program, defs + [d])) == OList(Out(NodeList(Program, defs)).items + [Out(d)])
  {
    ChildrenOutShort(d, d, d);
    AppendOut(Program, defs, d);
  }
}
