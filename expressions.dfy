/**
 * Expression nodes and the builders that desugar surface syntax onto them
 * (src/ast/expresion.py): atomic dispatch, string literals as Cons/Nil
 * chains, curried lambdas, operators as applications of named functions,
 * and sequencing as a let that binds "_".
 */
module Expressions {
  import opened Wrappers
  import opened Nodes
  import opened Lexer

  const ListAppender: string := "Cons"
  const ListEmpty: string := "Nil"
  const BlankVar: string := "_"

  /** The thirteen binary operator symbols and the function name each stands for. */
  const BinaryOperators: map<string, string> :=
    map["||" := "OR", "&&" := "AND", "==" := "EQ", "!=" := "NE",
        ">=" := "GE", "<=" := "LE", ">" := "GT", "<" := "LT",
        "+" := "ADD", "-" := "SUB", "*" := "MUL", "/" := "DIV", "%" := "MOD"]

  /** The two unary operator symbols and their function names. */
  const UnaryOperators: map<string, string> :=
    map["-" := "UMINUS", "!" := "NOT"]

  /** `dict.get`: the name the table gives a symbol, or None when the symbol is not in it. */
  function Lookup(table: map<string, string>, op: string): Scalar
  {
    if op in table then Str(table[op]) else Null
  }

  // ------------------------------------------------------------ node shapes

  /** build_id: an identifier leaf. */
  function BuildId(v: Scalar): Node
  {
    MakeLeaf(Id, v)
  }

  /** LetExpr(var, value, body). */
  function LetExpr(v: string, value: Node, body: Node): Node
  {
    Plain(ExprLet, [BuildId(Str(v)), value, body])
  }

  /** ApplyExpr(func, arg). */
  function ApplyExpr(f: Node, a: Node): Node
  {
    Plain(ExprApply, [f, a])
  }

  /** LambdaExpr(param, body). */
  function LambdaExpr(p: string, body: Node): Node
  {
    Plain(ExprLambda, [BuildId(Str(p)), body])
  }

  /** NumberExpr(value). */
  function NumberExpr(v: Scalar): Node
  {
    MakeLiteral(ExprNumber, v)
  }

  /**
   * VarExpr(name): a literal holding the identifier leaf built from the name.
   * The model keeps that leaf's value, which is what the leaf outputs.
   */
  function VarExpr(v: Scalar): Node
  {
    Literal(ExprVar, ValueOf(BuildId(v)))
  }

  /** ConstructorExpr(name), shaped like VarExpr. */
  function ConstructorExpr(v: Scalar): Node
  {
    Literal(ExprConstructor, ValueOf(BuildId(v)))
  }

  /** CharExpr(c): a literal holding the code point of c. */
  function CharExpr(c: char): Node
  {
    MakeLiteral(ExprChar, Int(c as int))
  }

  predicate IsApply(n: Node)
  {
    n.Plain? && n.kind == ExprApply && |n.children| == 2
  }

  predicate IsLambda(n: Node)
  {
    n.Plain? && n.kind == ExprLambda && |n.children| == 2
  }

  predicate IsLet(n: Node)
  {
    n.Plain? && n.kind == ExprLet && |n.children| == 3
  }

  /** ApplyExpr.func */
  function ApplyFunc(n: Node): (r: Node)
    requires IsApply(n)
    ensures r < n
  {
    n.children[0]
  }

  /** ApplyExpr.arg */
  function ApplyArg(n: Node): (r: Node)
    requires IsApply(n)
    ensures r < n
  {
    n.children[1]
  }

  /** LambdaExpr.param: the value of the identifier leaf. */
  function LambdaParam(n: Node): Scalar
    requires IsLambda(n)
  {
    ValueOf(n.children[0])
  }

  /** LambdaExpr.expr */
  function LambdaBody(n: Node): (r: Node)
    requires IsLambda(n)
    ensures r < n
  {
    n.children[1]
  }

  /** LetExpr.param */
  function LetParam(n: Node): Scalar
    requires IsLet(n)
  {
    ValueOf(n.children[0])
  }

  /** LetExpr.arg */
  function LetArg(n: Node): Node
    requires IsLet(n)
  {
    n.children[1]
  }

  /** LetExpr.expr_in */
  function LetBody(n: Node): Node
    requires IsLet(n)
  {
    n.children[2]
  }

  /** VarExpr.id and ConstructorExpr.id: the name the literal's identifier holds. */
  function LiteralId(n: Node): Scalar
    requires n.Literal?
  {
    n.value
  }

  /** A literal outputs [label, value]; a character stores its code point; a name reads back as given, with "||" read as "OR". */
  lemma LiteralShapes(v: Scalar, c: char, name: string)
    ensures Out(NumberExpr(v)) == OList([OStr("ExprNumber"), ScalarOut(Normalize(v))])
    ensures Out(CharExpr(c)) == OList([OStr("ExprChar"), OInt(c as int)])
    ensures LiteralId(VarExpr(Str(name))) == Str(NormalizeName(name))
    ensures LiteralId(ConstructorExpr(Str(name))) == Str(NormalizeName(name))
    ensures Out(VarExpr(Str(name))) == OList([OStr("ExprVar"), OStr(NormalizeName(name))])
    ensures Out(ConstructorExpr(Str(name))) == OList([OStr("ExprConstructor"), OStr(NormalizeName(name))])
  {
  }

  // ---------------------------------------------------------------- strings

  /** build_string: a right-nested chain Cons(c0, Cons(c1, ... Nil)) over the character codes, first character outermost. */
  function BuildString(s: string): Node
  {
    if s == [] then ConstructorExpr(Str(ListEmpty))
    else ApplyExpr(ApplyExpr(ConstructorExpr(Str(ListAppender)), CharExpr(s[0])), BuildString(s[1..]))
  }

  /** The code points of a string, in order. */
  function Codes(s: string): (r: seq<int>)
    ensures |r| == |s|
  {
    seq(|s|, i requires 0 <= i < |s| => s[i] as int)
  }

  /**
   * Reads back a chain of `Apply(Apply(Constructor "Cons", Char k), rest)`
   * layers ending in `Constructor "Nil"`: the character codes from the
   * outermost layer inwards, or None when the node is not such a chain.
   */
  function ListCodes(n: Node): Option<seq<int>>
  {
    if n == ConstructorExpr(Str(ListEmpty)) then Some([])
    else if IsApply(n) && IsApply(ApplyFunc(n))
      && ApplyFunc(ApplyFunc(n)) == ConstructorExpr(Str(ListAppender))
      && ApplyArg(ApplyFunc(n)).Literal? && ApplyArg(ApplyFunc(n)).kind == ExprChar
      && ApplyArg(ApplyFunc(n)).value.Int?
    then
      match ListCodes(ApplyArg(n))
      case Some(rest) => Some([ApplyArg(ApplyFunc(n)).value.i] + rest)
      case None => None
    else None
  }

  /** A string of length n desugars to exactly n Cons layers over Nil, holding the codes in source order. */
  lemma {:induction false} BuildStringReadsBack(s: string)
    ensures ListCodes(BuildString(s)) == Some(Codes(s))
    ensures s == [] ==> BuildString(s) == ConstructorExpr(Str("Nil"))
  {
    if s != [] {
      BuildStringReadsBack(s[1..]);
      assert Codes(s) == [s[0] as int] + Codes(s[1..]);
    }
  }

  // ---------------------------------------------------------------- lambdas

  /** build_expression: one lambda per parameter, first parameter outermost; no parameters gives the body itself. */
  function BuildExpression(params: seq<string>, e: Node): Node
  {
    if params == [] then e else LambdaExpr(params[0], BuildExpression(params[1..], e))
  }

  /** The values identifier leaves built from these names hold, in order. */
  function IdValues(names: seq<string>): (r: seq<Scalar>)
    ensures |r| == |names|
    ensures forall i :: 0 <= i < |names| ==> r[i] == Str(NormalizeName(names[i]))
  {
    if names == [] then [] else [ValueOf(BuildId(Str(names[0])))] + IdValues(names[1..])
  }

  /** Strips k lambdas off a node: their parameters in order and the body left, or None if fewer than k are there. */
  function PeelLambdas(n: Node, k: nat): Option<(seq<Scalar>, Node)>
    decreases k
  {
    if k == 0 then Some(([], n))
    else if !IsLambda(n) then None
    else
      match PeelLambdas(LambdaBody(n), k - 1)
      case Some((ps, body)) => Some(([LambdaParam(n)] + ps, body))
      case None => None
  }

  /** Peeling as many lambdas as there were parameters gives back the parameters, in order, and the body unchanged. */
  lemma {:induction false} BuildExpressionPeels(params: seq<string>, e: Node)
    ensures PeelLambdas(BuildExpression(params, e), |params|) == Some((IdValues(params), e))
    ensures params == [] ==> BuildExpression(params, e) == e
    ensures params != [] ==> IsLambda(BuildExpression(params, e))
  {
    if params != [] {
      BuildExpressionPeels(params[1..], e);
    }
  }

  // -------------------------------------------------------------- operators

  /** build_binary_expression: Apply(Apply(Var(name), left), right), with the name looked up in the binary table. */
  function BuildBinaryExpression(left: Node, op: string, right: Node): Node
  {
    ApplyExpr(ApplyExpr(VarExpr(Lookup(BinaryOperators, op)), left), right)
  }

  /** build_unary_expression: Apply(Var(name), operand), with the name looked up in the unary table. */
  function BuildUnaryExpression(op: string, right: Node): Node
  {
    ApplyExpr(VarExpr(Lookup(UnaryOperators, op)), right)
  }

  /**
   * A binary expression outputs [ExprApply, [ExprApply, [ExprVar, name], left], right]
   * with the table's name for a table symbol, and null in the name's place for
   * any other symbol.
   */
  lemma BinaryOut(left: Node, op: string, right: Node)
    ensures op in BinaryOperators ==>
      (Out(BuildBinaryExpression(left, op, right)) ==
        OList([OStr("ExprApply"),
               OList([OStr("ExprApply"), OList([OStr("ExprVar"), OStr(BinaryOperators[op])]), Out(left)]),
               Out(right)]))
    ensures op !in BinaryOperators ==>
      (Out(BuildBinaryExpression(left, op, right)) ==
        OList([OStr("ExprApply"),
               OList([OStr("ExprApply"), OList([OStr("ExprVar"), ONull]), Out(left)]),
               Out(right)]))
  {
    var name := Lookup(BinaryOperators, op);
    assert op in BinaryOperators ==> BinaryOperators[op] != "||";
    var inner := ApplyExpr(VarExpr(name), left);
    ChildrenOutShort(VarExpr(name), left, right);
    ChildrenOutShort(inner, right, right);
    assert Out(VarExpr(name)) == OList([OStr("ExprVar"), ScalarOut(name)]);
    assert Out(inner) == OList([OStr("ExprApply"), Out(VarExpr(name)), Out(left)]);
    assert op in BinaryOperators ==> ScalarOut(name) == OStr(BinaryOperators[op]);
    assert op !in BinaryOperators ==> ScalarOut(name) == ONull;
  }

  /** A unary expression outputs [ExprApply, [ExprVar, name], operand], with null for a symbol outside the table. */
  lemma UnaryOut(op: string, right: Node)
    ensures op in UnaryOperators ==>
      (Out(BuildUnaryExpression(op, right)) ==
        OList([OStr("ExprApply"), OList([OStr("ExprVar"), OStr(UnaryOperators[op])]), Out(right)]))
    ensures op !in UnaryOperators ==>
      (Out(BuildUnaryExpression(op, right)) ==
        OList([OStr("ExprApply"), OList([OStr("ExprVar"), ONull]), Out(right)]))
    ensures Out(BuildUnaryExpression("-", right)) == OList([OStr("ExprApply"), OList([OStr("ExprVar"), OStr("UMINUS")]), Out(right)])
    ensures Out(BuildUnaryExpression("!", right)) == OList([OStr("ExprApply"), OList([OStr("ExprVar"), OStr("NOT")]), Out(right)])
  {
    var name := Lookup(UnaryOperators, op);
    assert op in UnaryOperators ==> UnaryOperators[op] != "||";
    ChildrenOutShort(VarExpr(name), right, right);
    ChildrenOutShort(VarExpr(Str("UMINUS")), right, right);
    ChildrenOutShort(VarExpr(Str("NOT")), right, right);
  }

  /** The six two-character binary symbols are pairwise different. */
  lemma TwoCharSymbols()
    ensures |{"||", "&&", "==", "!=", ">=", "<="}| == 6
  {
    var symbols: set<string> := {"||"};
    symbols := symbols + {"&&"}; assert |symbols| == 2;
    symbols := symbols + {"=="}; assert |symbols| == 3;
    symbols := symbols + {"!="}; assert |symbols| == 4;
    symbols := symbols + {">="}; assert |symbols| == 5;
    symbols := symbols + {"<="}; assert |symbols| == 6;
  }

  /** The seven one-character binary symbols are pairwise different. */
  lemma OneCharSymbols()
    ensures |{">", "<", "+", "-", "*", "/", "%"}| == 7
  {
    var symbols: set<string> := {">"};
    symbols := symbols + {"<"}; assert |symbols| == 2;
    symbols := symbols + {"+"}; assert |symbols| == 3;
    symbols := symbols + {"-"}; assert |symbols| == 4;
    symbols := symbols + {"*"}; assert |symbols| == 5;
    symbols := symbols + {"/"}; assert |symbols| == 6;
    symbols := symbols + {"%"}; assert |symbols| == 7;
  }

  /** The binary table has thirteen symbols. */
  lemma BinaryTableSize()
    ensures |BinaryOperators| == 13
  {
    var two: set<string> := {"||", "&&", "==", "!=", ">=", "<="};
    var one: set<string> := {">", "<", "+", "-", "*", "/", "%"};
    TwoCharSymbols();
    OneCharSymbols();
    assert forall s :: s in two ==> |s| == 2;
    assert forall s :: s in one ==> |s| == 1;
    assert two !! one;
    assert |two + one| == 13;
    assert BinaryOperators.Keys == two + one;
  }

  /** Different binary symbols have different names, and "-" is SUB as a binary and UMINUS as a unary operator. */
  lemma OperatorNamesDistinct()
    ensures forall a, b :: a in BinaryOperators && b in BinaryOperators && a != b ==> BinaryOperators[a] != BinaryOperators[b]
    ensures BinaryOperators["-"] == "SUB" && UnaryOperators["-"] == "UMINUS"
  {
  }

  // -------------------------------------------------------------- sequencing

  /** build_seq_let: `e1; e2` becomes a let binding "_" to e1 in e2. */
  function BuildSeqLet(e1: Node, e2: Node): Node
  {
    LetExpr(BlankVar, e1, e2)
  }

  /** A sequencing let binds "_" to the first expression and has the second as its body. */
  lemma SeqLetParts(e1: Node, e2: Node)
    ensures IsLet(BuildSeqLet(e1, e2))
    ensures LetParam(BuildSeqLet(e1, e2)) == Str("_")
    ensures LetArg(BuildSeqLet(e1, e2)) == e1 && LetBody(BuildSeqLet(e1, e2)) == e2
    ensures Out(BuildSeqLet(e1, e2)) == OList([OStr("ExprLet"), OStr("_"), Out(e1), Out(e2)])
  {
    ChildrenOutShort(BuildId(Str(BlankVar)), e1, e2);
  }

  // ---------------------------------------------------------- atomic dispatch

  /** Why an atomic expression could not be built. */
  datatype BuildError =
    | UnknownTokenType(tokenType: TokenType)  // KeyError from the dispatch table
    | NotACharacter(v: Scalar)                // TypeError from ord
    | NotAString(v: Scalar)                   // TypeError from indexing a non-string

  /**
   * build_atomic: the dispatch table over token types. A character token's
   * value must be a one-character string; a string token's value is
   * desugared, where None and 0 count as empty (the falsy test of
   * build_string) and any other integer fails.
   */
  function BuildAtomic(t: TokenType, v: Scalar): Result<Node, BuildError>
  {
    match t
    case LOWERID => Ok(VarExpr(v))
    case UPPERID => Ok(ConstructorExpr(v))
    case NUMBER => Ok(NumberExpr(v))
    case CHAR =>
      if v.Str? && |v.s| == 1 then Ok(CharExpr(v.s[0])) else Err(NotACharacter(v))
    case STRING =>
      (match v
       case Str(s) => Ok(BuildString(s))
       case Null => Ok(BuildString(""))
       case Int(i) => if i == 0 then Ok(BuildString("")) else Err(NotAString(v)))
    case _ => Err(UnknownTokenType(t))
  }

  /** Only the five atomic token types are dispatched; every other type is an error. */
  lemma AtomicDispatch(t: TokenType, v: Scalar)
    ensures t !in {LOWERID, UPPERID, NUMBER, CHAR, STRING} <==> BuildAtomic(t, v) == Err(UnknownTokenType(t))
    ensures t == LOWERID ==> BuildAtomic(t, v) == Ok(VarExpr(v))
    ensures t == UPPERID ==> BuildAtomic(t, v) == Ok(ConstructorExpr(v))
    ensures t == NUMBER ==> BuildAtomic(t, v) == Ok(NumberExpr(v))
  {
  }

  /** Every token the literal and identifier rules produce is accepted by the atomic dispatch, as the matching node. */
  lemma AtomicAcceptsLexerTokens(charGroup: string, stringGroup: string, digits: string, name: string)
    requires IsCharGroup(charGroup) && IsDigits(digits) && name !in Keywords
    ensures var t := CharRule(charGroup);
      BuildAtomic(t.tokenType, t.value) == Ok(CharExpr(t.value.s[0]))
    ensures var t := StringRule(stringGroup);
      BuildAtomic(t.tokenType, t.value) == Ok(BuildString(Unescape(stringGroup)))
    ensures var t := NumberRule(digits);
      BuildAtomic(t.tokenType, t.value) == Ok(NumberExpr(Int(DecimalValue(digits))))
    ensures var t := LowerIdRule(name);
      BuildAtomic(t.tokenType, t.value) == Ok(VarExpr(Str(name)))
    ensures var t := UpperIdRule(name);
      BuildAtomic(t.tokenType, t.value) == Ok(ConstructorExpr(Str(name)))
  {
  }
}
