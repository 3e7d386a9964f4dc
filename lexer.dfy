/**
 * The rule bodies of the tokenizer (src/lexer.py): escape decoding for
 * character and string literals, keyword classification, decimal numbers,
 * line counting and the skip-one-character error policy. Matching the input
 * against the rules' patterns is the lexer engine's job and is not modelled;
 * each rule body is given the text its pattern matched.
 */
module Lexer {
  import opened Wrappers
  import opened Nodes

  /** The token types the tokenizer declares. */
  datatype TokenType =
    | LOWERID | UPPERID | NUMBER | CHAR | STRING
    | DEFEQ | SEMICOLON | LPAREN | RPAREN | LAMBDA | PIPE | ARROW
    | AND | OR | NOT | EQ | NE | GE | LE | GT | LT
    | PLUS | MINUS | TIMES | DIV | MOD
    | DEF | IF | THEN | ELIF | ELSE | CASE | LET | IN

  /** A token: its type and its decoded value (an int or a string). */
  datatype Token = Token(tokenType: TokenType, value: Scalar)

  /** The eight reserved words and the token type each one gets. */
  const Keywords: map<string, TokenType> :=
    map["def" := DEF, "if" := IF, "then" := THEN, "elif" := ELIF,
        "else" := ELSE, "case" := CASE, "let" := LET, "in" := IN]

  /** The six escape pairs and the character each one stands for. */
  const EscChars: map<string, char> :=
    map["\\n" := '\n', "\\r" := '\r', "\\t" := '\t',
        "\\\\" := '\\', "\\\"" := '"', "\\'" := '\'']

  // ---------------------------------------------------------------- escapes

  /** A character that may follow a backslash in an escape: n, t, r, \, ' or ". */
  predicate IsEscapeLetter(c: char)
  {
    c == 'n' || c == 't' || c == 'r' || c == '\\' || c == '\'' || c == '"'
  }

  /** Text matched by the escape pattern: a backslash and an escape letter. */
  predicate IsEscapePair(p: string)
  {
    |p| == 2 && p[0] == '\\' && IsEscapeLetter(p[1])
  }

  /** The escape pattern matches exactly the keys of the escape table. */
  lemma EscapePairIsKey(p: string)
    ensures IsEscapePair(p) <==> p in EscChars
  {
    if IsEscapePair(p) {
      assert p == [p[0], p[1]];
    }
  }

  /** The `value` group of a character literal: one escape pair, or one character that is neither a backslash nor a single quote. */
  predicate IsCharGroup(v: string)
  {
    IsEscapePair(v) || (|v| == 1 && v[0] != '\\' && v[0] != '\'')
  }

  /** t_CHAR: an escape pair becomes the character it stands for; any other text is kept as it is. */
  function CharRule(group: string): (t: Token)
    ensures t.tokenType == CHAR && t.value.Str?
    ensures IsCharGroup(group) ==> |t.value.s| == 1
  {
    EscapePairIsKey(group);
    Token(CHAR, Str(if group in EscChars then [EscChars[group]] else group))
  }

  /** A character literal decodes an escape pair through the table and keeps a plain character. */
  lemma CharRuleDecodes(group: string)
    requires IsCharGroup(group)
    ensures IsEscapePair(group) ==> CharRule(group).value == Str([EscChars[group]])
    ensures !IsEscapePair(group) ==> CharRule(group).value == Str(group)
  {
    EscapePairIsKey(group);
  }

  /** The characters the escape table produces. */
  predicate NeedsEscape(c: char)
  {
    c == '\n' || c == '\r' || c == '\t' || c == '\\' || c == '"' || c == '\''
  }

  /** How a character is written inside a literal: the six table characters as their escape pair, any other as itself. */
  function EscapeChar(c: char): (r: string)
    ensures NeedsEscape(c) ==> IsEscapePair(r) && r in EscChars && EscChars[r] == c
    ensures !NeedsEscape(c) ==> r == [c]
  {
    match c
    case '\n' => "\\n"
    case '\r' => "\\r"
    case '\t' => "\\t"
    case '\\' => "\\\\"
    case '"' => "\\\""
    case '\'' => "\\'"
    case _ => [c]
  }

  /** Every character written as a literal is read back as itself. */
  lemma CharRoundTrip(c: char)
    ensures IsCharGroup(EscapeChar(c))
    ensures CharRule(EscapeChar(c)).value == Str([c])
  {
    if !NeedsEscape(c) {
      EscapePairIsKey([c]);
    }
  }

  /**
   * The `value` group of a string literal: a run of escape pairs and of
   * characters that are neither a backslash nor a double quote.
   */
  predicate IsStringGroup(v: string)
  {
    if v == [] then true
    else if |v| >= 2 && IsEscapePair(v[..2]) then IsStringGroup(v[2..])
    else v[0] != '\\' && v[0] != '"' && IsStringGroup(v[1..])
  }

  /**
   * The substitution t_STRING applies: scanning left to right, each escape
   * pair is replaced by its character and every other character is kept.
   */
  function Unescape(s: string): string
  {
    if |s| >= 2 && IsEscapePair(s[..2]) then
      EscapePairIsKey(s[..2]);
      [EscChars[s[..2]]] + Unescape(s[2..])
    else if s == [] then []
    else [s[0]] + Unescape(s[1..])
  }

  /** The number of escape pairs the left-to-right scan replaces. */
  function EscapeCount(s: string): nat
  {
    if |s| >= 2 && IsEscapePair(s[..2]) then 1 + EscapeCount(s[2..])
    else if s == [] then 0
    else EscapeCount(s[1..])
  }

  /** t_STRING: the token's value is the unescaped content, one character shorter per escape pair. */
  function StringRule(group: string): (t: Token)
    ensures t.tokenType == STRING && t.value == Str(Unescape(group))
    ensures |t.value.s| == |group| - EscapeCount(group)
  {
    UnescapeLength(group);
    Token(STRING, Str(Unescape(group)))
  }

  /** Each escape pair shrinks the content by one character. */
  lemma {:induction false} UnescapeLength(s: string)
    ensures EscapeCount(s) <= |s|
    ensures |Unescape(s)| == |s| - EscapeCount(s)
  {
    if |s| >= 2 && IsEscapePair(s[..2]) {
      UnescapeLength(s[2..]);
    } else if s != [] {
      UnescapeLength(s[1..]);
    }
  }

  /** Content without a backslash decodes to itself. */
  lemma {:induction false} UnescapeWithoutBackslash(s: string)
    requires forall i :: 0 <= i < |s| ==> s[i] != '\\'
    ensures Unescape(s) == s
    ensures EscapeCount(s) == 0
  {
    if s != [] {
      assert !IsEscapePair(s[..|s|]) by { assert s[0] != '\\'; }
      UnescapeWithoutBackslash(s[1..]);
    }
  }

  /** How a string is written inside a string literal. */
  function EscapeString(s: string): string
  {
    if s == [] then [] else EscapeChar(s[0]) + EscapeString(s[1..])
  }

  /** A string written as a literal is valid literal content and decodes back to itself. */
  lemma {:induction false} StringRoundTrip(s: string)
    ensures IsStringGroup(EscapeString(s))
    ensures Unescape(EscapeString(s)) == s
  {
    if s != [] {
      var head, rest := EscapeChar(s[0]), EscapeString(s[1..]);
      StringRoundTrip(s[1..]);
      var w := head + rest;
      if NeedsEscape(s[0]) {
        assert w[..2] == head && w[2..] == rest;
      } else {
        assert w[0] == s[0] && w[1..] == rest;
        assert !(|w| >= 2 && IsEscapePair(w[..2]));
      }
    }
  }

  // ------------------------------------------------------------ identifiers

  /** The word a keyword type is written as, if the type is a keyword's. */
  function KeywordText(t: TokenType): Option<string>
  {
    match t
    case DEF => Some("def")
    case IF => Some("if")
    case THEN => Some("then")
    case ELIF => Some("elif")
    case ELSE => Some("else")
    case CASE => Some("case")
    case LET => Some("let")
    case IN => Some("in")
    case _ => None
  }

  /**
   * t_LOWERID: a name is typed as a keyword exactly when it is one of the
   * reserved words, and that type gives back the word; any other name is
   * LOWERID. The value is the raw text.
   */
  function LowerIdRule(text: string): (t: Token)
    ensures t.value == Str(text)
    ensures t.tokenType != LOWERID <==> text in Keywords
    ensures KeywordText(t.tokenType) == (if text in Keywords then Some(text) else None)
  {
    Token(if text !in Keywords then LOWERID else Keywords[text], Str(text))
  }

  /** t_UPPERID: the same keyword check, with UPPERID for any other name. */
  function UpperIdRule(text: string): (t: Token)
    ensures t.value == Str(text)
    ensures t.tokenType != UPPERID <==> text in Keywords
    ensures KeywordText(t.tokenType) == (if text in Keywords then Some(text) else None)
  {
    Token(if text !in Keywords then UPPERID else Keywords[text], Str(text))
  }

  /** Every keyword starts with a lower-case letter, so an upper-initial name is always UPPERID. */
  lemma UpperIdIsNeverKeyword(text: string)
    requires |text| > 0 && 'A' <= text[0] <= 'Z'
    ensures UpperIdRule(text).tokenType == UPPERID
  {
    assert forall w :: w in Keywords ==> 'a' <= w[0] <= 'z';
  }

  // ---------------------------------------------------------------- numbers

  predicate IsDigit(c: char)
  {
    '0' <= c <= '9'
  }

  function DigitValue(c: char): (d: nat)
    requires IsDigit(c)
    ensures d < 10
  {
    (c as int) - ('0' as int)
  }

  /** Text matched by the number pattern: one or more decimal digits. */
  predicate IsDigits(s: string)
  {
    |s| > 0 && forall i :: 0 <= i < |s| ==> IsDigit(s[i])
  }

  /** The decimal value of a run of digits, as `int` reads it. */
  function DecimalValue(s: string): nat
    requires forall i :: 0 <= i < |s| ==> IsDigit(s[i])
  {
    if s == [] then 0
    else DecimalValue(s[..|s| - 1]) * 10 + DigitValue(s[|s| - 1])
  }

  /** The shortest decimal writing of a natural number. */
  function DecimalText(n: nat): (r: string)
    ensures IsDigits(r)
  {
    var d := [(('0' as int) + n % 10) as char];
    if n < 10 then d else DecimalText(n / 10) + d
  }

  /** t_NUMBER: the token's value is the decimal value of the digits. */
  function NumberRule(digits: string): (t: Token)
    requires IsDigits(digits)
    ensures t.tokenType == NUMBER && t.value == Int(DecimalValue(digits))
    ensures t.value.i >= 0
  {
    Token(NUMBER, Int(DecimalValue(digits)))
  }

  /** Reading back the decimal writing of a number gives the number. */
  lemma {:induction false} DecimalRoundTrip(n: nat)
    ensures DecimalValue(DecimalText(n)) == n
  {
    var s := DecimalText(n);
    if n >= 10 {
      DecimalRoundTrip(n / 10);
      assert s[..|s| - 1] == DecimalText(n / 10);
    }
  }

  /** Leading zeros do not change the value of a digit run. */
  lemma {:induction false} DecimalLeadingZero(s: string)
    requires forall i :: 0 <= i < |s| ==> IsDigit(s[i])
    ensures DecimalValue("0" + s) == DecimalValue(s)
  {
    if s != [] {
      var z := "0" + s;
      assert z[..|z| - 1] == "0" + s[..|s| - 1];
      DecimalLeadingZero(s[..|s| - 1]);
    }
  }

  // ------------------------------------------------------ lines and errors

  /** How many newline characters a text holds (`str.count('\n')`). */
  function CountNewlines(s: string): nat
  {
    if s == [] then 0 else (if s[0] == '\n' then 1 else 0) + CountNewlines(s[1..])
  }

  /** The newline count is the multiplicity of '\n'; for a run of newlines it is the run's length. */
  lemma {:induction false} CountNewlinesIsMultiplicity(s: string)
    ensures CountNewlines(s) == multiset(s)['\n']
    ensures (forall i :: 0 <= i < |s| ==> s[i] == '\n') ==> CountNewlines(s) == |s|
  {
    if s != [] {
      CountNewlinesIsMultiplicity(s[1..]);
      assert s == [s[0]] + s[1..];
      assert multiset(s) == multiset([s[0]]) + multiset(s[1..]);
    }
  }

  /**
   * The lexer state the rule bodies touch: the input, the scan position, the
   * line number, and the characters reported as illegal.
   */
  class Scanner {
    const input: string
    var pos: nat
    var lineno: int
    var diagnostics: seq<char>

    /**
     * The scanner's invariant: the position stays within the input, line
     * numbers start at 1 and never go down, and every reported character
     * consumed a position of its own.
     */
    ghost predicate Valid()
      reads this
    {
      pos <= |input| && lineno >= 1 && |diagnostics| <= pos
    }

    /** A scanner at the start of the input, on line 1. */
    constructor (input: string)
      ensures Valid()
      ensures this.input == input && pos == 0 && lineno == 1 && diagnostics == []
    {
      this.input := input;
      pos := 0;
      lineno := 1;
      diagnostics := [];
    }

    /** The engine's skip(n): the move past a match of length n, made before the rule body runs. */
    method Advance(n: nat)
      requires Valid() && pos + n <= |input|
      modifies this
      ensures Valid()
      ensures pos == old(pos) + n
      ensures lineno == old(lineno) && diagnostics == old(diagnostics)
    {
      pos := pos + n;
    }

    /** t_comment: counts one line, whatever the comment text, and produces no token. */
    method Comment(text: string) returns (t: Option<Token>)
      requires Valid()
      modifies this
      ensures Valid()
      ensures t == None
      ensures lineno == old(lineno) + 1
      ensures pos == old(pos) && diagnostics == old(diagnostics)
    {
      lineno := lineno + 1;
      t := None;
    }

    /** t_ignore_newline: counts one line per newline in the run and produces no token. */
    method IgnoreNewline(text: string) returns (t: Option<Token>)
      requires Valid()
      modifies this
      ensures Valid()
      ensures t == None
      ensures lineno == old(lineno) + CountNewlines(text)
      ensures pos == old(pos) && diagnostics == old(diagnostics)
    {
      lineno := lineno + CountNewlines(text);
      t := None;
    }

    /** t_error: reports the character at the scan position, skips exactly it, and produces no token. */
    method Error() returns (t: Option<Token>)
      requires Valid() && pos < |input|
      modifies this
      ensures Valid()
      ensures t == None
      ensures pos == old(pos) + 1
      ensures diagnostics == old(diagnostics) + [input[old(pos)]]
      ensures lineno == old(lineno)
    {
      diagnostics := diagnostics + [input[pos]];
      pos := pos + 1;
      t := None;
    }
  }
}
