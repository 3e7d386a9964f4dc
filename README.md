# Abstract syntax trees and tokenizer rules of a small functional language

This project models the tree-building layer of the front end of a small,
eagerly evaluated functional language, and the rule bodies of its tokenizer.

- **Nodes** (`nodes.dfy`): a tree node is a label with an ordered list of
  children, or a label with a scalar value. Each kind of node has its own
  canonical output (`_out`): a plain node gives `[label, child outputs...]`, a
  leaf gives its value, a literal gives `[label, value]`, a node list gives the
  bare list of its children's outputs, and a case gives
  `[ExprCase, scrutinee, [branches...]]`. Two nodes are equal when their
  outputs are equal. A leaf stores the text `"||"` as `"OR"`. The one in-place
  operation, `append`, is the class `MutableNode`.
- **Expressions** (`expressions.dfy`): the node shapes for variables,
  constructors, numbers, characters, applications, lambdas and lets, and the
  desugarings: atomic dispatch by token type, string literals as right-nested
  `Cons`/`Nil` chains of character codes, curried lambdas from a parameter
  list, binary and unary operators as applications of a variable named from a
  fixed table, and `e1; e2` as a let that binds `_`.
- **Cases** (`cases.dfy`): case branches (constructor name, parameter names,
  body), the growable branch list, case expressions, and `if`/`else` as a
  two-branch case over `True` and `False`.
- **Programs** (`programs.dfy`): a program is a growable list of definitions;
  a definition binds a name to an expression.
- **Lexer** (`lexer.dfy`): the escape table and escape decoding for
  character and string literals, keyword classification of identifiers,
  decimal numbers, line counting for comments and newline runs, and the
  skip-one-character error rule, over a small scanner state.

The output of `_out` is the datatype `Output` (int, string, null, list).
Labels are written as their own names. `wrappers.dfy` holds the `Option` and
`Result` types.

The binary operator table has 13 entries; an operator symbol outside a table
gives a variable whose name is null; an empty program outputs `[]` because a
program is a node list; the escape table has six entries; and neither a case's
branch list nor a definition's name is checked for being non-empty.

## Model

| member | source | states |
|---|---|---|
| Nodes.Normalize | src/ast/nodos.py:63 | a stored leaf value is never "||": "||" becomes "OR" and every other value is kept unchanged |
| Nodes.NormalizeName | src/ast/expresion.py:145-147 | an identifier leaf built from a name holds that name, with "||" read as "OR" |
| Nodes.ChildrenOutAt | src/ast/nodos.py:40-42 | the children's outputs have one entry per child, the i-th being the i-th child's output |
| Nodes.ChildrenOutAppend | src/ast/nodos.py:31-42 | the output of a child appended at the end comes after the outputs of the earlier children |
| Nodes.PlainOut | src/ast/nodos.py:36-42 | a plain node outputs a list of length children+1: its label, then each child's output in order |
| Nodes.NodeListOut | src/ast/nodos.py:81-83 | a node list outputs exactly its children's outputs in order, with no label; an empty one outputs [] |
| Nodes.LeafOut | src/ast/nodos.py:52-67 | a leaf has no children and outputs exactly its stored value; built from "||" it outputs "OR", otherwise the given value |
| Nodes.LiteralOut | src/ast/expresion.py:90-98 | a literal has no children and outputs [label, value], storing "||" as "OR" and every other value unchanged |
| Nodes.AppendOut | src/ast/nodos.py:31-42 | appending a child to a plain node or node list extends its output by exactly that child's output, at the end |
| Nodes.EqualIsEquivalence | src/ast/nodos.py:48-50 | node equality (equal outputs) is reflexive, symmetric and transitive |
| Nodes.EmptyNodeListsEqual | src/ast/nodos.py:81-83 | any two empty node lists compare equal whatever their labels, since both output [] |
| Nodes.MutableNode.constructor | src/ast/nodos.py:20-29 | a new node has the given label and the given children, or none when children are omitted |
| Nodes.MutableNode.Append | src/ast/nodos.py:31-34 | append returns the same node, adds the child as the last child and keeps the earlier children in order |
| Expressions.LiteralShapes | src/ast/expresion.py:100-130 | number, char, variable and constructor literals output [label, value]; a char stores its code point; id() gives back the name |
| Expressions.BuildStringReadsBack | src/ast/expresion.py:133-137 | a string of length n desugars to exactly n Cons layers of char literals over Nil, holding the codes in source order; "" gives Nil |
| Expressions.BuildExpressionPeels | src/ast/expresion.py:139-143 | no parameters give the body itself; otherwise peeling one lambda per parameter gives the parameters in list order and the body unchanged |
| Expressions.BinaryOut | src/ast/expresion.py:151-166 | a binary expression outputs [ExprApply, [ExprApply, [ExprVar, name], left], right] with the table name, or null for a symbol outside the table |
| Expressions.UnaryOut | src/ast/expresion.py:167-178 | a unary expression outputs [ExprApply, [ExprVar, name], operand]; "-" is UMINUS, "!" is NOT, other symbols give null |
| Expressions.BinaryTableSize | src/ast/expresion.py:22-37 | the binary operator table has exactly 13 symbols |
| Expressions.OperatorNamesDistinct | src/ast/expresion.py:22-42 | different binary symbols have different names; "-" is SUB as a binary and UMINUS as a unary operator |
| Expressions.SeqLetParts | src/ast/expresion.py:179-186 | `e1; e2` is a let whose parameter is "_", whose bound expression is e1 and whose body is e2, output [ExprLet, "_", e1, e2] |
| Expressions.AtomicDispatch | src/ast/expresion.py:148-150 | a token type outside LOWERID, UPPERID, NUMBER, CHAR, STRING fails, and exactly those; the first three give variable, constructor and number literals |
| Expressions.AtomicAcceptsLexerTokens | src/ast/expresion.py:9-15 | every char, string, number and non-keyword identifier token the rules produce is accepted and becomes the matching node |
| Cases.BranchAccessors | src/ast/casos.py:13-35 | a branch gives back its name, its parameter names in the same order, and its body |
| Cases.BranchOut | src/ast/casos.py:22-23 | a branch outputs ["CaseBranch", name, [parameter names], body output] |
| Cases.CaseParts | src/ast/casos.py:58-81 | a case gives back its scrutinee and its branches in order, and outputs three items with all branch outputs nested in one list |
| Cases.IfBranches | src/ast/casos.py:85-87 | an if is a case over the condition with exactly two branches: True with no parameters and the then-part, then the third argument unchanged |
| Cases.ElseBranch | src/ast/casos.py:89-91 | an else branch is named False, has no parameters and has the given body |
| Cases.IfElseOut | src/ast/casos.py:85-91 | if c then t else e, with an else branch, outputs [ExprCase, c, [[CaseBranch, True, [], t], [CaseBranch, False, [], e]]] |
| Cases.NewCaseBranches | src/ast/casos.py:47-49 | a new branch list is a fresh node list labelled CaseBranches holding the given branches |
| Cases.AppendCase | src/ast/casos.py:51-53 | append_case returns the same list with the branch added at the end |
| Cases.CaseExprOf | src/ast/casos.py:58-65 | a case built from a branch list has the given scrutinee first and the list's branches at that moment, in order |
| Cases.CaseExprIsSnapshot | src/ast/casos.py:65 | a branch appended to the list after the case is built does not change the case's branches |
| Programs.DefParts | src/ast/programa.py:13-21 | a definition gives back its name and expression and outputs ["Def", name, expression output] |
| Programs.NewProgram | src/ast/programa.py:5-10 | a new program is a fresh node list with no definitions, and it outputs [] |
| Programs.ProgramOut | src/ast/programa.py:5-7 | a program outputs the bare list of its definitions: [] when empty, [d] with one definition, and appending adds the definition's output last |
| Lexer.EscapePairIsKey | src/lexer.py:37-46 | the escape pattern (a backslash and one of n t r \ ' ") matches exactly the six keys of the escape table |
| Lexer.CharRule | src/lexer.py:39-42 | a character literal gives a CHAR token whose value is exactly one character |
| Lexer.CharRuleDecodes | src/lexer.py:37-42 | an escape pair decodes through the table, a plain character decodes to itself |
| Lexer.EscapeChar | src/lexer.py:37 | each of the six table characters is written as the escape pair the table maps to it; any other character as itself |
| Lexer.CharRoundTrip | src/lexer.py:39-42 | every character, written as a literal, is a valid literal and decodes back to itself |
| Lexer.StringRule | src/lexer.py:44-47 | a string literal gives a STRING token whose value is the content decoded by the left-to-right escape scan (which StringRoundTrip inverts), one character shorter than the content per escape pair |
| Lexer.UnescapeLength | src/lexer.py:44-47 | the decoded length is the content length minus the number of escape pairs |
| Lexer.UnescapeWithoutBackslash | src/lexer.py:44-47 | content without a backslash has no escape pairs and decodes to itself |
| Lexer.StringRoundTrip | src/lexer.py:44-47 | every string, written as literal content, is valid content and decodes back to itself (left to right, order kept) |
| Lexer.LowerIdRule | src/lexer.py:49-52 | a lower-initial name gets a keyword type exactly when it is one of the eight keywords, and that type gives back the word; otherwise LOWERID; the value is the raw text |
| Lexer.UpperIdRule | src/lexer.py:54-57 | an upper-initial name gets a keyword type exactly when it is a keyword, and that type gives back the word; otherwise UPPERID; the value is the raw text |
| Lexer.UpperIdIsNeverKeyword | src/lexer.py:18-27 | every keyword is lower-case, so an upper-initial name is always UPPERID |
| Lexer.NumberRule | src/lexer.py:59-62 | a digit run gives a NUMBER token whose value is the non-negative decimal value of the digits (which DecimalRoundTrip and DecimalLeadingZero characterise) |
| Lexer.DecimalRoundTrip | src/lexer.py:59-62 | the value read from a number's decimal writing is that number |
| Lexer.DecimalLeadingZero | src/lexer.py:59-62 | a leading zero does not change the value of a digit run |
| Lexer.CountNewlinesIsMultiplicity | src/lexer.py:68-70 | the newline count is the number of newline characters; for a newline run it is the run's length |
| Lexer.Scanner.Comment | src/lexer.py:64-66 | a comment raises the line number by exactly one, moves nothing else and produces no token |
| Lexer.Scanner.IgnoreNewline | src/lexer.py:68-70 | a newline run raises the line number by its number of newlines and produces no token |
| Lexer.Scanner.Advance | src/lexer.py:74 | the engine's skip: the position moves by exactly the given length, within the input, keeping the line number and the reported characters and the scanner invariant |
| Lexer.Scanner.Error | src/lexer.py:72-74 | an illegal character is reported, the position advances by exactly one, the line number is kept, and no token is produced |

## Left out

- JSON text encoding of the output (`json.dumps` with its separators and its `default` hook, src/ast/nodos.py:5-13, and `__repr__`): it is string escaping done by a library; the model states output and equality on the `Output` datatype.
- The label enumeration (src/ast/etiqueta.py) is not part of this model: labels are a closed datatype, assumed to serialise as their own names.
- A variable or constructor literal holds an identifier leaf object in the source; the model holds that leaf's value, which is what the leaf outputs and what `id()` reads.
- Python's dynamic typing: a label that does not fit its payload, accessors called on nodes of another class, and `__eq__` against objects that are not nodes. Node kinds are constructors with their own fields; accessors require the shape of their class.
- Aliasing of child lists: a node keeps the list it was given without copying, so a caller holding that list could change the node. Children are values in the model, so a case built from a branch list keeps the branches it was built with because values cannot change afterwards; the model does not distinguish the source's copy of that list (src/ast/casos.py:65) from sharing it.
- The lexer engine: building the master pattern, rule order and longest match, matching itself, the punctuation and operator rules given as patterns only, ignored blanks and tabs, and the token stream of `get_all_tokens` (src/lexer.py:1-8, 28-35, 76-77). Each rule body is given the text its pattern matched; the engine's move past a match is `Scanner.Advance`, which the caller applies before a rule body, as the engine does.
- The diagnostic printed by the error rule (src/lexer.py:73): the model records the offending character in `diagnostics` instead.
- Lexer.NumberRule: requires ASCII digits; the number pattern also matches other Unicode decimal digits, which `int` accepts. A digit run longer than 4300 digits makes `int` raise ValueError (Python's integer string-conversion limit), which aborts the scan; the model gives its value.
- Python's recursion limit: building a string literal recurses once per character (src/ast/expresion.py:137) and output and equality recurse per nesting level (src/ast/nodos.py:38-50), so the source raises RecursionError on long string literals and deeply nested trees; the model's `BuildString` and `Out` are total.
- The tests (src/test/test_.py): file reading, fixture discovery, parametrisation and the parser module it imports.
