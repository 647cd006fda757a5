# tlox expression parser, modelled in Dafny

This project models the recursive-descent parser of tlox, a TypeScript
implementation of the Lox language: the `Parser` class of `src/parser.ts` and
the statement nodes of `src/statement.ts`.

The parser reads a token sequence that ends with an end-of-stream marker. It
builds an expression tree from the grammar

    expression -> equality
    equality   -> comparison ( ( "!=" | "==" ) comparison )*
    comparison -> term ( ( ">" | ">=" | "<" | "<=" ) term )*
    term       -> factor ( ( "-" | "+" ) factor )*
    factor     -> unary ( ( "/" | "*" ) unary )*
    unary      -> ( "!" | "-" ) unary | primary
    primary    -> "false" | "true" | "nil" | NUMBER | STRING | "(" expression ")"

If no tree can be built, `parse` returns `null`. The failure has already been
reported with a location: `end` at the end-of-stream marker, and the token's
lexeme anywhere else.

The model has two layers:

- **Grammar** (`grammar.dfy`) gives the descent as pure functions that take a
  cursor position explicitly. Each returns the tree and the position after it,
  or the `ParseError` the source throws. The four binary levels share one
  function over a `Level` value, because they differ only in their operators
  and in the level that supplies their operands.
- **Parsing** (`parser.dfy`) is the source's `Parser` class. It keeps a token
  sequence and a mutable cursor, `current`. Each grammar method moves the
  cursor in place, including the `while (this.match(...))` loop of the binary
  levels. Each method is proved to return what the Grammar function of the same
  rule returns, and to leave the cursor where that function says.

On top of these layers:

- **Trees** (`trees.dfy`) describes, independently of the descent, which trees
  have the shape that precedence and associativity demand (`Shaped`) and which
  tokens spell a tree (`SpelledAt`). It also has a printer, `Render`.
- **GrammarProofs** (`grammar_proofs.dfy`) proves that `parse` returns `e`
  exactly when the tokens spell the Shaped tree `e` and the next token is not a
  binary operator (`ParseCharacterized`). It proves that every failure is
  reported as the source reports it. It also proves a print-then-parse round
  trip (`ParseRender`).
- **GrammarExamples** (`grammar_examples.dfy`) derives the grammar's promised
  properties from that theorem: left associativity, precedence, right-nested
  unary operators, literal mapping and grouping. It also works through concrete
  token sequences and their errors.
- **Statements** (`statements.dfy`) models the statement variants and the
  `accept` dispatch of the visitor.

`(` alone is reported as "Expression expected" at `end`, not with the
missing-parenthesis message: `primary` parses the inner expression before it
looks for `)` (src/parser.ts:97-103), and that inner parse fails on the
end-of-stream marker first; see `LoneParenthesis`.

## Model

| member | source | states |
|---|---|---|
| Grammar.LogError | src/parser.ts:170-174 | the reported error keeps the token and the message; its location is `end` at the end-of-stream marker and the token's lexeme at any other token |
| GrammarProofs.CheckAtKind | src/parser.ts:123-127 | `check` (`Grammar.CheckAt`) holds exactly when the current token has the asked kind and that kind is not the end-of-stream marker, so it never holds at the end |
| GrammarProofs.MatchAtSomeCheck | src/parser.ts:112-121 | the test of `match` (`Grammar.MatchAt`): it holds exactly when `check` holds for one of the listed kinds (the cursor step is in `Parsing.Parser.Match`) |
| Grammar.Parse | src/parser.ts:16-22 | `parse` yields a tree exactly when `expression` succeeds from the first token, and then the tree `expression` built |
| Grammar.ExpressionAt | src/parser.ts:24-26 | `expression` is `equality`; a success consumes at least one token and ends before the end-of-stream marker |
| Grammar.BinaryAt | src/parser.ts:28-76 | a binary level is its first operand followed by the fold; a success moves the cursor forward and stays inside the tokens |
| Grammar.OperandAt | src/parser.ts:28-76 | the operand of `equality` is `comparison`, of `comparison` is `term`, of `term` is `factor`, and of `factor` is `unary`; a success moves the cursor forward |
| Grammar.FoldAt | src/parser.ts:31-35 | the operator loop shared by the four levels (also lines 43-49, 57-61 and 69-73); the cursor never moves back, and a success ends inside the tokens |
| Grammar.UnaryAt | src/parser.ts:78-86 | `!` or `-` followed by a unary, otherwise `primary`; a success moves the cursor forward |
| Grammar.PrimaryAt | src/parser.ts:88-104 | the literal alternatives in the source's order, then `( expression )`, otherwise "Expression expected" at the current token; a success moves the cursor forward |
| Parsing.Parser.constructor | src/parser.ts:14 | a new parser holds the tokens with its cursor at 0 |
| Parsing.Parser.Parse | src/parser.ts:16-22 | returns the tree exactly when `expression` succeeds, and `None` with the reported error when it fails; from cursor 0 the result is `Grammar.Parse` |
| Parsing.Parser.Expression | src/parser.ts:24-26 | result and new cursor equal `ExpressionAt` at the old cursor |
| Parsing.Parser.Equality | src/parser.ts:28-38 | result and new cursor equal `BinaryAt(EqualityLevel)` at the old cursor |
| Parsing.Parser.Comparison | src/parser.ts:40-52 | result and new cursor equal `BinaryAt(ComparisonLevel)` at the old cursor |
| Parsing.Parser.Term | src/parser.ts:54-64 | result and new cursor equal `BinaryAt(TermLevel)` at the old cursor |
| Parsing.Parser.Factor | src/parser.ts:66-76 | result and new cursor equal `BinaryAt(FactorLevel)` at the old cursor |
| Parsing.Parser.BinaryLevel | src/parser.ts:29-37 | the first operand, then the loop: result and new cursor equal `BinaryAt(level)` at the old cursor |
| Parsing.Parser.Fold | src/parser.ts:31-35 | the `while (this.match(...))` loop: result and new cursor equal `FoldAt` from the tree so far and the old cursor |
| Parsing.Parser.Operand | src/parser.ts:28-76 | calls the next tighter level: result and new cursor equal `OperandAt` |
| Parsing.Parser.Unary | src/parser.ts:78-86 | result and new cursor equal `UnaryAt` at the old cursor |
| Parsing.Parser.Primary | src/parser.ts:88-104 | result and new cursor equal `PrimaryAt` at the old cursor, including both errors |
| Parsing.Parser.Consume | src/parser.ts:106-110 | succeeds exactly when `check` accepts the kind, and then returns the current token and advances by one; otherwise fails with `logError(peek(), message)` and leaves the cursor where it was |
| Parsing.Parser.Match | src/parser.ts:112-121 | true exactly when `check` accepts one of the kinds; it advances by one when true and does not move otherwise |
| Parsing.Parser.Check | src/parser.ts:123-127 | true exactly when the cursor is not on the end-of-stream marker and the current token has the kind |
| Parsing.Parser.Advance | src/parser.ts:129-133 | moves forward by one unless on the end-of-stream marker, and returns the token it passed, or `previous()` when it did not move |
| Parsing.Parser.Peek | src/parser.ts:135-137 | the token at the cursor; it is the end-of-stream marker exactly at the last index |
| Parsing.Parser.Previous | src/parser.ts:139-141 | the token before the cursor, clamped to the first token at cursor 0; it is the end-of-stream marker only when that marker is the whole input |
| Parsing.Parser.IsCompleted | src/parser.ts:143-145 | true exactly when the cursor is on the last token, the end-of-stream marker |
| GrammarProofs.OperatorOfLevel | src/parser.ts:28-76 | a kind is one of a level's operators exactly when its precedence is that level's |
| GrammarProofs.ShapedBindsAtLeastEquality | src/parser.ts:28-38 | every Shaped tree binds at least as tightly as `equality` |
| GrammarProofs.ExpressionAtSound | src/parser.ts:24-26 | a tree `expression` returns is Shaped, is spelled by exactly the tokens consumed, and is followed by a token that is not a binary operator |
| GrammarProofs.BinaryAtSound | src/parser.ts:28-76 | a level's tree is Shaped and spelled by the tokens consumed; it binds at least as tightly as the level; the next token is no operator of this level or of a tighter one |
| GrammarProofs.OperandAtSound | src/parser.ts:28-76 | an operand's tree binds more tightly than the level, and the next token is not an operator of a tighter level |
| GrammarProofs.FoldAtSound | src/parser.ts:31-35 | each round of the loop keeps the tree Shaped and spelled from the level's start; the loop stops before a token that is not an operator of this level |
| GrammarProofs.DerivesBinary | src/parser.ts:34 | the node the loop builds from a derived left side, the operator and a derived right operand is itself derived |
| GrammarProofs.UnaryAtSound | src/parser.ts:78-86 | a tree `unary` returns is Shaped, spelled by the tokens consumed, and binds at least as tightly as a unary |
| GrammarProofs.PrimaryAtSound | src/parser.ts:88-104 | a tree `primary` returns is a literal or a grouping, spelled by the tokens consumed |
| GrammarProofs.LiteralSound | src/parser.ts:89-95 | the literal alternatives consume one token, and the value is the one that token spells |
| GrammarProofs.DerivesGrouping | src/parser.ts:97-101 | a derived tree between `(` and `)` derives its Grouping node, ending after the `)` |
| GrammarProofs.ExpressionAtReports | src/parser.ts:170-174 | every failure of `expression` is reported at `end` or at the token's lexeme, as "Expression expected" at a token that cannot begin a primary or as the missing-parenthesis message at a token that is not `)` |
| GrammarProofs.BinaryAtReports | src/parser.ts:28-76 | every failure of a binary level is reported as `logError` reports it |
| GrammarProofs.OperandAtReports | src/parser.ts:28-76 | every failure of an operand is reported as `logError` reports it |
| GrammarProofs.FoldAtReports | src/parser.ts:31-35 | every failure inside the loop is reported as `logError` reports it |
| GrammarProofs.UnaryAtReports | src/parser.ts:78-86 | every failure of `unary` is reported as `logError` reports it |
| GrammarProofs.PrimaryAtReports | src/parser.ts:97-103 | `primary` fails only with "Expression expected" at a token that starts no primary, or with the `consume` message at a token that is not `)` |
| GrammarProofs.ExpressionAtComplete | src/parser.ts:24-26 | a Shaped tree spelled at the cursor and followed by a non-operator token is exactly what `expression` returns |
| GrammarProofs.BinaryAtComplete | src/parser.ts:28-76 | a Shaped tree that binds at least as tightly as the level and is spelled at the cursor is what the level builds before it resumes the loop after the tree |
| GrammarProofs.FoldAtStart | src/parser.ts:29-31 | a level's loop starts from the tree of its first operand |
| GrammarProofs.OperatorMatches | src/parser.ts:31 | `match` accepts an operator token of the level's precedence |
| GrammarProofs.FoldAtStep | src/parser.ts:31-35 | one round of the loop replaces the tree so far with the Binary node of it, the operator and the next operand |
| GrammarProofs.ChainAtComplete | src/parser.ts:31-35 | a tree whose top operator belongs to the level is the loop's result over its left chain |
| GrammarProofs.OperatorStepComplete | src/parser.ts:31-35 | the operator and the operand spelled after it are consumed by one round of the loop |
| GrammarProofs.OperandAtComplete | src/parser.ts:28-76 | a Shaped tree that binds more tightly than the level is what the operand rule returns |
| GrammarProofs.UnaryAtComplete | src/parser.ts:78-86 | a Shaped unary or atom spelled at the cursor is exactly what `unary` returns |
| GrammarProofs.PrimaryAtComplete | src/parser.ts:88-104 | a spelled literal or grouping is exactly what `primary` returns |
| GrammarProofs.UnaryAtOperator | src/parser.ts:79-82 | at `!` or `-`, `unary` returns the Unary node of that token over the unary after it |
| GrammarProofs.UnaryAtPrimary | src/parser.ts:85 | at any other token, `unary` is `primary` |
| GrammarProofs.PrimaryAtGrouping | src/parser.ts:97-101 | at `(`, when the inner expression is followed by `)`, `primary` returns its Grouping and ends after the `)` |
| GrammarProofs.PrimaryAtLiteral | src/parser.ts:89-95 | at a token that spells a literal value, `primary` returns that literal and consumes one token |
| GrammarProofs.ParseCharacterized | src/parser.ts:16-22 | `parse` returns `e` if and only if the tokens spell the Shaped tree `e` and the token after it is not a binary operator |
| GrammarProofs.ParseFails | src/parser.ts:16-22 | `parse` returns `null` exactly when no tree is accepted |
| GrammarProofs.ParseRender | src/parser.ts:16-22 | round trip: parsing the printed form of any Shaped tree, followed by a non-operator, gives the tree back |
| GrammarExamples.LeftAssociative | src/parser.ts:31-35 | operators of one level fold to the left: `a o1 b o2 c` parses as `(a o1 b) o2 c` |
| GrammarExamples.TighterOperatorOnRight | src/parser.ts:54-76 | a tighter operator on the right takes its operands first: `a lo b hi c` parses as `a lo (b hi c)` |
| GrammarExamples.TighterOperatorOnLeft | src/parser.ts:54-76 | a tighter operator on the left takes its operands first: `a hi b lo c` parses as `(a hi b) lo c` |
| GrammarExamples.UnaryNestsRight | src/parser.ts:78-86 | prefix operators nest to the right: `o1 o2 e` parses as `o1 (o2 e)` |
| GrammarExamples.LiteralsMapDirectly | src/parser.ts:89-95 | `false`, `true` and `nil` parse to those values; NUMBER and STRING parse to the token's literal |
| GrammarExamples.GroupingWraps | src/parser.ts:97-101 | parentheses give a Grouping of the enclosed tree, and without them the same tokens give the tree itself |
| GrammarExamples.MinusChain | src/parser.ts:57-61 | `1 - 2 - 3` parses as `(1 - 2) - 3` |
| GrammarExamples.SumOfProduct | src/parser.ts:54-76 | `1 + 2 * 3` parses as `1 + (2 * 3)` |
| GrammarExamples.DoubleNegation | src/parser.ts:78-86 | `- - 1` parses as `-(-1)` |
| GrammarExamples.GroupedSum | src/parser.ts:97-101 | `( 1 + 2 )` parses as a Grouping of `1 + 2` |
| GrammarExamples.TrailingTokenIgnored | src/parser.ts:16-22 | `1 2` parses as `1`: the token after the tree is looked at but never consumed |
| GrammarExamples.LeadingErrorReachesTop | src/parser.ts:24-76 | an error in the leftmost operand unwinds every level unchanged |
| GrammarExamples.MissingOperand | src/parser.ts:103 | `1 +` fails with "Expression expected" at the end-of-stream marker, located at `end` |
| GrammarExamples.LoneParenthesis | src/parser.ts:97-103 | `(` alone fails with "Expression expected" at `end`, not with the missing-parenthesis message |
| GrammarExamples.UnclosedGroup | src/parser.ts:99 | `( 1` fails with "Expect ')' after expression." at `end` |
| GrammarExamples.StrayParenthesis | src/parser.ts:103 | `)` fails with "Expression expected", located at its lexeme `)` |
| Statements.Dispatch | src/statement.ts:10-52 | each statement variant calls its own handler, and no two variants call the same one |
| Statements.Accept | src/statement.ts:19-51 | `accept` returns the node's own handler applied to the node |
| Statements.AcceptIgnoresOtherHandlers | src/statement.ts:19-51 | two visitors that agree on a node's handler give the same result: the other handlers are never called |
| Statements.AcceptPassesTheNode | src/statement.ts:19-51 | the handler receives the node itself with its fields unchanged |

## Left out

- `src/tlox.ts` (the command-line driver) is not part of this model. The lexer, the interpreter, `AstPrinter`, `Environment` and `./expression` are not part of this model either. Expression nodes are a datatype here.
- `synchronize` (src/parser.ts:147-168) is never called by `parse`. Its loop never advances the cursor, so it is not modelled.
- `logError` writes a line to `console.error` with the token's line number. That output is I/O and is left out. The model keeps what the line reports: the token, the location (`end` or the lexeme) and the message, as `ParseError`.
- Thrown exceptions are `Failure` results that every rule passes straight up. `parse` turns a failure into `None`.
- Numbers are JavaScript floats in the source. The parser only copies them from a token into a tree, so they are kept as reals that the parser only copies.
- GrammarProofs.ParseCharacterized: the model has no recursion-depth limit. In the source, input nested more deeply than the JavaScript call stack allows (thousands of `(` or `-`) makes `expression` or `unary` overflow the stack; `parse` catches that error like any other (src/parser.ts:16-20) and returns `null` without a diagnostic. `ParseCharacterized`, `ParseRender` and `Parsing.Parser.Parse` describe the source only for input within that depth.
- `Parsing.Parser.Expression`: on a failure the cursor position is not stated, for this method and for every other grammar method. The source abandons the parser state once the exception reaches `parse`.
- The four binary methods share one `BinaryLevel` body and one `Fold` loop, parameterised by `Level`. The source repeats the same code four times.
- The token array is an immutable sequence. The parser never writes to it.
- `Trees.Render` prints parentheses and literals with an arbitrary lexeme and line. The parser reads neither.
- The model assumes the input is well terminated: it is non-empty and its last token, and only that one, is the end-of-stream marker. The lexer produces such input. On other arrays the source behaves as follows. An earlier end-of-stream marker ends the parse there, because `isCompleted` (src/parser.ts:143-145) stops every rule at it. An array without a marker may be read past its end. The missing token is `undefined`, so `getType()` throws, and `parse` turns that into `null` with no diagnostic (src/parser.ts:16-22).
