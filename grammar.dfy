/**
 * The expression grammar of src/parser.ts as functions that thread the cursor
 * explicitly: each takes the token sequence and the cursor position and returns
 * the tree together with the position after it, or the error the source throws.
 *
 *   expression -> equality
 *   equality   -> comparison ( ( "!=" | "==" ) comparison )*
 *   comparison -> term ( ( ">" | ">=" | "<" | "<=" ) term )*
 *   term       -> factor ( ( "-" | "+" ) factor )*
 *   factor     -> unary ( ( "/" | "*" ) unary )*
 *   unary      -> ( "!" | "-" ) unary | primary
 *   primary    -> "false" | "true" | "nil" | NUMBER | STRING | "(" expression ")"
 *
 * The four binary levels differ only in their operators and in the level that
 * supplies their operands, so they are one function over `Level`.
 */
module Grammar {
  import opened Wrappers
  import opened Tokens
  import opened Expressions

  /** What `logError` reports: the offending token, where it is, and the message. */
  datatype ParseError = ParseError(token: Token, location: string, message: string)

  const ExpressionExpected: string := "Expression expected"
  const ParenExpected: string := "Expect ')' after expression."

  /** The location is `end` at the end-of-stream marker and the token's lexeme elsewhere. */
  function LogError(token: Token, message: string): (e: ParseError)
    ensures e.token == token && e.message == message
    ensures token.kind == Eof ==> e.location == "end"
    ensures token.kind != Eof ==> e.location == token.lexeme
  {
    ParseError(token, if token.kind == Eof then "end" else token.lexeme, message)
  }

  /** A tree and the cursor position just after the tokens it was built from. */
  datatype Parsed = Parsed(expr: Expr, next: nat)

  type Outcome = Result<Parsed, ParseError>

  // ---------------------------------------------------------------------------
  // Cursor primitives on an explicit position

  predicate AtEnd(toks: seq<Token>, pos: nat)
    requires pos < |toks|
  {
    toks[pos].kind == Eof
  }

  /** `check`: never true at the end-of-stream marker. */
  predicate CheckAt(toks: seq<Token>, pos: nat, kind: TokenType)
    requires pos < |toks|
  {
    !AtEnd(toks, pos) && toks[pos].kind == kind
  }

  /** `match` succeeds when `check` does for one of the kinds. */
  predicate MatchAt(toks: seq<Token>, pos: nat, kinds: seq<TokenType>)
    requires pos < |toks|
  {
    !AtEnd(toks, pos) && toks[pos].kind in kinds
  }

  // ---------------------------------------------------------------------------
  // Binary precedence levels

  datatype Level = EqualityLevel | ComparisonLevel | TermLevel | FactorLevel

  /** The operator kinds a level folds. */
  function Operators(level: Level): seq<TokenType> {
    match level
    case EqualityLevel => [BangEqual, EqualEqual]
    case ComparisonLevel => [Greater, GreaterEqual, Less, LessEqual]
    case TermLevel => [Minus, Plus]
    case FactorLevel => [Slash, Star]
  }

  /** The level that supplies a binary level's operands; factor takes unary operands. */
  function Next(level: Level): Level
    requires !level.FactorLevel?
  {
    match level
    case EqualityLevel => ComparisonLevel
    case ComparisonLevel => TermLevel
    case TermLevel => FactorLevel
  }

  /** Binding strength: a larger number binds tighter. */
  function LevelPrecedence(level: Level): nat {
    match level
    case EqualityLevel => 1
    case ComparisonLevel => 2
    case TermLevel => 3
    case FactorLevel => 4
  }

  const UnaryPrecedence: nat := 5
  const AtomPrecedence: nat := 6

  /** The precedence of a binary operator kind, and 0 for a kind no level folds. */
  function OperatorPrecedence(kind: TokenType): nat {
    match kind
    case BangEqual | EqualEqual => 1
    case Greater | GreaterEqual | Less | LessEqual => 2
    case Minus | Plus => 3
    case Slash | Star => 4
    case _ => 0
  }

  /** The prefix operators of `unary`, in the order the source tries them. */
  const UnaryOperators: seq<TokenType> := [Bang, Minus]

  predicate IsUnaryOperator(kind: TokenType) {
    kind in UnaryOperators
  }

  /** How tightly the root of a tree binds. */
  function Precedence(e: Expr): nat {
    match e
    case Literal(_) => AtomPrecedence
    case Grouping(_) => AtomPrecedence
    case Unary(_, _) => UnaryPrecedence
    case Binary(_, op, _) => OperatorPrecedence(op.kind)
  }

  /**
   * Termination rank of the grammar functions at one cursor position: the
   * looser the level, the more levels lie between it and `unary`.
   */
  function Depth(level: Level): nat {
    UnaryPrecedence - LevelPrecedence(level)
  }

  // ---------------------------------------------------------------------------
  // Errors

  /** The token kinds with which a `primary` can begin. */
  predicate StartsPrimary(kind: TokenType) {
    kind == False || kind == True || kind == Nil || kind == Number || kind == String || kind == LeftParen
  }

  /**
   * An error as the parser reports it: located at `end` or at the lexeme, and
   * either "Expression expected" at a token that cannot begin a primary or
   * the missing-parenthesis message at a token that is not `)`.
   */
  ghost predicate Reported(e: ParseError) {
    && e.location == (if e.token.kind == Eof then "end" else e.token.lexeme)
    && ((e.message == ExpressionExpected && !StartsPrimary(e.token.kind))
        || (e.message == ParenExpected && e.token.kind != RightParen))
  }

  // ---------------------------------------------------------------------------
  // The descent

  /** `expression`: the loosest level. */
  function ExpressionAt(toks: seq<Token>, pos: nat): (r: Outcome)
    requires WellTerminated(toks) && pos < |toks|
    ensures r.Success? ==> pos < r.value.next < |toks|
    decreases |toks| - pos, 2 * Depth(EqualityLevel) + 2
  {
    BinaryAt(EqualityLevel, toks, pos)
  }

  /** `equality`, `comparison`, `term`, `factor`: one operand, then the fold. */
  function BinaryAt(level: Level, toks: seq<Token>, pos: nat): (r: Outcome)
    requires WellTerminated(toks) && pos < |toks|
    ensures r.Success? ==> pos < r.value.next < |toks|
    decreases |toks| - pos, 2 * Depth(level) + 1
  {
    match OperandAt(level, toks, pos)
    case Failure(e) => Failure(e)
    case Success(first) => FoldAt(level, toks, first.expr, first.next)
  }

  /** An operand of a binary level: the next tighter level, or `unary` below factor. */
  function OperandAt(level: Level, toks: seq<Token>, pos: nat): (r: Outcome)
    requires WellTerminated(toks) && pos < |toks|
    ensures r.Success? ==> pos < r.value.next < |toks|
    decreases |toks| - pos, 2 * Depth(level)
  {
    if level.FactorLevel? then UnaryAt(toks, pos) else BinaryAt(Next(level), toks, pos)
  }

  /**
   * The `while (this.match(...))` loop of a binary level: while the current
   * token is one of the level's operators, consume it and an operand, and make
   * the tree so far the left child of a new Binary node.
   */
  function FoldAt(level: Level, toks: seq<Token>, left: Expr, pos: nat): (r: Outcome)
    requires WellTerminated(toks) && pos < |toks|
    ensures r.Success? ==> pos <= r.value.next < |toks|
    decreases |toks| - pos, 0
  {
    if MatchAt(toks, pos, Operators(level)) then
      match OperandAt(level, toks, pos + 1)
      case Failure(e) => Failure(e)
      case Success(right) => FoldAt(level, toks, Binary(left, toks[pos], right.expr), right.next)
    else
      Success(Parsed(left, pos))
  }

  /** `unary`: a prefix operator applies to a whole `unary`, otherwise `primary`. */
  function UnaryAt(toks: seq<Token>, pos: nat): (r: Outcome)
    requires WellTerminated(toks) && pos < |toks|
    ensures r.Success? ==> pos < r.value.next < |toks|
    decreases |toks| - pos, 1
  {
    if MatchAt(toks, pos, UnaryOperators) then
      match UnaryAt(toks, pos + 1)
      case Failure(e) => Failure(e)
      case Success(right) => Success(Parsed(Unary(toks[pos], right.expr), right.next))
    else
      PrimaryAt(toks, pos)
  }

  /** `primary`: a literal, a parenthesised expression, or "Expression expected". */
  function PrimaryAt(toks: seq<Token>, pos: nat): (r: Outcome)
    requires WellTerminated(toks) && pos < |toks|
    ensures r.Success? ==> pos < r.value.next < |toks|
    decreases |toks| - pos, 0
  {
    if MatchAt(toks, pos, [False]) then Success(Parsed(Literal(BoolValue(false)), pos + 1))
    else if MatchAt(toks, pos, [True]) then Success(Parsed(Literal(BoolValue(true)), pos + 1))
    else if MatchAt(toks, pos, [Nil]) then Success(Parsed(Literal(NilValue), pos + 1))
    else if MatchAt(toks, pos, [Number, String]) then Success(Parsed(Literal(toks[pos].literal), pos + 1))
    else if MatchAt(toks, pos, [LeftParen]) then
      match ExpressionAt(toks, pos + 1)
      case Failure(e) => Failure(e)
      case Success(inner) =>
        // consume(RIGHT_PAREN, ...)
        if CheckAt(toks, inner.next, RightParen) then Success(Parsed(Grouping(inner.expr), inner.next + 1))
        else Failure(LogError(toks[inner.next], ParenExpected))
    else
      Failure(LogError(toks[pos], ExpressionExpected))
  }

  /**
   * `parse`: the tree, or `None` when any rule failed. The token after the
   * tree may be looked at but is not consumed, and nothing after it is read.
   */
  function Parse(toks: seq<Token>): (r: Option<Expr>)
    requires WellTerminated(toks)
    ensures r.Some? <==> ExpressionAt(toks, 0).Success?
    ensures r.Some? ==> r.value == ExpressionAt(toks, 0).value.expr
  {
    match ExpressionAt(toks, 0)
    case Success(p) => Some(p.expr)
    case Failure(_) => None
  }
}
