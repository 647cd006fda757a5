/**
 * A declarative account of the trees the grammar admits, independent of the
 * descent in module Grammar: which trees have the shape precedence and
 * associativity demand (Shaped), which token runs spell a tree (SpelledAt),
 * and a printer that spells any tree (Render).
 */
module Trees {
  import opened Tokens
  import opened Expressions
  import opened Grammar

  /**
   * Precedence and associativity as a property of the tree: a Binary node's
   * operator belongs to some level, its left child binds at least as tightly
   * (so equal operators nest to the left) and its right child binds strictly
   * more tightly; a Unary operator is `!` or `-` and applies to a unary or an
   * atom. Grouping resets precedence.
   */
  ghost predicate Shaped(e: Expr) {
    match e
    case Literal(_) => true
    case Grouping(inner) => Shaped(inner)
    case Unary(op, right) =>
      && IsUnaryOperator(op.kind)
      && Precedence(right) >= UnaryPrecedence
      && Shaped(right)
    case Binary(left, op, right) =>
      && OperatorPrecedence(op.kind) > 0
      && Precedence(left) >= OperatorPrecedence(op.kind)
      && Precedence(right) > OperatorPrecedence(op.kind)
      && Shaped(left)
      && Shaped(right)
  }

  /** The number of tokens that spell a tree. */
  function Width(e: Expr): nat {
    match e
    case Literal(_) => 1
    case Grouping(inner) => Width(inner) + 2
    case Unary(_, right) => Width(right) + 1
    case Binary(left, _, right) => Width(left) + 1 + Width(right)
  }

  /** A token spells a literal value: the keyword literals, or a NUMBER/STRING token carrying it. */
  predicate LiteralSpelling(t: Token, v: Value) {
    || (t.kind == False && v == BoolValue(false))
    || (t.kind == True && v == BoolValue(true))
    || (t.kind == Nil && v == NilValue)
    || ((t.kind == Number || t.kind == String) && t.literal == v)
  }

  /** The tokens from `pos` on spell `e`; operator tokens appear in the tree as they are. */
  ghost predicate SpelledAt(toks: seq<Token>, pos: nat, e: Expr)
    decreases e
  {
    match e
    case Literal(v) =>
      pos < |toks| && LiteralSpelling(toks[pos], v)
    case Grouping(inner) =>
      && pos < |toks| && toks[pos].kind == LeftParen
      && SpelledAt(toks, pos + 1, inner)
      && pos + 1 + Width(inner) < |toks| && toks[pos + 1 + Width(inner)].kind == RightParen
    case Unary(op, right) =>
      && pos < |toks| && toks[pos] == op
      && SpelledAt(toks, pos + 1, right)
    case Binary(left, op, right) =>
      && SpelledAt(toks, pos, left)
      && pos + Width(left) < |toks| && toks[pos + Width(left)] == op
      && SpelledAt(toks, pos + Width(left) + 1, right)
  }

  /** The token a literal value is printed as (lexeme and line are not read by the parser). */
  function LiteralToken(v: Value): (t: Token)
    ensures LiteralSpelling(t, v)
  {
    match v
    case NilValue => Token(Nil, "nil", NilValue, 0)
    case BoolValue(b) => if b then Token(True, "true", NilValue, 0) else Token(False, "false", NilValue, 0)
    case NumberValue(_) => Token(Number, "", v, 0)
    case StringValue(_) => Token(String, "", v, 0)
  }

  /** Prints a tree as tokens, with parentheses exactly where the tree has Grouping nodes. */
  function Render(e: Expr): seq<Token> {
    match e
    case Literal(v) => [LiteralToken(v)]
    case Grouping(inner) =>
      [Token(LeftParen, "(", NilValue, 0)] + Render(inner) + [Token(RightParen, ")", NilValue, 0)]
    case Unary(op, right) => [op] + Render(right)
    case Binary(left, op, right) => Render(left) + [op] + Render(right)
  }
}
