/**
 * Consequences of the parser's contract for the properties the grammar is
 * meant to have, and the behaviour on a few concrete token sequences.
 */
module GrammarExamples {
  import opened Wrappers
  import opened Tokens
  import opened Expressions
  import opened Grammar
  import opened Trees
  import opened GrammarProofs

  lemma {:induction false} SeqAssoc<T>(a: seq<T>, b: seq<T>, c: seq<T>)
    ensures a + b + c == a + (b + c)
  {
  }

  /** Operators of one level fold to the left: `a o1 b o2 c` is `(a o1 b) o2 c`. */
  lemma {:induction false} LeftAssociative(a: Expr, o1: Token, b: Expr, o2: Token, c: Expr, rest: seq<Token>)
    requires OperatorPrecedence(o1.kind) > 0 && OperatorPrecedence(o2.kind) == OperatorPrecedence(o1.kind)
    requires Shaped(a) && Shaped(b) && Shaped(c)
    requires Precedence(a) >= OperatorPrecedence(o1.kind)
    requires Precedence(b) > OperatorPrecedence(o1.kind) && Precedence(c) > OperatorPrecedence(o1.kind)
    requires WellTerminated(rest) && OperatorPrecedence(rest[0].kind) == 0
    ensures WellTerminated(Render(a) + [o1] + Render(b) + [o2] + Render(c) + rest)
    ensures Parse(Render(a) + [o1] + Render(b) + [o2] + Render(c) + rest) == Some(Binary(Binary(a, o1, b), o2, c))
  {
    var e := Binary(Binary(a, o1, b), o2, c);
    ParseRender(e, rest);
    assert Render(e) + rest == Render(a) + [o1] + Render(b) + [o2] + Render(c) + rest;
  }

  /** A tighter operator on the right takes its operands first: `a lo b hi c` is `a lo (b hi c)`. */
  lemma {:induction false} TighterOperatorOnRight(a: Expr, lo: Token, b: Expr, hi: Token, c: Expr, rest: seq<Token>)
    requires 0 < OperatorPrecedence(lo.kind) < OperatorPrecedence(hi.kind)
    requires Shaped(a) && Shaped(b) && Shaped(c)
    requires Precedence(a) >= OperatorPrecedence(lo.kind)
    requires Precedence(b) >= OperatorPrecedence(hi.kind) && Precedence(c) > OperatorPrecedence(hi.kind)
    requires WellTerminated(rest) && OperatorPrecedence(rest[0].kind) == 0
    ensures WellTerminated(Render(a) + [lo] + Render(b) + [hi] + Render(c) + rest)
    ensures Parse(Render(a) + [lo] + Render(b) + [hi] + Render(c) + rest) == Some(Binary(a, lo, Binary(b, hi, c)))
  {
    var ra, rb, rc := Render(a), Render(b), Render(c);
    var e := Binary(a, lo, Binary(b, hi, c));
    assert Shaped(e);
    ParseRender(e, rest);
    calc {
      Render(e) + rest;
      (ra + [lo]) + (rb + [hi] + rc) + rest;
      { SeqAssoc(ra + [lo], rb + [hi] + rc, rest); }
      (ra + [lo]) + ((rb + [hi] + rc) + rest);
      { SeqAssoc(rb + [hi], rc, rest); SeqAssoc(rb, [hi], rc + rest); }
      (ra + [lo]) + (rb + ([hi] + (rc + rest)));
      { SeqAssoc(ra + [lo], rb, [hi] + (rc + rest)); }
      (ra + [lo] + rb) + ([hi] + (rc + rest));
      { SeqAssoc(ra + [lo] + rb, [hi], rc + rest); }
      (ra + [lo] + rb + [hi]) + (rc + rest);
      { SeqAssoc(ra + [lo] + rb + [hi], rc, rest); }
      ra + [lo] + rb + [hi] + rc + rest;
    }
  }

  /** A tighter operator on the left takes its operands first: `a hi b lo c` is `(a hi b) lo c`. */
  lemma {:induction false} TighterOperatorOnLeft(a: Expr, hi: Token, b: Expr, lo: Token, c: Expr, rest: seq<Token>)
    requires 0 < OperatorPrecedence(lo.kind) < OperatorPrecedence(hi.kind)
    requires Shaped(a) && Shaped(b) && Shaped(c)
    requires Precedence(a) >= OperatorPrecedence(hi.kind) && Precedence(b) > OperatorPrecedence(hi.kind)
    requires Precedence(c) > OperatorPrecedence(lo.kind)
    requires WellTerminated(rest) && OperatorPrecedence(rest[0].kind) == 0
    ensures WellTerminated(Render(a) + [hi] + Render(b) + [lo] + Render(c) + rest)
    ensures Parse(Render(a) + [hi] + Render(b) + [lo] + Render(c) + rest) == Some(Binary(Binary(a, hi, b), lo, c))
  {
    var e := Binary(Binary(a, hi, b), lo, c);
    assert Shaped(e);
    ParseRender(e, rest);
    assert Render(e) + rest == Render(a) + [hi] + Render(b) + [lo] + Render(c) + rest;
  }

  /** Prefix operators nest to the right: `o1 o2 e` is `o1 (o2 e)`. */
  lemma {:induction false} UnaryNestsRight(o1: Token, o2: Token, e: Expr, rest: seq<Token>)
    requires IsUnaryOperator(o1.kind) && IsUnaryOperator(o2.kind)
    requires Shaped(e) && Precedence(e) >= UnaryPrecedence
    requires WellTerminated(rest) && OperatorPrecedence(rest[0].kind) == 0
    ensures WellTerminated([o1, o2] + Render(e) + rest)
    ensures Parse([o1, o2] + Render(e) + rest) == Some(Unary(o1, Unary(o2, e)))
  {
    var u := Unary(o1, Unary(o2, e));
    assert Shaped(u);
    ParseRender(u, rest);
    calc {
      Render(u) + rest;
      [o1] + ([o2] + Render(e)) + rest;
      { SeqAssoc([o1], [o2], Render(e)); assert [o1] + [o2] == [o1, o2]; }
      [o1, o2] + Render(e) + rest;
    }
  }

  /** `false`, `true` and `nil` give those values; NUMBER and STRING give the token's literal. */
  lemma {:induction false} LiteralsMapDirectly(t: Token, rest: seq<Token>)
    requires t.kind in [False, True, Nil, Number, String]
    requires WellTerminated(rest) && OperatorPrecedence(rest[0].kind) == 0
    ensures WellTerminated([t] + rest)
    ensures t.kind == False ==> Parse([t] + rest) == Some(Literal(BoolValue(false)))
    ensures t.kind == True ==> Parse([t] + rest) == Some(Literal(BoolValue(true)))
    ensures t.kind == Nil ==> Parse([t] + rest) == Some(Literal(NilValue))
    ensures t.kind == Number || t.kind == String ==> Parse([t] + rest) == Some(Literal(t.literal))
  {
    var toks := [t] + rest;
    var v := match t.kind
      case False => BoolValue(false)
      case True => BoolValue(true)
      case Nil => NilValue
      case _ => t.literal;
    assert Accepts(toks, Literal(v));
    ParseCharacterized(toks, Literal(v));
  }

  /**
   * Parentheses produce a Grouping node around what they enclose, and
   * dropping them gives back the enclosed tree.
   */
  lemma {:induction false} GroupingWraps(e: Expr, open: Token, close: Token, rest: seq<Token>)
    requires Shaped(e) && open.kind == LeftParen && close.kind == RightParen
    requires WellTerminated(rest) && OperatorPrecedence(rest[0].kind) == 0
    ensures WellTerminated([open] + Render(e) + [close] + rest)
    ensures Parse([open] + Render(e) + [close] + rest) == Some(Grouping(e))
    ensures WellTerminated(Render(e) + rest) && Parse(Render(e) + rest) == Some(e)
  {
    var toks := [open] + Render(e) + [close] + rest;
    GroupedTerminated(e, open, close, rest);
    GroupedSpelling(e, open, close, rest);
    assert Accepts(toks, Grouping(e));
    ParseCharacterized(toks, Grouping(e));
    ParseRender(e, rest);
  }

  /** A printed tree between parentheses, before well-terminated tokens, is well terminated. */
  lemma {:induction false} GroupedTerminated(e: Expr, open: Token, close: Token, rest: seq<Token>)
    requires Shaped(e) && open.kind == LeftParen && close.kind == RightParen && WellTerminated(rest)
    ensures WellTerminated([open] + Render(e) + [close] + rest)
  {
    var inside := [open] + Render(e) + [close];
    RenderAvoidsEof(e);
    assert NoEof(inside) by {
      forall i | 0 <= i < |inside| ensures inside[i].kind != Eof {
        if 0 < i <= |Render(e)| {
          assert inside[i] == Render(e)[i - 1];
        }
      }
    }
    PrefixTerminated(inside, rest);
  }

  /** A printed tree between parentheses spells the Grouping of the tree. */
  lemma {:induction false} GroupedSpelling(e: Expr, open: Token, close: Token, rest: seq<Token>)
    requires open.kind == LeftParen && close.kind == RightParen && |rest| > 0
    ensures var toks := [open] + Render(e) + [close] + rest;
      && SpelledAt(toks, 0, Grouping(e))
      && Width(Grouping(e)) < |toks| && toks[Width(Grouping(e))] == rest[0]
  {
    var toks := [open] + Render(e) + [close] + rest;
    RenderWidth(e);
    SeqAssoc([open] + Render(e), [close], rest);
    SeqAssoc([open], Render(e), [close] + rest);
    OccursAfter([open], Render(e), [close] + rest);
    RenderSpells(toks, 1, e);
    assert toks[0] == open && toks[1 + Width(e)] == close;
    assert toks[2 + Width(e)] == rest[0];
  }

  // ---------------------------------------------------------------------------
  // Concrete token sequences

  function NumberToken(n: nat): Token {
    Token(Number, "n", NumberValue(n as real), 1)
  }

  function Op(kind: TokenType, lexeme: string): Token {
    Token(kind, lexeme, NilValue, 1)
  }

  const EndToken: Token := Token(Eof, "", NilValue, 1)

  function Num(n: nat): Expr {
    Literal(NumberValue(n as real))
  }

  /** `1 - 2 - 3` is `(1 - 2) - 3`. */
  lemma {:induction false} MinusChain()
    ensures var toks := [NumberToken(1), Op(Minus, "-"), NumberToken(2), Op(Minus, "-"), NumberToken(3), EndToken];
      WellTerminated(toks) && Parse(toks) == Some(Binary(Binary(Num(1), Op(Minus, "-"), Num(2)), Op(Minus, "-"), Num(3)))
  {
    var toks := [NumberToken(1), Op(Minus, "-"), NumberToken(2), Op(Minus, "-"), NumberToken(3), EndToken];
    var e := Binary(Binary(Num(1), Op(Minus, "-"), Num(2)), Op(Minus, "-"), Num(3));
    assert SpelledAt(toks, 0, e.left);
    assert Accepts(toks, e);
    ParseCharacterized(toks, e);
  }

  /** `1 + 2 * 3` is `1 + (2 * 3)`. */
  lemma {:induction false} SumOfProduct()
    ensures var toks := [NumberToken(1), Op(Plus, "+"), NumberToken(2), Op(Star, "*"), NumberToken(3), EndToken];
      WellTerminated(toks) && Parse(toks) == Some(Binary(Num(1), Op(Plus, "+"), Binary(Num(2), Op(Star, "*"), Num(3))))
  {
    var toks := [NumberToken(1), Op(Plus, "+"), NumberToken(2), Op(Star, "*"), NumberToken(3), EndToken];
    var e := Binary(Num(1), Op(Plus, "+"), Binary(Num(2), Op(Star, "*"), Num(3)));
    assert SpelledAt(toks, 2, e.right);
    assert Accepts(toks, e);
    ParseCharacterized(toks, e);
  }

  /** `- - 1` is `-(-1)`. */
  lemma {:induction false} DoubleNegation()
    ensures var toks := [Op(Minus, "-"), Op(Minus, "-"), NumberToken(1), EndToken];
      WellTerminated(toks) && Parse(toks) == Some(Unary(Op(Minus, "-"), Unary(Op(Minus, "-"), Num(1))))
  {
    var toks := [Op(Minus, "-"), Op(Minus, "-"), NumberToken(1), EndToken];
    var e := Unary(Op(Minus, "-"), Unary(Op(Minus, "-"), Num(1)));
    assert Accepts(toks, e);
    ParseCharacterized(toks, e);
  }

  /** `( 1 + 2 )` is a Grouping of `1 + 2`. */
  lemma {:induction false} GroupedSum()
    ensures var toks := [Op(LeftParen, "("), NumberToken(1), Op(Plus, "+"), NumberToken(2), Op(RightParen, ")"), EndToken];
      WellTerminated(toks) && Parse(toks) == Some(Grouping(Binary(Num(1), Op(Plus, "+"), Num(2))))
  {
    var toks := [Op(LeftParen, "("), NumberToken(1), Op(Plus, "+"), NumberToken(2), Op(RightParen, ")"), EndToken];
    var e := Grouping(Binary(Num(1), Op(Plus, "+"), Num(2)));
    assert Accepts(toks, e);
    ParseCharacterized(toks, e);
  }

  /** `1 2`: the second number is looked at but not consumed. */
  lemma {:induction false} TrailingTokenIgnored()
    ensures var toks := [NumberToken(1), NumberToken(2), EndToken];
      WellTerminated(toks) && Parse(toks) == Some(Num(1))
  {
    var toks := [NumberToken(1), NumberToken(2), EndToken];
    assert Accepts(toks, Num(1));
    ParseCharacterized(toks, Num(1));
  }

  /** An error in the leftmost operand is the error of the whole expression. */
  lemma {:induction false} LeadingErrorReachesTop(toks: seq<Token>, pos: nat)
    requires WellTerminated(toks) && pos < |toks| && UnaryAt(toks, pos).Failure?
    ensures ExpressionAt(toks, pos) == UnaryAt(toks, pos)
  {
    assert OperandAt(FactorLevel, toks, pos) == UnaryAt(toks, pos);
    assert BinaryAt(FactorLevel, toks, pos) == UnaryAt(toks, pos);
    assert OperandAt(TermLevel, toks, pos) == UnaryAt(toks, pos);
    assert BinaryAt(TermLevel, toks, pos) == UnaryAt(toks, pos);
    assert OperandAt(ComparisonLevel, toks, pos) == UnaryAt(toks, pos);
    assert BinaryAt(ComparisonLevel, toks, pos) == UnaryAt(toks, pos);
    assert OperandAt(EqualityLevel, toks, pos) == UnaryAt(toks, pos);
    assert BinaryAt(EqualityLevel, toks, pos) == UnaryAt(toks, pos);
  }

  /** `1 +`: the missing operand is reported at the end of input. */
  lemma {:induction false} MissingOperand()
    ensures var toks := [NumberToken(1), Op(Plus, "+"), EndToken];
      WellTerminated(toks) && ExpressionAt(toks, 0) == Failure(ParseError(EndToken, "end", ExpressionExpected))
  {
    var toks := [NumberToken(1), Op(Plus, "+"), EndToken];
    var err := Failure(ParseError(EndToken, "end", ExpressionExpected));
    assert UnaryAt(toks, 2) == err;
    assert OperandAt(FactorLevel, toks, 2) == err;
    assert OperandAt(TermLevel, toks, 2) == err;
    assert SpelledAt(toks, 0, Num(1));
    OperandAtComplete(TermLevel, toks, 0, Num(1));
    assert FoldAt(TermLevel, toks, Num(1), 1) == err;
    assert OperandAt(ComparisonLevel, toks, 0) == err;
    assert OperandAt(EqualityLevel, toks, 0) == err;
  }

  /** `(` alone: the group has no expression, reported at the end of input. */
  lemma {:induction false} LoneParenthesis()
    ensures var toks := [Op(LeftParen, "("), EndToken];
      WellTerminated(toks) && ExpressionAt(toks, 0) == Failure(ParseError(EndToken, "end", ExpressionExpected))
  {
    var toks := [Op(LeftParen, "("), EndToken];
    assert UnaryAt(toks, 1) == Failure(ParseError(EndToken, "end", ExpressionExpected));
    LeadingErrorReachesTop(toks, 1);
    LeadingErrorReachesTop(toks, 0);
  }

  /** `( 1`: the missing `)` is reported at the end of input. */
  lemma {:induction false} UnclosedGroup()
    ensures var toks := [Op(LeftParen, "("), NumberToken(1), EndToken];
      WellTerminated(toks) && ExpressionAt(toks, 0) == Failure(ParseError(EndToken, "end", ParenExpected))
  {
    var toks := [Op(LeftParen, "("), NumberToken(1), EndToken];
    assert SpelledAt(toks, 1, Num(1));
    ExpressionAtComplete(toks, 1, Num(1));
    assert UnaryAt(toks, 0) == Failure(ParseError(EndToken, "end", ParenExpected));
    LeadingErrorReachesTop(toks, 0);
  }

  /** `)`: a token that starts no expression is reported by its lexeme. */
  lemma {:induction false} StrayParenthesis()
    ensures var toks := [Op(RightParen, ")"), EndToken];
      WellTerminated(toks) && ExpressionAt(toks, 0) == Failure(ParseError(Op(RightParen, ")"), ")", ExpressionExpected))
  {
    var toks := [Op(RightParen, ")"), EndToken];
    assert UnaryAt(toks, 0) == Failure(ParseError(Op(RightParen, ")"), ")", ExpressionExpected));
    LeadingErrorReachesTop(toks, 0);
  }
}
