/**
 * What the descent computes: it succeeds on exactly the token sequences that
 * spell a Shaped tree followed by a token that is not a binary operator, and
 * it then returns that tree.
 */
module GrammarProofs {
  import opened Wrappers
  import opened Tokens
  import opened Expressions
  import opened Grammar
  import opened Trees

  /** The result `p` of parsing from `start` spells a Shaped tree and ends where that spelling ends. */
  ghost predicate Derives(toks: seq<Token>, start: nat, p: Parsed) {
    && Shaped(p.expr)
    && SpelledAt(toks, start, p.expr)
    && p.next == start + Width(p.expr)
    && p.next < |toks|
  }

  /** A kind is one of a level's operators exactly when its precedence is that level's. */
  lemma {:induction false} OperatorOfLevel(level: Level, kind: TokenType)
    ensures kind in Operators(level) <==> OperatorPrecedence(kind) == LevelPrecedence(level)
  {
  }

  /** `check` compares kinds, except that it never holds at the end-of-stream marker. */
  lemma {:induction false} CheckAtKind(toks: seq<Token>, pos: nat, kind: TokenType)
    requires pos < |toks|
    ensures CheckAt(toks, pos, kind) <==> kind != Eof && toks[pos].kind == kind
  {
  }

  /** The test of `match` is `check` tried on each listed kind in turn. */
  lemma {:induction false} MatchAtSomeCheck(toks: seq<Token>, pos: nat, kinds: seq<TokenType>)
    requires pos < |toks|
    ensures MatchAt(toks, pos, kinds) <==> exists i :: 0 <= i < |kinds| && CheckAt(toks, pos, kinds[i])
  {
    if MatchAt(toks, pos, kinds) {
      var i :| 0 <= i < |kinds| && kinds[i] == toks[pos].kind;
      assert CheckAt(toks, pos, kinds[i]);
    }
  }

  lemma {:induction false} ShapedBindsAtLeastEquality(e: Expr)
    requires Shaped(e)
    ensures Precedence(e) >= LevelPrecedence(EqualityLevel)
  {
  }

  // ---------------------------------------------------------------------------
  // Soundness: every tree the descent returns is Shaped and spelled by the
  // tokens it consumed, and the token after it is not an operator of the level.

  lemma {:induction false} ExpressionAtSound(toks: seq<Token>, pos: nat)
    requires WellTerminated(toks) && pos < |toks|
    ensures var r := ExpressionAt(toks, pos);
      r.Success? ==> Derives(toks, pos, r.value) && OperatorPrecedence(toks[r.value.next].kind) == 0
    decreases |toks| - pos, 2 * Depth(EqualityLevel) + 2
  {
    BinaryAtSound(EqualityLevel, toks, pos);
  }

  lemma {:induction false} BinaryAtSound(level: Level, toks: seq<Token>, pos: nat)
    requires WellTerminated(toks) && pos < |toks|
    ensures var r := BinaryAt(level, toks, pos);
      r.Success? ==>
        && Derives(toks, pos, r.value)
        && Precedence(r.value.expr) >= LevelPrecedence(level)
        && OperatorPrecedence(toks[r.value.next].kind) < LevelPrecedence(level)
    decreases |toks| - pos, 2 * Depth(level) + 1
  {
    OperandAtSound(level, toks, pos);
    var first := OperandAt(level, toks, pos);
    if first.Success? {
      FoldAtSound(level, toks, pos, first.value.expr, first.value.next);
    }
  }

  lemma {:induction false} OperandAtSound(level: Level, toks: seq<Token>, pos: nat)
    requires WellTerminated(toks) && pos < |toks|
    ensures var r := OperandAt(level, toks, pos);
      r.Success? ==>
        && Derives(toks, pos, r.value)
        && Precedence(r.value.expr) > LevelPrecedence(level)
        && OperatorPrecedence(toks[r.value.next].kind) <= LevelPrecedence(level)
    decreases |toks| - pos, 2 * Depth(level)
  {
    if level.FactorLevel? {
      UnaryAtSound(toks, pos);
    } else {
      BinaryAtSound(Next(level), toks, pos);
    }
  }

  lemma {:induction false} FoldAtSound(level: Level, toks: seq<Token>, start: nat, left: Expr, pos: nat)
    requires WellTerminated(toks) && pos < |toks|
    requires Derives(toks, start, Parsed(left, pos))
    requires Precedence(left) >= LevelPrecedence(level)
    requires OperatorPrecedence(toks[pos].kind) <= LevelPrecedence(level)
    ensures var r := FoldAt(level, toks, left, pos);
      r.Success? ==>
        && Derives(toks, start, r.value)
        && Precedence(r.value.expr) >= LevelPrecedence(level)
        && OperatorPrecedence(toks[r.value.next].kind) < LevelPrecedence(level)
    decreases |toks| - pos, 0
  {
    OperatorOfLevel(level, toks[pos].kind);
    if MatchAt(toks, pos, Operators(level)) {
      OperandAtSound(level, toks, pos + 1);
      var right := OperandAt(level, toks, pos + 1);
      if right.Success? {
        DerivesBinary(toks, start, left, pos, right.value);
        FoldAtSound(level, toks, start, Binary(left, toks[pos], right.value.expr), right.value.next);
      }
    }
  }

  /** An operator between two derived trees that bind tighter derives their Binary node. */
  lemma {:induction false} DerivesBinary(toks: seq<Token>, start: nat, left: Expr, pos: nat, right: Parsed)
    requires Derives(toks, start, Parsed(left, pos)) && Derives(toks, pos + 1, right)
    requires OperatorPrecedence(toks[pos].kind) > 0
    requires Precedence(left) >= OperatorPrecedence(toks[pos].kind)
    requires Precedence(right.expr) > OperatorPrecedence(toks[pos].kind)
    ensures Derives(toks, start, Parsed(Binary(left, toks[pos], right.expr), right.next))
  {
    var e := Binary(left, toks[pos], right.expr);
    assert Shaped(e);
    assert SpelledAt(toks, start, e);
  }

  lemma {:induction false} UnaryAtSound(toks: seq<Token>, pos: nat)
    requires WellTerminated(toks) && pos < |toks|
    ensures var r := UnaryAt(toks, pos);
      r.Success? ==> Derives(toks, pos, r.value) && Precedence(r.value.expr) >= UnaryPrecedence
    decreases |toks| - pos, 1
  {
    if MatchAt(toks, pos, UnaryOperators) {
      UnaryAtSound(toks, pos + 1);
    } else {
      PrimaryAtSound(toks, pos);
    }
  }

  lemma {:induction false} PrimaryAtSound(toks: seq<Token>, pos: nat)
    requires WellTerminated(toks) && pos < |toks|
    ensures var r := PrimaryAt(toks, pos);
      r.Success? ==> Derives(toks, pos, r.value) && Precedence(r.value.expr) == AtomPrecedence
    decreases |toks| - pos, 0
  {
    if MatchAt(toks, pos, [LeftParen]) {
      ExpressionAtSound(toks, pos + 1);
      var inner := ExpressionAt(toks, pos + 1);
      if inner.Success? && CheckAt(toks, inner.value.next, RightParen) {
        DerivesGrouping(toks, pos, inner.value);
      }
    } else {
      LiteralSound(toks, pos);
    }
  }

  /** The literal alternatives of `primary` consume one token that spells the literal. */
  lemma {:induction false} LiteralSound(toks: seq<Token>, pos: nat)
    requires WellTerminated(toks) && pos < |toks| && !MatchAt(toks, pos, [LeftParen])
    ensures var r := PrimaryAt(toks, pos);
      r.Success? ==> Derives(toks, pos, r.value) && r.value.expr.Literal?
  {
    var r := PrimaryAt(toks, pos);
    if r.Success? {
      assert LiteralSpelling(toks[pos], r.value.expr.value);
    }
  }

  /** A derived tree between `(` and `)` derives its Grouping node. */
  lemma {:induction false} DerivesGrouping(toks: seq<Token>, pos: nat, inner: Parsed)
    requires WellTerminated(toks) && pos < |toks| && toks[pos].kind == LeftParen
    requires Derives(toks, pos + 1, inner) && CheckAt(toks, inner.next, RightParen)
    ensures Derives(toks, pos, Parsed(Grouping(inner.expr), inner.next + 1))
  {
  }

  // ---------------------------------------------------------------------------
  // Diagnostics: every failure is "Expression expected" at a token that cannot
  // begin a primary, or the missing-parenthesis message at a token that is not
  // `)`, located at "end" for the end-of-stream marker and at the lexeme otherwise.

  lemma {:induction false} ExpressionAtReports(toks: seq<Token>, pos: nat)
    requires WellTerminated(toks) && pos < |toks|
    ensures var r := ExpressionAt(toks, pos); r.Failure? ==> Reported(r.error)
    decreases |toks| - pos, 2 * Depth(EqualityLevel) + 2
  {
    BinaryAtReports(EqualityLevel, toks, pos);
  }

  lemma {:induction false} BinaryAtReports(level: Level, toks: seq<Token>, pos: nat)
    requires WellTerminated(toks) && pos < |toks|
    ensures var r := BinaryAt(level, toks, pos); r.Failure? ==> Reported(r.error)
    decreases |toks| - pos, 2 * Depth(level) + 1
  {
    OperandAtReports(level, toks, pos);
    var first := OperandAt(level, toks, pos);
    if first.Success? {
      FoldAtReports(level, toks, first.value.expr, first.value.next);
    }
  }

  lemma {:induction false} OperandAtReports(level: Level, toks: seq<Token>, pos: nat)
    requires WellTerminated(toks) && pos < |toks|
    ensures var r := OperandAt(level, toks, pos); r.Failure? ==> Reported(r.error)
    decreases |toks| - pos, 2 * Depth(level)
  {
    if level.FactorLevel? {
      UnaryAtReports(toks, pos);
    } else {
      BinaryAtReports(Next(level), toks, pos);
    }
  }

  lemma {:induction false} FoldAtReports(level: Level, toks: seq<Token>, left: Expr, pos: nat)
    requires WellTerminated(toks) && pos < |toks|
    ensures var r := FoldAt(level, toks, left, pos); r.Failure? ==> Reported(r.error)
    decreases |toks| - pos, 0
  {
    if MatchAt(toks, pos, Operators(level)) {
      OperandAtReports(level, toks, pos + 1);
      var right := OperandAt(level, toks, pos + 1);
      if right.Success? {
        FoldAtReports(level, toks, Binary(left, toks[pos], right.value.expr), right.value.next);
      }
    }
  }

  lemma {:induction false} UnaryAtReports(toks: seq<Token>, pos: nat)
    requires WellTerminated(toks) && pos < |toks|
    ensures var r := UnaryAt(toks, pos); r.Failure? ==> Reported(r.error)
    decreases |toks| - pos, 1
  {
    if MatchAt(toks, pos, UnaryOperators) {
      UnaryAtReports(toks, pos + 1);
    } else {
      PrimaryAtReports(toks, pos);
    }
  }

  lemma {:induction false} PrimaryAtReports(toks: seq<Token>, pos: nat)
    requires WellTerminated(toks) && pos < |toks|
    ensures var r := PrimaryAt(toks, pos); r.Failure? ==> Reported(r.error)
    decreases |toks| - pos, 0
  {
    if MatchAt(toks, pos, [LeftParen]) {
      ExpressionAtReports(toks, pos + 1);
    }
  }

  // ---------------------------------------------------------------------------
  // Completeness: a Shaped tree spelled at `pos` is what the descent returns.
  // A binary level continues its fold after the tree, so its lemma states the
  // result as the fold that resumes at the end of the spelling.

  lemma {:induction false} ExpressionAtComplete(toks: seq<Token>, pos: nat, e: Expr)
    requires WellTerminated(toks) && Shaped(e) && SpelledAt(toks, pos, e)
    requires pos + Width(e) < |toks| && OperatorPrecedence(toks[pos + Width(e)].kind) == 0
    ensures ExpressionAt(toks, pos) == Success(Parsed(e, pos + Width(e)))
    decreases e, 4 * Depth(EqualityLevel) + 4
  {
    ShapedBindsAtLeastEquality(e);
    BinaryAtComplete(EqualityLevel, toks, pos, e);
    OperatorOfLevel(EqualityLevel, toks[pos + Width(e)].kind);
  }

  lemma {:induction false} BinaryAtComplete(level: Level, toks: seq<Token>, pos: nat, e: Expr)
    requires WellTerminated(toks) && Shaped(e) && SpelledAt(toks, pos, e)
    requires pos + Width(e) < |toks|
    requires Precedence(e) >= LevelPrecedence(level)
    requires OperatorPrecedence(toks[pos + Width(e)].kind) <= LevelPrecedence(level)
    ensures BinaryAt(level, toks, pos) == FoldAt(level, toks, e, pos + Width(e))
    decreases e, 4 * Depth(level) + 3
  {
    if Precedence(e) > LevelPrecedence(level) {
      OperandAtComplete(level, toks, pos, e);
      FoldAtStart(level, toks, pos, Parsed(e, pos + Width(e)));
    } else {
      ChainAtComplete(level, toks, pos, e);
    }
  }

  /** A Shaped tree whose root binds exactly at `level` is a Binary node and is spelled part by part. */
  lemma {:induction false} SpelledBinary(level: Level, toks: seq<Token>, pos: nat, e: Expr)
    requires Shaped(e) && SpelledAt(toks, pos, e) && pos + Width(e) < |toks|
    requires Precedence(e) == LevelPrecedence(level)
    ensures e.Binary? && Shaped(e.left) && Shaped(e.right)
    ensures OperatorPrecedence(e.operator.kind) == LevelPrecedence(level)
    ensures Precedence(e.left) >= LevelPrecedence(level) && Precedence(e.right) > LevelPrecedence(level)
    ensures SpelledAt(toks, pos, e.left) && toks[pos + Width(e.left)] == e.operator
    ensures SpelledAt(toks, pos + Width(e.left) + 1, e.right)
    ensures Width(e) == Width(e.left) + 1 + Width(e.right)
  {
  }

  /** A binary level folds from its first operand. */
  lemma {:induction false} FoldAtStart(level: Level, toks: seq<Token>, pos: nat, first: Parsed)
    requires WellTerminated(toks) && pos < |toks|
    requires OperandAt(level, toks, pos) == Success(first)
    ensures BinaryAt(level, toks, pos) == FoldAt(level, toks, first.expr, first.next)
  {
  }

  /** A token whose precedence is the level's is matched by the level's loop. */
  lemma {:induction false} OperatorMatches(level: Level, toks: seq<Token>, pos: nat)
    requires pos < |toks| && OperatorPrecedence(toks[pos].kind) == LevelPrecedence(level)
    ensures MatchAt(toks, pos, Operators(level))
  {
    OperatorOfLevel(level, toks[pos].kind);
  }

  /** One round of a level's loop: an operator of the level and a parsed operand. */
  lemma {:induction false} FoldAtStep(level: Level, toks: seq<Token>, left: Expr, pos: nat, right: Parsed)
    requires WellTerminated(toks) && pos < |toks|
    requires MatchAt(toks, pos, Operators(level)) && OperandAt(level, toks, pos + 1) == Success(right)
    ensures FoldAt(level, toks, left, pos) == FoldAt(level, toks, Binary(left, toks[pos], right.expr), right.next)
  {
  }

  /** A tree whose top operator belongs to `level`: its left side is the level's own chain. */
  lemma {:induction false} ChainAtComplete(level: Level, toks: seq<Token>, pos: nat, e: Expr)
    requires WellTerminated(toks) && Shaped(e) && SpelledAt(toks, pos, e)
    requires pos + Width(e) < |toks|
    requires Precedence(e) == LevelPrecedence(level)
    requires OperatorPrecedence(toks[pos + Width(e)].kind) <= LevelPrecedence(level)
    ensures BinaryAt(level, toks, pos) == FoldAt(level, toks, e, pos + Width(e))
    decreases e, 4 * Depth(level) + 2
  {
    SpelledBinary(level, toks, pos, e);
    var mid := pos + Width(e.left);
    assert mid + 1 + Width(e.right) == pos + Width(e);
    assert OperatorPrecedence(toks[mid].kind) == LevelPrecedence(level);
    OperatorStepComplete(level, toks, mid, e.left, e.right);
    BinaryAtComplete(level, toks, pos, e.left);
  }

  /** The loop round after the left side: the operator at `pos` and the operand spelled after it. */
  lemma {:induction false} OperatorStepComplete(level: Level, toks: seq<Token>, pos: nat, left: Expr, right: Expr)
    requires WellTerminated(toks) && Shaped(right) && Precedence(right) > LevelPrecedence(level)
    requires pos + 1 + Width(right) < |toks| && OperatorPrecedence(toks[pos].kind) == LevelPrecedence(level)
    requires SpelledAt(toks, pos + 1, right)
    requires OperatorPrecedence(toks[pos + 1 + Width(right)].kind) <= LevelPrecedence(level)
    ensures FoldAt(level, toks, left, pos) == FoldAt(level, toks, Binary(left, toks[pos], right), pos + 1 + Width(right))
    decreases right, 4 * Depth(level) + 1
  {
    OperandAtComplete(level, toks, pos + 1, right);
    OperatorMatches(level, toks, pos);
    FoldAtStep(level, toks, left, pos, Parsed(right, pos + 1 + Width(right)));
  }

  lemma {:induction false} OperandAtComplete(level: Level, toks: seq<Token>, pos: nat, e: Expr)
    requires WellTerminated(toks) && Shaped(e) && SpelledAt(toks, pos, e)
    requires pos + Width(e) < |toks|
    requires Precedence(e) > LevelPrecedence(level)
    requires OperatorPrecedence(toks[pos + Width(e)].kind) <= LevelPrecedence(level)
    ensures OperandAt(level, toks, pos) == Success(Parsed(e, pos + Width(e)))
    decreases e, 4 * Depth(level)
  {
    if level.FactorLevel? {
      UnaryAtComplete(toks, pos, e);
    } else {
      BinaryAtComplete(Next(level), toks, pos, e);
      OperatorOfLevel(Next(level), toks[pos + Width(e)].kind);
    }
  }

  lemma {:induction false} UnaryAtComplete(toks: seq<Token>, pos: nat, e: Expr)
    requires WellTerminated(toks) && Shaped(e) && SpelledAt(toks, pos, e)
    requires pos + Width(e) < |toks|
    requires Precedence(e) >= UnaryPrecedence
    ensures UnaryAt(toks, pos) == Success(Parsed(e, pos + Width(e)))
    decreases e, 1
  {
    if e.Unary? {
      SpelledUnary(toks, pos, e);
      UnaryAtComplete(toks, pos + 1, e.right);
      UnaryAtOperator(toks, pos, Parsed(e.right, pos + Width(e)));
    } else {
      SpelledPrimary(toks, pos, e);
      PrimaryAtComplete(toks, pos, e);
      UnaryAtPrimary(toks, pos);
    }
  }

  lemma {:induction false} SpelledUnary(toks: seq<Token>, pos: nat, e: Expr)
    requires e.Unary? && Shaped(e) && SpelledAt(toks, pos, e)
    ensures pos < |toks| && toks[pos] == e.operator && IsUnaryOperator(e.operator.kind)
    ensures Shaped(e.right) && Precedence(e.right) >= UnaryPrecedence
    ensures SpelledAt(toks, pos + 1, e.right) && Width(e) == Width(e.right) + 1
  {
  }

  lemma {:induction false} SpelledPrimary(toks: seq<Token>, pos: nat, e: Expr)
    requires Precedence(e) >= UnaryPrecedence && !e.Unary? && SpelledAt(toks, pos, e)
    ensures e.Literal? || e.Grouping?
    ensures pos < |toks| && !IsUnaryOperator(toks[pos].kind)
  {
  }

  lemma {:induction false} PrimaryAtComplete(toks: seq<Token>, pos: nat, e: Expr)
    requires WellTerminated(toks) && Shaped(e) && SpelledAt(toks, pos, e)
    requires pos + Width(e) < |toks|
    requires e.Literal? || e.Grouping?
    ensures PrimaryAt(toks, pos) == Success(Parsed(e, pos + Width(e)))
    decreases e, 0
  {
    match e
    case Grouping(inner) =>
      ExpressionAtComplete(toks, pos + 1, inner);
      PrimaryAtGrouping(toks, pos, Parsed(inner, pos + 1 + Width(inner)));
    case Literal(v) =>
      PrimaryAtLiteral(toks, pos, v);
  }

  // One step of the descent, each stated on its own so that the proofs above
  // need not unfold the rules.

  lemma {:induction false} UnaryAtOperator(toks: seq<Token>, pos: nat, right: Parsed)
    requires WellTerminated(toks) && pos < |toks| && IsUnaryOperator(toks[pos].kind)
    requires UnaryAt(toks, pos + 1) == Success(right)
    ensures UnaryAt(toks, pos) == Success(Parsed(Unary(toks[pos], right.expr), right.next))
  {
    assert MatchAt(toks, pos, UnaryOperators);
  }

  lemma {:induction false} UnaryAtPrimary(toks: seq<Token>, pos: nat)
    requires WellTerminated(toks) && pos < |toks| && !IsUnaryOperator(toks[pos].kind)
    ensures UnaryAt(toks, pos) == PrimaryAt(toks, pos)
  {
    assert !MatchAt(toks, pos, UnaryOperators);
  }

  lemma {:induction false} PrimaryAtGrouping(toks: seq<Token>, pos: nat, inner: Parsed)
    requires WellTerminated(toks) && pos < |toks| && toks[pos].kind == LeftParen
    requires ExpressionAt(toks, pos + 1) == Success(inner) && CheckAt(toks, inner.next, RightParen)
    ensures PrimaryAt(toks, pos) == Success(Parsed(Grouping(inner.expr), inner.next + 1))
  {
    assert MatchAt(toks, pos, [LeftParen]);
  }

  lemma {:induction false} PrimaryAtLiteral(toks: seq<Token>, pos: nat, v: Value)
    requires WellTerminated(toks) && pos < |toks| && LiteralSpelling(toks[pos], v)
    ensures PrimaryAt(toks, pos) == Success(Parsed(Literal(v), pos + 1))
  {
  }

  // ---------------------------------------------------------------------------
  // The parser's contract

  /** `toks` spells the Shaped tree `e` and the token after it is not a binary operator. */
  ghost predicate Accepts(toks: seq<Token>, e: Expr) {
    && Shaped(e)
    && SpelledAt(toks, 0, e)
    && Width(e) < |toks|
    && OperatorPrecedence(toks[Width(e)].kind) == 0
  }

  /**
   * `parse` returns `e` exactly when the tokens spell the Shaped tree `e`
   * followed by a token no binary level folds; tokens after that are ignored.
   * Every other input yields `None`.
   */
  lemma {:induction false} ParseCharacterized(toks: seq<Token>, e: Expr)
    requires WellTerminated(toks)
    ensures Parse(toks) == Some(e) <==> Accepts(toks, e)
  {
    ExpressionAtSound(toks, 0);
    if Accepts(toks, e) {
      ExpressionAtComplete(toks, 0, e);
    }
  }

  /** `parse` fails exactly when no tree is accepted. */
  lemma {:induction false} ParseFails(toks: seq<Token>)
    requires WellTerminated(toks)
    ensures Parse(toks).None? <==> forall e :: !Accepts(toks, e)
  {
    if Parse(toks).Some? {
      ParseCharacterized(toks, Parse(toks).value);
    } else {
      forall e ensures !Accepts(toks, e) {
        ParseCharacterized(toks, e);
      }
    }
  }

  // ---------------------------------------------------------------------------
  // Printing and parsing

  /** The tokens from `pos` on begin with `s`. */
  ghost predicate Occurs(toks: seq<Token>, pos: nat, s: seq<Token>) {
    && pos + |s| <= |toks|
    && forall i :: 0 <= i < |s| ==> toks[pos + i] == s[i]
  }

  /** Each part of a three-part sequence occurs where the parts before it end. */
  lemma {:induction false} OccursSplit(toks: seq<Token>, pos: nat, a: seq<Token>, b: seq<Token>, c: seq<Token>)
    requires Occurs(toks, pos, a + b + c)
    ensures Occurs(toks, pos, a)
    ensures Occurs(toks, pos + |a|, b)
    ensures Occurs(toks, pos + |a| + |b|, c)
  {
    var s := a + b + c;
    forall i | 0 <= i < |a| ensures toks[pos + i] == a[i] {
      assert s[i] == a[i];
    }
    forall i | 0 <= i < |b| ensures toks[pos + |a| + i] == b[i] {
      assert s[|a| + i] == b[i];
    }
    forall i | 0 <= i < |c| ensures toks[pos + |a| + |b| + i] == c[i] {
      assert s[|a| + |b| + i] == c[i];
    }
  }

  /** A tree prints as one token per token of its spelling. */
  lemma {:induction false} RenderWidth(e: Expr)
    ensures |Render(e)| == Width(e)
  {
    match e
    case Literal(_) =>
    case Grouping(inner) =>
      RenderWidth(inner);
    case Unary(_, right) =>
      RenderWidth(right);
    case Binary(left, _, right) =>
      RenderWidth(left);
      RenderWidth(right);
  }

  /** Where a Grouping is printed: the parentheses around the printed inner tree. */
  lemma {:induction false} GroupingRendered(toks: seq<Token>, pos: nat, inner: Expr)
    requires Occurs(toks, pos, Render(Grouping(inner)))
    ensures toks[pos].kind == LeftParen && Occurs(toks, pos + 1, Render(inner))
    ensures pos + 1 + |Render(inner)| < |toks| && toks[pos + 1 + |Render(inner)|].kind == RightParen
  {
    var r := Render(Grouping(inner));
    var open, close := r[0], r[|r| - 1];
    assert r == [open] + Render(inner) + [close];
    OccursSplit(toks, pos, [open], Render(inner), [close]);
    assert toks[pos + 0] == [open][0];
    assert toks[pos + 1 + |Render(inner)| + 0] == [close][0];
  }

  /** Where a Unary is printed: its operator, then the printed operand. */
  lemma {:induction false} UnaryRendered(toks: seq<Token>, pos: nat, op: Token, right: Expr)
    requires Occurs(toks, pos, Render(Unary(op, right)))
    ensures toks[pos] == op && Occurs(toks, pos + 1, Render(right))
  {
    assert Render(Unary(op, right)) == [op] + Render(right) + [];
    OccursSplit(toks, pos, [op], Render(right), []);
    assert toks[pos + 0] == [op][0];
  }

  /** Where a Binary is printed: the printed left side, its operator, the printed right side. */
  lemma {:induction false} BinaryRendered(toks: seq<Token>, pos: nat, left: Expr, op: Token, right: Expr)
    requires Occurs(toks, pos, Render(Binary(left, op, right)))
    ensures Occurs(toks, pos, Render(left))
    ensures pos + |Render(left)| < |toks| && toks[pos + |Render(left)|] == op
    ensures Occurs(toks, pos + |Render(left)| + 1, Render(right))
  {
    OccursSplit(toks, pos, Render(left), [op], Render(right));
    assert toks[pos + |Render(left)| + 0] == [op][0];
  }

  /** Printed tokens spell the tree they were printed from. */
  lemma {:induction false} RenderSpells(toks: seq<Token>, pos: nat, e: Expr)
    requires Occurs(toks, pos, Render(e))
    ensures SpelledAt(toks, pos, e)
    decreases e
  {
    match e
    case Literal(_) =>
      assert toks[pos + 0] == Render(e)[0];
    case Grouping(inner) =>
      GroupingRendered(toks, pos, inner);
      RenderSpells(toks, pos + 1, inner);
      RenderWidth(inner);
    case Unary(op, right) =>
      UnaryRendered(toks, pos, op, right);
      RenderSpells(toks, pos + 1, right);
    case Binary(left, op, right) =>
      BinaryRendered(toks, pos, left, op, right);
      RenderSpells(toks, pos, left);
      RenderSpells(toks, pos + |Render(left)| + 1, right);
      RenderWidth(left);
  }

  predicate NoEof(s: seq<Token>) {
    forall i :: 0 <= i < |s| ==> s[i].kind != Eof
  }

  lemma {:induction false} RenderAvoidsEof(e: Expr)
    requires Shaped(e)
    ensures NoEof(Render(e))
    decreases e
  {
    match e
    case Literal(_) =>
    case Grouping(inner) =>
      RenderAvoidsEof(inner);
    case Unary(_, right) =>
      RenderAvoidsEof(right);
    case Binary(left, _, right) =>
      RenderAvoidsEof(left);
      RenderAvoidsEof(right);
  }

  /** Tokens without an end-of-stream marker keep a well-terminated sequence well terminated. */
  lemma {:induction false} PrefixTerminated(prefix: seq<Token>, rest: seq<Token>)
    requires NoEof(prefix) && WellTerminated(rest)
    ensures WellTerminated(prefix + rest)
  {
    var s := prefix + rest;
    forall i | 0 <= i < |s| - 1 ensures s[i].kind != Eof {
      if i < |prefix| {
        assert s[i] == prefix[i];
      } else {
        assert s[i] == rest[i - |prefix|];
      }
    }
  }

  /** The middle part of a concatenation occurs where the first part ends. */
  lemma {:induction false} OccursAfter(a: seq<Token>, b: seq<Token>, c: seq<Token>)
    ensures Occurs(a + b + c, |a|, b)
  {
    forall i | 0 <= i < |b| ensures (a + b + c)[|a| + i] == b[i] {
    }
  }

  /**
   * Round trip: parsing the printed form of a Shaped tree gives the tree back,
   * whatever well-terminated tokens follow it, provided the first of them is
   * not a binary operator.
   */
  lemma {:induction false} ParseRender(e: Expr, rest: seq<Token>)
    requires Shaped(e) && WellTerminated(rest)
    requires OperatorPrecedence(rest[0].kind) == 0
    ensures WellTerminated(Render(e) + rest)
    ensures Parse(Render(e) + rest) == Some(e)
  {
    var toks := Render(e) + rest;
    RenderAvoidsEof(e);
    RenderWidth(e);
    PrefixTerminated(Render(e), rest);
    OccursAfter([], Render(e), rest);
    RenderSpells(toks, 0, e);
    ParseCharacterized(toks, e);
  }
}
