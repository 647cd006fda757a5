/**
 * The `Parser` class of src/parser.ts: a token sequence and a cursor that the
 * grammar methods move forward in place. Each grammar method is proved to
 * compute what the function of the same rule in module Grammar computes from
 * the cursor it starts at, and to leave the cursor where that function says.
 * An exception thrown by `consume` or `primary` is a `Failure` result that
 * every method passes straight up; `parse` turns it into `None`.
 */
module Parsing {
  import opened Wrappers
  import opened Tokens
  import opened Expressions
  import opened Grammar

  /** A method's result with the cursor after it, in the form the grammar functions return. */
  function WithCursor(r: Result<Expr, ParseError>, cursor: nat): Outcome {
    match r
    case Success(e) => Success(Parsed(e, cursor))
    case Failure(err) => Failure(err)
  }

  class Parser {
    const tokens: seq<Token>
    var current: nat

    ghost predicate Valid()
      reads this
    {
      WellTerminated(tokens) && current < |tokens|
    }

    constructor (tokens: seq<Token>)
      requires WellTerminated(tokens)
      ensures Valid() && this.tokens == tokens && current == 0
    {
      this.tokens := tokens;
      current := 0;
    }

    /**
     * `parse`: the tree, or `None` together with the error that `logError`
     * reports. The token after the tree may be looked
     * at but is not consumed.
     */
    method Parse() returns (tree: Option<Expr>, diagnostic: Option<ParseError>)
      requires Valid()
      modifies this
      ensures Valid()
      ensures var spec := ExpressionAt(tokens, old(current));
        && (spec.Success? ==> tree == Some(spec.value.expr) && diagnostic == None && current == spec.value.next)
        && (spec.Failure? ==> tree == None && diagnostic == Some(spec.error))
      ensures old(current) == 0 ==> tree == Grammar.Parse(tokens)
    {
      var r := Expression();
      match r
      case Success(e) =>
        tree, diagnostic := Some(e), None;
      case Failure(err) =>
        tree, diagnostic := None, Some(err);
    }

    method Expression() returns (r: Result<Expr, ParseError>)
      requires Valid()
      modifies this
      ensures Valid()
      ensures WithCursor(r, current) == ExpressionAt(tokens, old(current))
      decreases |tokens| - current, 3 * Depth(EqualityLevel) + 3
    {
      r := Equality();
    }

    method Equality() returns (r: Result<Expr, ParseError>)
      requires Valid()
      modifies this
      ensures Valid()
      ensures WithCursor(r, current) == BinaryAt(EqualityLevel, tokens, old(current))
      decreases |tokens| - current, 3 * Depth(EqualityLevel) + 2
    {
      r := BinaryLevel(EqualityLevel);
    }

    method Comparison() returns (r: Result<Expr, ParseError>)
      requires Valid()
      modifies this
      ensures Valid()
      ensures WithCursor(r, current) == BinaryAt(ComparisonLevel, tokens, old(current))
      decreases |tokens| - current, 3 * Depth(ComparisonLevel) + 2
    {
      r := BinaryLevel(ComparisonLevel);
    }

    method Term() returns (r: Result<Expr, ParseError>)
      requires Valid()
      modifies this
      ensures Valid()
      ensures WithCursor(r, current) == BinaryAt(TermLevel, tokens, old(current))
      decreases |tokens| - current, 3 * Depth(TermLevel) + 2
    {
      r := BinaryLevel(TermLevel);
    }

    method Factor() returns (r: Result<Expr, ParseError>)
      requires Valid()
      modifies this
      ensures Valid()
      ensures WithCursor(r, current) == BinaryAt(FactorLevel, tokens, old(current))
      decreases |tokens| - current, 3 * Depth(FactorLevel) + 2
    {
      r := BinaryLevel(FactorLevel);
    }

    /**
     * The body shared by `equality`, `comparison`, `term` and `factor`: an
     * operand, then the loop that folds further operators into it.
     */
    method BinaryLevel(level: Level) returns (r: Result<Expr, ParseError>)
      requires Valid()
      modifies this
      ensures Valid()
      ensures WithCursor(r, current) == BinaryAt(level, tokens, old(current))
      decreases |tokens| - current, 3 * Depth(level) + 1
    {
      var first := Operand(level);
      if first.Failure? {
        return first;
      }
      r := Fold(level, first.value);
    }

    /**
     * The `while (this.match(...))` loop of a binary level: each operator of
     * the level and the operand after it become a new Binary node whose left
     * child is the tree so far.
     */
    method Fold(level: Level, left: Expr) returns (r: Result<Expr, ParseError>)
      requires Valid()
      modifies this
      ensures Valid()
      ensures WithCursor(r, current) == FoldAt(level, tokens, left, old(current))
      decreases |tokens| - current, 0
    {
      ghost var spec := FoldAt(level, tokens, left, current);
      ghost var at := current;
      var expression := left;
      var matched := Match(Operators(level));
      while matched
        invariant Valid() && old(current) <= at < |tokens|
        invariant current == if matched then at + 1 else at
        invariant matched == MatchAt(tokens, at, Operators(level))
        invariant FoldAt(level, tokens, expression, at) == spec
        decreases |tokens| - current
      {
        var operator := Previous();
        var right := Operand(level);
        if right.Failure? {
          return Failure(right.error);
        }
        expression := Binary(expression, operator, right.value);
        at := current;
        matched := Match(Operators(level));
      }
      return Success(expression);
    }

    /** The operand of a binary level: the next tighter level, and `unary` below `factor`. */
    method Operand(level: Level) returns (r: Result<Expr, ParseError>)
      requires Valid()
      modifies this
      ensures Valid()
      ensures WithCursor(r, current) == OperandAt(level, tokens, old(current))
      decreases |tokens| - current, 3 * Depth(level)
    {
      match level
      case EqualityLevel => r := Comparison();
      case ComparisonLevel => r := Term();
      case TermLevel => r := Factor();
      case FactorLevel => r := Unary();
    }

    method Unary() returns (r: Result<Expr, ParseError>)
      requires Valid()
      modifies this
      ensures Valid()
      ensures WithCursor(r, current) == UnaryAt(tokens, old(current))
      decreases |tokens| - current, 2
    {
      var matched := Match(UnaryOperators);
      if matched {
        var operator := Previous();
        var right := Unary();
        if right.Failure? {
          return right;
        }
        return Success(Expr.Unary(operator, right.value));
      }
      r := Primary();
    }

    method Primary() returns (r: Result<Expr, ParseError>)
      requires Valid()
      modifies this
      ensures Valid()
      ensures WithCursor(r, current) == PrimaryAt(tokens, old(current))
      decreases |tokens| - current, 1
    {
      var matched := Match([False]);
      if matched {
        return Success(Literal(BoolValue(false)));
      }
      matched := Match([True]);
      if matched {
        return Success(Literal(BoolValue(true)));
      }
      matched := Match([Nil]);
      if matched {
        return Success(Literal(NilValue));
      }
      matched := Match([Number, String]);
      if matched {
        var token := Previous();
        return Success(Literal(token.literal));
      }
      matched := Match([LeftParen]);
      if matched {
        var expression := Expression();
        if expression.Failure? {
          return expression;
        }
        var closing := Consume(RightParen, ParenExpected);
        if closing.Failure? {
          return Failure(closing.error);
        }
        return Success(Grouping(expression.value));
      }
      return Failure(LogError(Peek(), ExpressionExpected));
    }

    /** `consume`: advances only when the current token has the expected kind. */
    method Consume(kind: TokenType, message: string) returns (r: Result<Token, ParseError>)
      requires Valid()
      modifies this
      ensures Valid()
      ensures r.Success? <==> CheckAt(tokens, old(current), kind)
      ensures r.Success? ==> r.value == tokens[old(current)] && current == old(current) + 1
      ensures r.Failure? ==> r.error == LogError(tokens[old(current)], message) && current == old(current)
    {
      if Check(kind) {
        var token := Advance();
        return Success(token);
      }
      return Failure(LogError(Peek(), message));
    }

    /** `match`: tries the kinds in order and advances once on the first that `check` accepts. */
    method Match(kinds: seq<TokenType>) returns (matched: bool)
      requires Valid()
      modifies this
      ensures Valid()
      ensures matched == MatchAt(tokens, old(current), kinds)
      ensures current == if matched then old(current) + 1 else old(current)
    {
      for i := 0 to |kinds|
        invariant current == old(current)
        invariant forall j :: 0 <= j < i ==> !Check(kinds[j])
      {
        if Check(kinds[i]) {
          var _ := Advance();
          return true;
        }
      }
      return false;
    }

    /** `check`: the end-of-stream marker matches no kind, which is the same as a bounds test. */
    function Check(kind: TokenType): (b: bool)
      requires Valid()
      reads this
      ensures b <==> current < |tokens| - 1 && tokens[current].kind == kind
    {
      if IsCompleted() then false else Peek().kind == kind
    }

    /** `advance`: moves forward unless at the end-of-stream marker, and returns the token passed. */
    method Advance() returns (token: Token)
      requires Valid()
      modifies this
      ensures Valid()
      ensures current == if old(current) < |tokens| - 1 then old(current) + 1 else old(current)
      ensures old(current) < |tokens| - 1 ==> token == tokens[old(current)]
      ensures old(current) == |tokens| - 1 ==> token == tokens[if old(current) == 0 then 0 else old(current) - 1]
    {
      if !IsCompleted() {
        current := current + 1;
      }
      token := Previous();
    }

    /** `peek`: the current token; it is the end-of-stream marker only at the last index. */
    function Peek(): (token: Token)
      requires Valid()
      reads this
      ensures token == tokens[current]
      ensures token.kind == Eof <==> current == |tokens| - 1
    {
      tokens[current]
    }

    /**
     * `previous`: the token before the cursor, clamped to the first token
     * before anything is consumed; it is the end-of-stream marker only when
     * that marker is the whole input.
     */
    function Previous(): (token: Token)
      requires Valid()
      reads this
      ensures 0 < current ==> token == tokens[current - 1]
      ensures current == 0 ==> token == tokens[0]
      ensures token.kind == Eof ==> |tokens| == 1
    {
      tokens[if current == 0 then 0 else current - 1]
    }

    /** `isCompleted`: detecting the end-of-stream marker is detecting the last index. */
    function IsCompleted(): (b: bool)
      requires Valid()
      reads this
      ensures b <==> current == |tokens| - 1
    {
      Peek().kind == Eof
    }
  }
}
