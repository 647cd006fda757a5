/**
 * Tokens as the lexer hands them to the parser. The lexer and src/token.ts are
 * not part of this model; only the fields the parser reads are kept.
 */
module Tokens {

  /** The token kinds of the language. */
  datatype TokenType =
    // single-character tokens
    | LeftParen | RightParen | LeftBrace | RightBrace
    | Comma | Dot | Minus | Plus | Semicolon | Slash | Star
    // one- or two-character tokens
    | Bang | BangEqual | Equal | EqualEqual
    | Greater | GreaterEqual | Less | LessEqual
    // literals
    | Identifier | String | Number
    // keywords
    | And | Class | Else | False | Fun | For | If | Nil | Or
    | Print | Return | Super | This | True | Var | While
    // the end-of-stream marker
    | Eof

  /**
   * A literal value. Numbers are JavaScript floats in the source; the parser
   * only copies them from a token into a tree, so they are kept as plain reals.
   */
  datatype Value =
    | NilValue
    | BoolValue(b: bool)
    | NumberValue(n: real)
    | StringValue(s: string)

  datatype Token = Token(kind: TokenType, lexeme: string, literal: Value, line: nat)

  /**
   * What the parser assumes of its input: a non-empty sequence whose last
   * token, and only that one, is the end-of-stream marker.
   */
  ghost predicate WellTerminated(toks: seq<Token>) {
    && |toks| > 0
    && toks[|toks| - 1].kind == Eof
    && forall i :: 0 <= i < |toks| - 1 ==> toks[i].kind != Eof
  }
}
