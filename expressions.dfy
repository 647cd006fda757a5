/** The expression nodes the parser builds (src/expression.ts is not part of this model). */
module Expressions {
  import opened Tokens

  datatype Expr =
    | Literal(value: Value)
    | Grouping(inner: Expr)
    | Unary(operator: Token, right: Expr)
    | Binary(left: Expr, operator: Token, right: Expr)
}
