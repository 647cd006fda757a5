/**
 * The statement nodes of src/statement.ts. The `Visitor<T>` interface is a
 * record of its four handlers, and each node class's `accept` is one case of
 * a match that calls the handler for the node's own variant on the node.
 */
module Statements {
  import opened Wrappers
  import opened Tokens
  import opened Expressions

  /**
   * The closed set of statements: no fields, one expression, one expression,
   * and a name token with an optional initializer (`null` in the source).
   */
  datatype Statement =
    | EmptyStatement
    | ExpressionStatement(expression: Expr)
    | PrintStatement(expression: Expr)
    | VariableStatement(name: Token, initializer: Option<Expr>)

  /** `Visitor<T>`: one handler per variant, each given the node it visits. */
  datatype Visitor<T> = Visitor(
    visitEmptyStatement: Statement -> T,
    visitExpressionStatement: Statement -> T,
    visitPrintStatement: Statement -> T,
    visitVariableStatement: Statement -> T)

  /** The names of the four handlers. */
  datatype Handler = VisitEmpty | VisitExpression | VisitPrint | VisitVariable

  function HandlerOf<T>(v: Visitor<T>, h: Handler): Statement -> T {
    match h
    case VisitEmpty => v.visitEmptyStatement
    case VisitExpression => v.visitExpressionStatement
    case VisitPrint => v.visitPrintStatement
    case VisitVariable => v.visitVariableStatement
  }

  /** Which handler a node's `accept` calls: each variant its own, and no two variants the same. */
  function Dispatch(s: Statement): (h: Handler)
    ensures h == VisitEmpty <==> s.EmptyStatement?
    ensures h == VisitExpression <==> s.ExpressionStatement?
    ensures h == VisitPrint <==> s.PrintStatement?
    ensures h == VisitVariable <==> s.VariableStatement?
  {
    match s
    case EmptyStatement => VisitEmpty
    case ExpressionStatement(_) => VisitExpression
    case PrintStatement(_) => VisitPrint
    case VariableStatement(_, _) => VisitVariable
  }

  /** `accept`: the result of the node's own handler, called on the node itself. */
  function Accept<T>(s: Statement, v: Visitor<T>): (r: T)
    ensures r == HandlerOf(v, Dispatch(s))(s)
  {
    match s
    case EmptyStatement => v.visitEmptyStatement(s)
    case ExpressionStatement(_) => v.visitExpressionStatement(s)
    case PrintStatement(_) => v.visitPrintStatement(s)
    case VariableStatement(_, _) => v.visitVariableStatement(s)
  }

  /** Two visitors that agree on a node's own handler give that node the same result. */
  lemma {:induction false} AcceptIgnoresOtherHandlers<T>(s: Statement, v: Visitor<T>, w: Visitor<T>)
    requires HandlerOf(v, Dispatch(s)) == HandlerOf(w, Dispatch(s))
    ensures Accept(s, v) == Accept(s, w)
  {
  }

  /** A visitor whose handlers return the node they are given. */
  function Echo(): Visitor<Statement> {
    Visitor(s => s, s => s, s => s, s => s)
  }

  /** `accept` hands the handler the node itself, fields unchanged. */
  lemma {:induction false} AcceptPassesTheNode(s: Statement)
    ensures Accept(s, Echo()) == s
  {
  }
}
