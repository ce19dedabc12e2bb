/**
 * The syntax tree (the Go package `ast`, which is not part of this model).
 * A Go nil child or expression is `None`.
 */
module Ast {
  import opened Wrappers
  import opened Token
  import opened Strconv

  datatype Expression =
    | IntegerLiteral(token: Token, value: Int64)
    | InfixExpression(token: Token, operator: string, left: Option<Expression>, right: Option<Expression>)

  datatype Statement = ExpressionStatement(token: Token, expression: Option<Expression>)

  datatype Program = Program(statements: seq<Statement>)

  /** The values `Compile` accepts through its `ast.Node` parameter. */
  datatype Node =
    | ProgramNode(program: Program)
    | StatementNode(statement: Statement)
    | ExpressionNode(expression: Expression)

  /** Every infix node, at any depth, has both operands. */
  predicate Complete(e: Expression) {
    match e
    case IntegerLiteral(_, _) => true
    case InfixExpression(_, _, left, right) =>
      && left.Some? && Complete(left.value)
      && right.Some? && Complete(right.value)
  }

  /** Every infix node, at any depth, has a left operand; a right one may
    * be missing. */
  predicate LeftOperands(e: Expression) {
    match e
    case IntegerLiteral(_, _) => true
    case InfixExpression(_, _, left, right) =>
      && left.Some? && LeftOperands(left.value)
      && (right.Some? ==> LeftOperands(right.value))
  }

  /** The number of infix nodes in the tree. */
  function InfixCount(e: Expression): nat {
    match e
    case IntegerLiteral(_, _) => 0
    case InfixExpression(_, _, left, right) =>
      1 + (if left.Some? then InfixCount(left.value) else 0)
        + (if right.Some? then InfixCount(right.value) else 0)
  }

  /** Every infix node's operator is one of the four arithmetic symbols. */
  predicate ArithmeticOperators(e: Expression) {
    match e
    case IntegerLiteral(_, _) => true
    case InfixExpression(_, op, left, right) =>
      && op in {"+", "-", "*", "/"}
      && (left.Some? ==> ArithmeticOperators(left.value))
      && (right.Some? ==> ArithmeticOperators(right.value))
  }
}
