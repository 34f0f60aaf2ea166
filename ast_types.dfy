/** The syntax tree (ast/types.go). The Statement and Expression interfaces
    of the source are closed here: one datatype per interface, one
    constructor per node struct. Optional children (the else branch, the
    initialiser of a declaration) are `Option`s, and the target of an
    assignment is an `Identifier`, not an arbitrary expression. */
module AstTypes {
  import opened Common

  datatype Identifier = Identifier(value: string)

  /** A parameter of a function: its name and its type text. */
  datatype FormalArg = FormalArg(arg: string, argType: string)

  datatype Expression =
    | IdentifierNode(ident: Identifier)
    | AssignExpression(operator: string, left: Identifier, right: Expression)
      /** The literal keeps its decimal text, not a number. */
    | IntegerLiteral(value: string)
    | PrefixExpression(operator: string, operand: Expression)
    | InfixExpression(operator: string, lhs: Expression, rhs: Expression)

  datatype Statement =
    | DeclStatement(declared: Identifier, initializer: Option<Expression>, declType: string)
    | ExpStatement(expression: Expression)
    | FunctionStatement(name: string, parameters: seq<FormalArg>, body: BlockStatement, returnType: string)
    | ReturnStatement(returnValue: Expression)
    | Block(block: BlockStatement)
    | IfStatement(condition: Expression, thenBody: Statement, elseBody: Option<Statement>)

  /** BlockStatement is both a statement (the Block constructor) and the type
      of a function body. */
  datatype BlockStatement = BlockStatement(statements: seq<Statement>)

  /** The root: top-level functions and top-level statements, kept apart. */
  datatype Program = Program(statements: seq<Statement>, functions: seq<Statement>)
}
