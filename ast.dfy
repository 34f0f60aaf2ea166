/** The node constructors and kind names of the syntax tree (ast/ast.go).
    In the source every constructor takes untyped arguments and fails with an
    error when a type assertion does not hold; here the arguments are typed,
    so those failures cannot occur and the constructors are total. */
module Ast {
  import opened Common
  import opened LexerTypes
  import opened AstTypes

  /** TokenLiteral of an expression node: the name of its node kind. */
  function ExpressionLiteral(e: Expression): (s: string)
    ensures |s| > 0
  {
    match e
    case IdentifierNode(_) => "Identifier"
    case AssignExpression(_, _, _) => "AssignExpression"
    case IntegerLiteral(_) => "IntegerLiteral"
    case PrefixExpression(_, _) => "PrefixExpression"
    case InfixExpression(_, _, _) => "InfixExpression"
  }

  /** TokenLiteral of a statement node. */
  function StatementLiteral(s: Statement): (r: string)
    ensures |r| > 0
  {
    match s
    case DeclStatement(_, _, _) => "DeclStatement"
    case ExpStatement(_) => "ExpStatement"
    case FunctionStatement(_, _, _, _) => "FunctionStatement"
    case ReturnStatement(_) => "ReturnStatement"
    case Block(_) => "BlockStatement"
    case IfStatement(_, _, _) => "IfStatement"
  }

  /** Program.String */
  function ProgramString(p: Program): string
  {
    "Program"
  }

  predicate SameExpressionKind(a: Expression, b: Expression)
  {
    && a.IdentifierNode? == b.IdentifierNode?
    && a.AssignExpression? == b.AssignExpression?
    && a.IntegerLiteral? == b.IntegerLiteral?
    && a.PrefixExpression? == b.PrefixExpression?
    && a.InfixExpression? == b.InfixExpression?
  }

  predicate SameStatementKind(a: Statement, b: Statement)
  {
    && a.DeclStatement? == b.DeclStatement?
    && a.ExpStatement? == b.ExpStatement?
    && a.FunctionStatement? == b.FunctionStatement?
    && a.ReturnStatement? == b.ReturnStatement?
    && a.Block? == b.Block?
    && a.IfStatement? == b.IfStatement?
  }

  /** Each node kind has its own name: two nodes report the same
      TokenLiteral exactly when they are of the same kind, no statement
      shares a name with an expression, and neither with the program. */
  lemma LiteralsNameKinds(a: Expression, b: Expression, s: Statement, t: Statement, p: Program)
    ensures ExpressionLiteral(a) == ExpressionLiteral(b) <==> SameExpressionKind(a, b)
    ensures StatementLiteral(s) == StatementLiteral(t) <==> SameStatementKind(s, t)
    ensures ExpressionLiteral(a) != StatementLiteral(s)
    ensures ProgramString(p) != ExpressionLiteral(a) && ProgramString(p) != StatementLiteral(s)
  {
  }

  function NewProgram(funcs: seq<Statement>, stmts: seq<Statement>): (p: Program)
    ensures p.functions == funcs && p.statements == stmts
  {
    Program(stmts, funcs)
  }

  function NewStatementList(): (l: seq<Statement>)
    ensures |l| == 0
  {
    []
  }

  /** Go's append: the list grows by one at the end, in order. */
  function AppendStatement(stmtList: seq<Statement>, stmt: Statement): (l: seq<Statement>)
    ensures |l| == |stmtList| + 1 && l[..|stmtList|] == stmtList && l[|stmtList|] == stmt
  {
    stmtList + [stmt]
  }

  function NewBlockStatement(stmts: seq<Statement>): (b: BlockStatement)
    ensures b.statements == stmts
  {
    BlockStatement(stmts)
  }

  function NewReturnStatement(exp: Expression): (s: Statement)
    ensures s.ReturnStatement? && s.returnValue == exp
  {
    ReturnStatement(exp)
  }

  /** The declared name and the type are the texts of their tokens; there
      is an initialiser exactly when one is given. */
  function NewDeclStatement(varType: Token, left: Token, right: Option<Expression>): (s: Statement)
    ensures s.DeclStatement? && s.declared.value == Text(left.value) && s.declType == Text(varType.value)
    ensures s.initializer.None? <==> right.None?
    ensures right.Some? ==> s.initializer == right
  {
    DeclStatement(Identifier(Text(left.value)), right, Text(varType.value))
  }

  /** The operator is the operator token's text and the target is the
      identifier named by the left token. */
  function NewAssignExpression(operator: Token, left: Token, right: Expression): (e: Expression)
    ensures e.AssignExpression? && e.operator == Text(operator.value)
    ensures e.left.value == Text(left.value) && e.right == right
  {
    AssignExpression(Text(operator.value), Identifier(Text(left.value)), right)
  }

  function NewIdentifier(id: Token): (e: Expression)
    ensures e.IdentifierNode? && e.ident.value == Text(id.value)
  {
    IdentifierNode(Identifier(Text(id.value)))
  }

  function NewExpStatement(exp: Expression): (s: Statement)
    ensures s.ExpStatement? && s.expression == exp
  {
    ExpStatement(exp)
  }

  function NewIntegerLiteral(integer: Token): (e: Expression)
    ensures e.IntegerLiteral? && e.value == Text(integer.value)
  {
    IntegerLiteral(Text(integer.value))
  }

  function NewPrefixExpression(operator: Token, expression: Expression): (e: Expression)
    ensures e.PrefixExpression? && e.operator == Text(operator.value) && e.operand == expression
  {
    PrefixExpression(Text(operator.value), expression)
  }

  function NewInfixExpression(operator: Token, left: Expression, right: Expression): (e: Expression)
    ensures e.InfixExpression? && e.operator == Text(operator.value) && e.lhs == left && e.rhs == right
  {
    InfixExpression(Text(operator.value), left, right)
  }

  /** Without an argument list the function has no parameters; the name and
      the return type are the texts of their tokens. */
  function NewFunctionStatement(name: Token, args: Option<seq<FormalArg>>, ret: Token, block: BlockStatement): (s: Statement)
    ensures s.FunctionStatement? && s.name == Text(name.value) && s.returnType == Text(ret.value)
    ensures s.body == block
    ensures s.parameters == (if args.None? then [] else args.value)
  {
    FunctionStatement(Text(name.value), if args.None? then [] else args.value, block, Text(ret.value))
  }

  /** There is an else branch exactly when one is given. */
  function NewIfStatement(cond: Expression, body: Statement, elseBody: Option<Statement>): (s: Statement)
    ensures s.IfStatement? && s.condition == cond && s.thenBody == body
    ensures s.elseBody.None? <==> elseBody.None?
    ensures elseBody.Some? ==> s.elseBody == elseBody
  {
    IfStatement(cond, body, elseBody)
  }
}
