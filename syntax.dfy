/**
 * The syntax trees shared by the parser, the tree printer, the evaluator and
 * the resolver.  Expression nodes that the resolver records a binding depth
 * for carry a node `id`, which stands for the object identity the resolver's
 * side table is keyed by.  Node kinds that only the resolver visits hold
 * exactly the fields it reads.
 */
module Syntax {
  import opened Wrappers
  import opened Tokens

  /** The value a `Literal` node holds: nothing, a boolean, a number or a string. */
  datatype LiteralValue =
    | NilValue
    | BoolValue(boolean: bool)
    | NumberValue(number: real)
    | StringValue(text: string)

  datatype Expr =
    | Literal(value: LiteralValue)
    | Grouping(expression: Expr)
    | Unary(operator: Token, rhs: Expr)
    | Binary(lhs: Expr, operator: Token, rhs: Expr)
    | Logical(lhs: Expr, rhs: Expr)
    | Variable(id: nat, name: Token)
    | Assignment(id: nat, name: Token, newValue: Expr)
    | Call(callee: Expr, arguments: seq<Expr>)
    | Get(receiver: Expr)
    | Set(receiver: Expr, newValue: Expr)
    | This(id: nat, keyword: Token)

  /** A function declaration: its name, its parameter names and its body. */
  datatype FunctionDecl = FunctionDecl(name: Token, parameters: seq<Token>, body: seq<Stmt>)

  datatype Stmt =
    | ExpressionStmt(expression: Expr)
    | VarStmt(name: Token, initializer: Option<Expr>)
    | PrintStmt(expression: Expr)
    | BlockStmt(statements: seq<Stmt>)
    | ClassStmt(name: Token, methods: seq<FunctionDecl>)
    | FunctionStmt(declaration: FunctionDecl)
    | IfStmt(condition: Expr, thenBranch: Stmt, elseBranch: Option<Stmt>)
    | ReturnStmt(keyword: Token, value: Option<Expr>)
    | WhileStmt(condition: Expr, body: Stmt)

  /**
   * The node kinds the expression parser builds and the tree printer and the
   * evaluator visit: literals, groupings, unary and binary operations.
   */
  predicate BasicExpr(e: Expr) {
    match e
    case Literal(_) => true
    case Grouping(inner) => BasicExpr(inner)
    case Unary(_, rhs) => BasicExpr(rhs)
    case Binary(lhs, _, rhs) => BasicExpr(lhs) && BasicExpr(rhs)
    case _ => false
  }

  /** The literal a number or string token carries, as a literal node value. */
  function LiteralOf(literal: Option<TokenLiteral>): LiteralValue {
    match literal
    case None => NilValue
    case Some(NumberLiteral(n)) => NumberValue(n)
    case Some(StringLiteral(s)) => StringValue(s)
  }
}
