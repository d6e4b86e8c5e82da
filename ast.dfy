/**
 * The syntax tree of js_bootstrap/ast.js. Each node class there only stores its
 * constructor arguments, so each becomes a constructor of an immutable datatype;
 * the `kind` tag every JavaScript node carries is recovered by `ExprKindOf` and
 * `StmtKindOf`.
 */
module Ast {
  import opened Results

  /** `VariableType`: the only declared variable type the parser keeps. */
  datatype VariableType = U8

  function VariableTypeName(t: VariableType): string {
    match t
    case U8 => "u8"
  }

  /**
   * `VariableType[name]`: the lookup the parser performs on the keyword after `:`.
   * Every other name gives `undefined`, here `None`.
   */
  function LookupVariableType(name: string): (r: Option<VariableType>)
    ensures r.Some? <==> name == "u8"
    ensures r.Some? ==> VariableTypeName(r.value) == name
  {
    if name == "u8" then Some(U8) else None
  }

  datatype ExpressionKind =
    | StringLiteralKind
    | IntLiteralKind
    | IdentifierKind
    | CallKind
    | MemberKind
    | BinaryKind

  datatype Expression =
    | IntegerLiteralExpr(number: nat)
    | StringLiteralExpr(value: string)
    | IdentifierExpr(name: string)
    | CallExpr(callee: Expression, args: seq<Expression>)
    | BinaryExpr(left: Expression, right: Expression, operator: string)

  /** The `kind` tag each expression constructor sets; no node class ever sets `MEMBER`. */
  function ExprKindOf(e: Expression): (k: ExpressionKind)
    ensures k != MemberKind
    ensures k == IntLiteralKind <==> e.IntegerLiteralExpr?
    ensures k == StringLiteralKind <==> e.StringLiteralExpr?
    ensures k == IdentifierKind <==> e.IdentifierExpr?
    ensures k == CallKind <==> e.CallExpr?
    ensures k == BinaryKind <==> e.BinaryExpr?
  {
    match e
    case IntegerLiteralExpr(_) => IntLiteralKind
    case StringLiteralExpr(_) => StringLiteralKind
    case IdentifierExpr(_) => IdentifierKind
    case CallExpr(_, _) => CallKind
    case BinaryExpr(_, _, _) => BinaryKind
  }

  datatype StatementKind =
    | ExpressionKind
    | ReturnKind
    | BlockKind
    | FunctionDeclarationKind
    | VariableDeclarationKind

  /**
   * Statements. A function declaration's body is any single statement, not
   * necessarily a block; a variable declaration's type is `None` where the parser's
   * lookup in `VariableType` gave `undefined`.
   */
  datatype Statement =
    | ExpressionStmt(value: Expression)
    | ReturnStmt(value: Expression)
    | BlockStmt(statements: seq<Statement>)
    | FunctionDeclarationStmt(identifier: string, returnType: string, body: Statement)
    | VariableDeclarationStmt(identifier: string, varType: Option<VariableType>, value: Expression)

  /** The `kind` tag each statement constructor sets. */
  function StmtKindOf(s: Statement): (k: StatementKind)
    ensures k == ExpressionKind <==> s.ExpressionStmt?
    ensures k == ReturnKind <==> s.ReturnStmt?
    ensures k == BlockKind <==> s.BlockStmt?
    ensures k == FunctionDeclarationKind <==> s.FunctionDeclarationStmt?
    ensures k == VariableDeclarationKind <==> s.VariableDeclarationStmt?
  {
    match s
    case ExpressionStmt(_) => ExpressionKind
    case ReturnStmt(_) => ReturnKind
    case BlockStmt(_) => BlockKind
    case FunctionDeclarationStmt(_, _, _) => FunctionDeclarationKind
    case VariableDeclarationStmt(_, _, _) => VariableDeclarationKind
  }

  datatype Program = Program(body: seq<Statement>)
}
