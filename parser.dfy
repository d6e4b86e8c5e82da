/**
 * The recursive-descent parser of js_bootstrap/parser.js.
 *
 * Each parsing routine of the `Parser` class has a specification function of the
 * same shape that takes the token sequence and the cursor on entry and returns the
 * node built together with the cursor left behind (`Parsed`), or the error thrown.
 * The routines work by moving the cursor forward, with a one-step `backup`, and the
 * functions follow them step for step, so the quirks of the source are kept: an
 * expression leaves the cursor on its last token, a block does not consume its
 * closing brace, `+` associates to the right, and a comma is never a token.
 *
 * Termination: every routine either fails or returns a cursor no smaller than the
 * one it started with; a routine that calls a routine of the same group at the
 * same cursor has a larger rank (the second component of `decreases`).
 */
module Parsing {
  import opened Results
  import opened Lexing
  import opened Ast

  datatype ParseError =
    | UnexpectedToken(expected: TokenKind, got: Token) // the `throw` in `expect`
    | NotImplemented(at: Token)                        // a `TODO()`: no rule starts with this token

  /** A node, and the cursor position the routine that built it leaves behind. */
  datatype Parsed<T> = Parsed(node: T, next: nat)

  /** The sentinel the accessors return past the end of the tokens. */
  const EofToken := Token(EndOfFile, "")

  function TokenAt(tokens: seq<Token>, i: int): Token
    requires 0 <= i
  {
    if i >= |tokens| then EofToken else tokens[i]
  }

  /** Tokens left from cursor `i`: the first component of every termination measure. */
  function Remaining(tokens: seq<Token>, i: int): nat {
    if i < |tokens| then |tokens| - i else 0
  }

  /** `expect(kind)` with the cursor at `i`: it advances, then checks the new current token. */
  function ExpectAt(tokens: seq<Token>, i: nat, kind: TokenKind): Result<Token, ParseError> {
    var t := TokenAt(tokens, i + 1);
    if t.kind == kind then Ok(t) else Err(UnexpectedToken(kind, t))
  }

  function DigitValue(c: char): nat {
    if IsDigit(c) then (c as int) - ('0' as int) else 0
  }

  /** `parseInt` on the digit string of an INT token (whose digits are all the lexer produces). */
  function DecimalValue(digits: string): nat
    decreases |digits|
  {
    if |digits| == 0 then 0
    else 10 * DecimalValue(digits[..|digits| - 1]) + DigitValue(digits[|digits| - 1])
  }

  /** The primary expression a token starts, if any. */
  function Primary(t: Token): (r: Option<Expression>)
    ensures r.Some? <==> t.kind == IntLiteral || t.kind == StringLiteral || t.kind == Identifier
  {
    match t.kind
    case IntLiteral => Some(IntegerLiteralExpr(DecimalValue(t.value)))
    case StringLiteral => Some(StringLiteralExpr(t.value))
    case Identifier => Some(IdentifierExpr(t.value))
    case _ => None
  }

  /**
   * `parseExpression` with the cursor at `i`. The result's cursor is on the
   * expression's last token when a `;` or `)` follows it.
   */
  function ParseExpr(tokens: seq<Token>, i: nat): (r: Result<Parsed<Expression>, ParseError>)
    ensures r.Ok? ==> i < |tokens| && i <= r.value.next <= |tokens|
    decreases Remaining(tokens, i), 3
  {
    var t := TokenAt(tokens, i);
    match Primary(t)
    case None => Err(NotImplemented(t))
    case Some(left) =>
      var t2 := TokenAt(tokens, i + 1);
      if t2.kind == Semicolon || t2.kind == RightParen then
        Ok(Parsed(left, i))
      else
        var combined :- ParseOperator(tokens, i, left);
        Ok(BackUpBeforeSemicolon(tokens, combined))
  }

  /**
   * What `parseExpression` does after the primary `left` at `i` when the next
   * token is neither `;` nor `)`: a call, a right operand after `+`, or nothing.
   */
  function ParseOperator(tokens: seq<Token>, i: nat, left: Expression): (r: Result<Parsed<Expression>, ParseError>)
    requires i < |tokens|
    ensures r.Ok? ==> i < r.value.next <= |tokens|
    decreases Remaining(tokens, i), 2
  {
    var t2 := TokenAt(tokens, i + 1);
    if t2.kind == LeftParen then
      ParseCall(tokens, i, left)
    else if t2.kind == Plus then
      var right :- ParseExpr(tokens, i + 2);
      Ok(Parsed(BinaryExpr(left, right.node, t2.value), right.next))
    else
      Ok(Parsed(left, i + 1))
  }

  /** `ParseExpr` past a primary that `;` or `)` does not end. */
  lemma ParseExprFollowsOperator(tokens: seq<Token>, i: nat)
    requires Primary(TokenAt(tokens, i)).Some?
    requires TokenAt(tokens, i + 1).kind != Semicolon && TokenAt(tokens, i + 1).kind != RightParen
    ensures i < |tokens|
    ensures var op := ParseOperator(tokens, i, Primary(TokenAt(tokens, i)).value);
            ParseExpr(tokens, i) == if op.Ok? then Ok(BackUpBeforeSemicolon(tokens, op.value)) else Err(op.error)
  {
  }

  /** The final `backup` of `parseExpression`, taken when the cursor has reached a `;`. */
  function BackUpBeforeSemicolon(tokens: seq<Token>, p: Parsed<Expression>): (r: Parsed<Expression>)
    requires p.next > 0
    ensures r.node == p.node
    ensures r.next < p.next <==> TokenAt(tokens, p.next).kind == Semicolon
    ensures p.next - 1 <= r.next <= p.next
  {
    if TokenAt(tokens, p.next).kind == Semicolon then Parsed(p.node, p.next - 1) else p
  }

  /** `parseCallExpression` with the cursor on the callee. */
  function ParseCall(tokens: seq<Token>, i: nat, callee: Expression): (r: Result<Parsed<Expression>, ParseError>)
    ensures r.Ok? ==> i + 3 <= r.value.next <= |tokens|
    ensures r.Ok? ==> tokens[r.value.next - 1].kind == RightParen
    ensures r.Ok? ==> r.value.node.CallExpr? && r.value.node.callee == callee
    decreases Remaining(tokens, i), 1
  {
    match ExpectAt(tokens, i, LeftParen)
    case Err(e) => Err(e)
    case Ok(_) =>
      match ParseArgs(tokens, i + 2, [])
      case Err(e) => Err(e)
      case Ok(args) => Ok(Parsed(CallExpr(callee, args.node), args.next + 1))
  }

  /**
   * The argument loop of `parseCallExpression`, with the cursor on the token it
   * has just read as `next`: until that token is `)`, parse an expression, then
   * read the token after the cursor.
   */
  function ParseArgs(tokens: seq<Token>, k: nat, acc: seq<Expression>): (r: Result<Parsed<seq<Expression>>, ParseError>)
    ensures r.Ok? ==> k <= r.value.next < |tokens| && tokens[r.value.next].kind == RightParen
    decreases Remaining(tokens, k), 4
  {
    if TokenAt(tokens, k).kind == RightParen then
      Ok(Parsed(acc, k))
    else
      match ParseExpr(tokens, k)
      case Err(e) => Err(e)
      case Ok(arg) => ParseArgs(tokens, arg.next + 1, acc + [arg.node])
  }

  /** One turn of the argument loop, once its expression has been parsed. */
  lemma ParseArgsStep(tokens: seq<Token>, k: nat, acc: seq<Expression>, arg: Result<Expression, ParseError>, last: int)
    requires TokenAt(tokens, k).kind != RightParen
    requires Agrees(arg, ParseExpr(tokens, k), last)
    ensures arg.Ok? ==> k < |tokens| && k <= last
    ensures arg.Err? ==> ParseArgs(tokens, k, acc) == Err(arg.error)
    ensures arg.Ok? ==> ParseArgs(tokens, k, acc) == ParseArgs(tokens, last + 1, acc + [arg.value])
  {
  }

  /** The tokens a statement may start with. */
  predicate LeadsStatement(t: Token) {
    || (t.kind == Keyword && (t.value == "func" || t.value == "var" || t.value == "return"))
    || t.kind == LeftBrace
    || t.kind == LeftParen
    || t.kind == IntLiteral
    || t.kind == StringLiteral
    || t.kind == Identifier
  }

  /** A statement whose parse ends with a block's statement list: a block, or a function declaring one. */
  predicate EndsWithBlock(s: Statement) {
    match s
    case BlockStmt(_) => true
    case FunctionDeclarationStmt(_, _, body) => EndsWithBlock(body)
    case _ => false
  }

  /** Where a statement list stops: past the tokens or on a `}`. */
  predicate AtBlockEnd(tokens: seq<Token>, j: nat) {
    j >= |tokens| || tokens[j].kind == RightBrace
  }

  /** `parseStatement` with the cursor on the statement's first token. */
  function ParseStmt(tokens: seq<Token>, i: nat): (r: Result<Parsed<Statement>, ParseError>)
    ensures r.Ok? ==> i < r.value.next <= |tokens|
    ensures r.Ok? ==> LeadsStatement(TokenAt(tokens, i))
    ensures r.Ok? && EndsWithBlock(r.value.node) ==> AtBlockEnd(tokens, r.value.next)
    decreases Remaining(tokens, i), 2
  {
    var t := TokenAt(tokens, i);
    match t.kind
    case Keyword =>
      if t.value == "func" then ParseFunctionDecl(tokens, i)
      else if t.value == "var" then ParseVarDecl(tokens, i)
      else if t.value == "return" then ParseReturn(tokens, i)
      else Err(NotImplemented(t))
    case LeftBrace => ParseBlock(tokens, i)
    case IntLiteral | StringLiteral | Identifier => ParseExprStmt(tokens, i)
    case LeftParen => ParseParenStmt(tokens, i)
    case _ => Err(NotImplemented(t))
  }

  /** The `return` case of `parseStatement`. */
  function ParseReturn(tokens: seq<Token>, i: nat): (r: Result<Parsed<Statement>, ParseError>)
    ensures r.Ok? ==> i + 2 < r.value.next <= |tokens| && r.value.node.ReturnStmt?
  {
    var value :- ParseExpr(tokens, i + 1);
    var semicolon :- ExpectAt(tokens, value.next, Semicolon);
    Ok(Parsed(ReturnStmt(value.node), value.next + 2))
  }

  /** The `{` case of `parseStatement`: the statements up to, and not past, the closing `}`. */
  function ParseBlock(tokens: seq<Token>, i: nat): (r: Result<Parsed<Statement>, ParseError>)
    requires i < |tokens|
    ensures r.Ok? ==> i < r.value.next <= |tokens| && r.value.node.BlockStmt? && AtBlockEnd(tokens, r.value.next)
    decreases Remaining(tokens, i), 1
  {
    var body :- ParseStmts(tokens, i + 1, []);
    Ok(Parsed(BlockStmt(body.node), body.next))
  }

  /** The literal and identifier case of `parseStatement`: an expression and `;`. */
  function ParseExprStmt(tokens: seq<Token>, i: nat): (r: Result<Parsed<Statement>, ParseError>)
    ensures r.Ok? ==> i + 1 < r.value.next <= |tokens| && r.value.node.ExpressionStmt?
  {
    var value :- ParseExpr(tokens, i);
    var semicolon :- ExpectAt(tokens, value.next, Semicolon);
    Ok(Parsed(ExpressionStmt(value.node), value.next + 2))
  }

  /** The `(` case of `parseStatement`: an expression, `)` and `;`. */
  function ParseParenStmt(tokens: seq<Token>, i: nat): (r: Result<Parsed<Statement>, ParseError>)
    ensures r.Ok? ==> i + 3 < r.value.next <= |tokens| && r.value.node.ExpressionStmt?
  {
    var value :- ParseExpr(tokens, i + 1);
    var rightParen :- ExpectAt(tokens, value.next, RightParen);
    var semicolon :- ExpectAt(tokens, value.next + 1, Semicolon);
    Ok(Parsed(ExpressionStmt(value.node), value.next + 3))
  }

  /** `parseFunctionDeclarationStatement` with the cursor on `func`. */
  function ParseFunctionDecl(tokens: seq<Token>, i: nat): (r: Result<Parsed<Statement>, ParseError>)
    ensures r.Ok? ==> i + 5 < r.value.next <= |tokens|
    ensures r.Ok? ==> r.value.node.FunctionDeclarationStmt?
    ensures r.Ok? && EndsWithBlock(r.value.node) ==> AtBlockEnd(tokens, r.value.next)
    decreases Remaining(tokens, i), 0
  {
    var identifier :- ExpectAt(tokens, i, Identifier);
    var leftParen :- ExpectAt(tokens, i + 1, LeftParen);
    var rightParen :- ExpectAt(tokens, i + 2, RightParen);
    var returnType :- ExpectAt(tokens, i + 3, Keyword);
    var body :- ParseStmt(tokens, i + 5);
    Ok(Parsed(FunctionDeclarationStmt(identifier.value, returnType.value, body.node), body.next))
  }

  /** `parseVariableDeclarationStatement` with the cursor on `var`. */
  function ParseVarDecl(tokens: seq<Token>, i: nat): (r: Result<Parsed<Statement>, ParseError>)
    ensures r.Ok? ==> i + 6 < r.value.next <= |tokens|
    ensures r.Ok? ==> r.value.node.VariableDeclarationStmt?
  {
    var identifier :- ExpectAt(tokens, i, Identifier);
    var colon :- ExpectAt(tokens, i + 1, Colon);
    var declaredType :- ExpectAt(tokens, i + 2, Keyword);
    var equals :- ExpectAt(tokens, i + 3, Equals);
    var value :- ParseExpr(tokens, i + 5);
    var semicolon :- ExpectAt(tokens, value.next, Semicolon);
    Ok(Parsed(VariableDeclarationStmt(identifier.value, LookupVariableType(declaredType.value), value.node), value.next + 2))
  }

  /** `parseStatements`: statements until the cursor is past the tokens or on a `}`, which it leaves in place. */
  function ParseStmts(tokens: seq<Token>, i: nat, acc: seq<Statement>): (r: Result<Parsed<seq<Statement>>, ParseError>)
    ensures r.Ok? ==> i <= r.value.next && AtBlockEnd(tokens, r.value.next)
    ensures r.Ok? && i <= |tokens| ==> r.value.next <= |tokens|
    ensures r.Ok? ==> acc <= r.value.node
    decreases Remaining(tokens, i), 3
  {
    if i >= |tokens| || tokens[i].kind == RightBrace then
      Ok(Parsed(acc, i))
    else
      var statement :- ParseStmt(tokens, i);
      ParseStmts(tokens, statement.next, acc + [statement.node])
  }

  /** `parse` once the tokens are in place, from cursor `i` (which `parse` does not reset). */
  function ParseProgram(tokens: seq<Token>, i: nat): Result<Program, ParseError> {
    var body :- ParseStmts(tokens, i, []);
    Ok(Program(body.node))
  }

  // ---------------------------------------------------------------------------
  // Properties of the parser
  // ---------------------------------------------------------------------------

  /** A primary directly followed by `;` or `)` is the whole expression, and the cursor is backed up onto it. */
  lemma PrimaryBeforeTerminatorBacksUp(tokens: seq<Token>, i: nat)
    requires Primary(TokenAt(tokens, i)).Some?
    requires TokenAt(tokens, i + 1).kind == Semicolon || TokenAt(tokens, i + 1).kind == RightParen
    ensures ParseExpr(tokens, i) == Ok(Parsed(Primary(TokenAt(tokens, i)).value, i))
  {
  }

  /** A leading token that starts no primary expression is a failure. */
  lemma NonPrimaryExpressionFails(tokens: seq<Token>, i: nat)
    requires Primary(TokenAt(tokens, i)).None?
    ensures ParseExpr(tokens, i) == Err(NotImplemented(TokenAt(tokens, i)))
  {
  }

  /** The right-nested sum `ops[0] + (ops[1] + (... + ops[n-1]))`. */
  function RightNestedSum(ops: seq<Expression>): Expression
    requires |ops| > 0
  {
    if |ops| == 1 then ops[0] else BinaryExpr(ops[0], RightNestedSum(ops[1..]), "+")
  }

  /** A primary, `+`, and an expression that no `;` follows parse as one sum. */
  lemma PlusStep(tokens: seq<Token>, i: nat, left: Expression, right: Parsed<Expression>)
    requires Primary(TokenAt(tokens, i)) == Some(left)
    requires TokenAt(tokens, i + 1) == Token(Plus, "+")
    requires ParseExpr(tokens, i + 2) == Ok(right)
    requires TokenAt(tokens, right.next).kind != Semicolon
    ensures ParseExpr(tokens, i) == Ok(Parsed(BinaryExpr(left, right.node, "+"), right.next))
  {
    ParseExprFollowsOperator(tokens, i);
  }

  /**
   * The tokens from `i` are the primaries `ops` separated by `+` tokens and closed
   * by `;`.
   */
  predicate PlusChain(tokens: seq<Token>, i: nat, ops: seq<Expression>)
    decreases |ops|
  {
    && |ops| > 0
    && Primary(TokenAt(tokens, i)) == Some(ops[0])
    && if |ops| == 1 then TokenAt(tokens, i + 1).kind == Semicolon
       else TokenAt(tokens, i + 1) == Token(Plus, "+") && PlusChain(tokens, i + 2, ops[1..])
  }

  /**
   * `+` associates to the right: a chain of primaries separated by `+` and closed
   * by `;` parses as `p0 + (p1 + (... + pn))`, and the cursor ends on the last
   * primary.
   */
  lemma {:induction false} PlusChainIsRightAssociative(tokens: seq<Token>, i: nat, ops: seq<Expression>)
    requires PlusChain(tokens, i, ops)
    ensures ParseExpr(tokens, i) == Ok(Parsed(RightNestedSum(ops), i + 2 * |ops| - 2))
    decreases |ops|
  {
    if |ops| > 1 {
      var rest := ops[1..];
      PlusChainIsRightAssociative(tokens, i + 2, rest);
      PlusChainEndsWithPrimary(tokens, i + 2, rest);
      PlusStep(tokens, i, ops[0], Parsed(RightNestedSum(rest), i + 2 * |ops| - 2));
    } else {
      PrimaryBeforeTerminatorBacksUp(tokens, i);
    }
  }

  /** The last token of a `+` chain before its `;` is a primary. */
  lemma {:induction false} PlusChainEndsWithPrimary(tokens: seq<Token>, i: nat, ops: seq<Expression>)
    requires PlusChain(tokens, i, ops)
    ensures Primary(TokenAt(tokens, i + 2 * |ops| - 2)) == Some(ops[|ops| - 1])
    decreases |ops|
  {
    if |ops| > 1 {
      PlusChainEndsWithPrimary(tokens, i + 2, ops[1..]);
    }
  }

  /** A block stops at its `}` without consuming it (or at the end of the tokens). */
  lemma BlockLeavesCursorOnBrace(tokens: seq<Token>, i: nat)
    requires TokenAt(tokens, i).kind == LeftBrace
    requires ParseStmt(tokens, i).Ok?
    ensures ParseStmt(tokens, i).value.node.BlockStmt?
    ensures AtBlockEnd(tokens, ParseStmt(tokens, i).value.next)
  {
  }

  /**
   * Since a block leaves the cursor on its `}`, the enclosing statement list stops
   * right after it: in any parsed statement list only the last statement can be a
   * block or a function declaring one. In particular a program holds at most one
   * function with a block body, and it is its last statement.
   */
  lemma {:induction false} OnlyLastStatementEndsWithBlock(tokens: seq<Token>, i: nat, acc: seq<Statement>)
    requires ParseStmts(tokens, i, acc).Ok?
    ensures var ss := ParseStmts(tokens, i, acc).value.node;
            forall k :: |acc| <= k < |ss| - 1 ==> !EndsWithBlock(ss[k])
    decreases Remaining(tokens, i)
  {
    if !(i >= |tokens| || tokens[i].kind == RightBrace) {
      var statement := ParseStmt(tokens, i).value;
      OnlyLastStatementEndsWithBlock(tokens, statement.next, acc + [statement.node]);
      if EndsWithBlock(statement.node) {
        assert ParseStmts(tokens, statement.next, acc + [statement.node]).value.node == acc + [statement.node];
      }
    }
  }

  /** `parse` does not reset the cursor: once it is at or past the new tokens, the program is empty. */
  lemma StaleCursorParsesNothing(tokens: seq<Token>, i: nat)
    requires i >= |tokens|
    ensures ParseProgram(tokens, i) == Ok(Program([]))
  {
  }

  /**
   * A `var` statement is `var`, IDENT, `:`, KEYWORD, `=`, an expression and `;`
   * in that order; the stored type is the keyword looked up in `VariableType`,
   * so it is present exactly when the keyword is `u8`.
   */
  lemma VarDeclarationShape(tokens: seq<Token>, i: nat)
    requires ParseVarDecl(tokens, i).Ok?
    ensures var p := ParseVarDecl(tokens, i).value;
            && TokenAt(tokens, i + 1).kind == Identifier
            && TokenAt(tokens, i + 2).kind == Colon
            && TokenAt(tokens, i + 3).kind == Keyword
            && TokenAt(tokens, i + 4).kind == Equals
            && ParseExpr(tokens, i + 5).Ok?
            && TokenAt(tokens, ParseExpr(tokens, i + 5).value.next + 1).kind == Semicolon
            && p.next == ParseExpr(tokens, i + 5).value.next + 2
            && p.node == VariableDeclarationStmt(
                 TokenAt(tokens, i + 1).value,
                 LookupVariableType(TokenAt(tokens, i + 3).value),
                 ParseExpr(tokens, i + 5).value.node)
            && (p.node.varType.Some? <==> TokenAt(tokens, i + 3).value == "u8")
  {
  }

  /** A `return` statement is `return`, an expression and `;`, and it holds that expression. */
  lemma ReturnShape(tokens: seq<Token>, i: nat)
    requires ParseReturn(tokens, i).Ok?
    ensures var value := ParseExpr(tokens, i + 1);
            && value.Ok?
            && TokenAt(tokens, value.value.next + 1).kind == Semicolon
            && ParseReturn(tokens, i).value == Parsed(ReturnStmt(value.value.node), value.value.next + 2)
  {
  }

  /** An expression statement is an expression and `;`, and it holds that expression. */
  lemma ExpressionStatementShape(tokens: seq<Token>, i: nat)
    requires ParseExprStmt(tokens, i).Ok?
    ensures var value := ParseExpr(tokens, i);
            && value.Ok?
            && TokenAt(tokens, value.value.next + 1).kind == Semicolon
            && ParseExprStmt(tokens, i).value == Parsed(ExpressionStmt(value.value.node), value.value.next + 2)
  {
  }

  /** A parenthesised statement is `(`, an expression, `)` and `;`, and it holds that expression. */
  lemma ParenthesizedStatementShape(tokens: seq<Token>, i: nat)
    requires ParseParenStmt(tokens, i).Ok?
    ensures var value := ParseExpr(tokens, i + 1);
            && value.Ok?
            && TokenAt(tokens, value.value.next + 1).kind == RightParen
            && TokenAt(tokens, value.value.next + 2).kind == Semicolon
            && ParseParenStmt(tokens, i).value == Parsed(ExpressionStmt(value.value.node), value.value.next + 3)
  {
  }

  /**
   * A function declaration is `func`, IDENT, `(`, `)`, KEYWORD and a body
   * statement; its name and return type are the texts of the IDENT and KEYWORD
   * tokens, and the cursor is where the body leaves it.
   */
  lemma FunctionDeclarationShape(tokens: seq<Token>, i: nat)
    requires ParseFunctionDecl(tokens, i).Ok?
    ensures var body := ParseStmt(tokens, i + 5);
            && TokenAt(tokens, i + 1).kind == Identifier
            && TokenAt(tokens, i + 2).kind == LeftParen
            && TokenAt(tokens, i + 3).kind == RightParen
            && TokenAt(tokens, i + 4).kind == Keyword
            && body.Ok?
            && ParseFunctionDecl(tokens, i).value
               == Parsed(FunctionDeclarationStmt(TokenAt(tokens, i + 1).value, TokenAt(tokens, i + 4).value, body.value.node),
                         body.value.next)
  {
  }

  /** A token the argument loop can drop after an argument: one that neither ends nor extends it. */
  predicate ArgumentSeparator(t: Token) {
    t.kind != Semicolon && t.kind != RightParen && t.kind != LeftParen && t.kind != Plus
  }

  /**
   * The tokens from `k` are the primaries `ps`, each followed by one separator
   * token, the last one by `)` instead (just `)` when `ps` is empty).
   */
  predicate SeparatedArgs(tokens: seq<Token>, k: nat, ps: seq<Expression>)
    decreases |ps|
  {
    if |ps| == 0 then TokenAt(tokens, k).kind == RightParen
    else
      && Primary(TokenAt(tokens, k)) == Some(ps[0])
      && if |ps| == 1 then TokenAt(tokens, k + 1).kind == RightParen
         else ArgumentSeparator(TokenAt(tokens, k + 1)) && SeparatedArgs(tokens, k + 2, ps[1..])
  }

  /**
   * The argument loop on primaries separated by single tokens collects exactly
   * those primaries, in order, and stops on the `)`.
   */
  lemma {:induction false} SeparatedArgumentsParse(tokens: seq<Token>, k: nat, acc: seq<Expression>, ps: seq<Expression>)
    requires SeparatedArgs(tokens, k, ps)
    ensures ParseArgs(tokens, k, acc) == Ok(Parsed(acc + ps, if |ps| == 0 then k else k + 2 * |ps| - 1))
    decreases |ps|
  {
    if |ps| == 0 {
      assert acc + ps == acc;
    } else if |ps| == 1 {
      LastArgumentParses(tokens, k, acc, ps[0]);
      assert acc + ps == acc + [ps[0]];
    } else {
      var rest := ps[1..];
      assert |rest| == |ps| - 1 > 0;
      SeparatedArgumentParses(tokens, k, acc, ps[0]);
      SeparatedArgumentsParse(tokens, k + 2, acc + [ps[0]], rest);
      assert acc + [ps[0]] + rest == acc + ps;
    }
  }

  /** A primary directly before `)` is the last argument; the loop stops on the `)`. */
  lemma LastArgumentParses(tokens: seq<Token>, k: nat, acc: seq<Expression>, p: Expression)
    requires Primary(TokenAt(tokens, k)) == Some(p)
    requires TokenAt(tokens, k + 1).kind == RightParen
    ensures ParseArgs(tokens, k, acc) == Ok(Parsed(acc + [p], k + 1))
  {
    PrimaryBeforeTerminatorBacksUp(tokens, k);
  }

  /** A primary followed by a separator is one argument; the loop goes on after the separator. */
  lemma SeparatedArgumentParses(tokens: seq<Token>, k: nat, acc: seq<Expression>, p: Expression)
    requires Primary(TokenAt(tokens, k)) == Some(p)
    requires ArgumentSeparator(TokenAt(tokens, k + 1))
    ensures ParseArgs(tokens, k, acc) == ParseArgs(tokens, k + 2, acc + [p])
  {
    ParseExprFollowsOperator(tokens, k);
    assert ParseExpr(tokens, k) == Ok(Parsed(p, k + 1));
  }

  /** A callee, `(` and separated primary arguments parse as the call of the callee on exactly those arguments. */
  lemma CallOfSeparatedArguments(tokens: seq<Token>, i: nat, callee: Expression, ps: seq<Expression>)
    requires TokenAt(tokens, i + 1).kind == LeftParen
    requires SeparatedArgs(tokens, i + 2, ps)
    ensures ParseCall(tokens, i, callee) == Ok(Parsed(CallExpr(callee, ps), i + 2 * |ps| + (if |ps| == 0 then 3 else 2)))
  {
    var close := if |ps| == 0 then i + 2 else i + 2 * |ps| + 1;
    SeparatedArgumentsParse(tokens, i + 2, [], ps);
    assert [] + ps == ps;
    ParseCallOfArguments(tokens, i, callee, Parsed(ps, close));
    assert close + 1 == i + 2 * |ps| + (if |ps| == 0 then 3 else 2);
  }

  /** After `(`, a call is whatever the argument loop collects, closed one token on. */
  lemma ParseCallOfArguments(tokens: seq<Token>, i: nat, callee: Expression, args: Parsed<seq<Expression>>)
    requires TokenAt(tokens, i + 1).kind == LeftParen
    requires ParseArgs(tokens, i + 2, []) == Ok(args)
    ensures ParseCall(tokens, i, callee) == Ok(Parsed(CallExpr(callee, args.node), args.next + 1))
  {
  }

  /**
   * A call on separated primaries closed by `;` is the whole expression, and the
   * cursor is backed up onto its `)`.
   */
  lemma CallBeforeSemicolon(tokens: seq<Token>, i: nat, callee: Expression, ps: seq<Expression>)
    requires Primary(TokenAt(tokens, i)) == Some(callee)
    requires TokenAt(tokens, i + 1).kind == LeftParen
    requires SeparatedArgs(tokens, i + 2, ps)
    requires TokenAt(tokens, i + 2 * |ps| + (if |ps| == 0 then 3 else 2)).kind == Semicolon
    ensures ParseExpr(tokens, i) == Ok(Parsed(CallExpr(callee, ps), i + 2 * |ps| + (if |ps| == 0 then 2 else 1)))
  {
    ParseExprFollowsOperator(tokens, i);
    CallOfSeparatedArguments(tokens, i, callee, ps);
  }

  // The converse of the shape lemmas: tokens of each shape parse to the statement it describes.

  lemma VarDeclarationParses(tokens: seq<Token>, i: nat, name: string, typeName: string, value: Parsed<Expression>)
    requires TokenAt(tokens, i) == Token(Keyword, "var")
    requires TokenAt(tokens, i + 1) == Token(Identifier, name)
    requires TokenAt(tokens, i + 2).kind == Colon
    requires TokenAt(tokens, i + 3) == Token(Keyword, typeName)
    requires TokenAt(tokens, i + 4).kind == Equals
    requires ParseExpr(tokens, i + 5) == Ok(value)
    requires TokenAt(tokens, value.next + 1).kind == Semicolon
    ensures ParseStmt(tokens, i)
            == Ok(Parsed(VariableDeclarationStmt(name, LookupVariableType(typeName), value.node), value.next + 2))
  {
  }

  lemma ExpressionStatementParses(tokens: seq<Token>, i: nat, value: Parsed<Expression>)
    requires TokenAt(tokens, i).kind in {IntLiteral, StringLiteral, Identifier}
    requires ParseExpr(tokens, i) == Ok(value)
    requires TokenAt(tokens, value.next + 1).kind == Semicolon
    ensures ParseStmt(tokens, i) == Ok(Parsed(ExpressionStmt(value.node), value.next + 2))
  {
  }

  lemma ReturnParses(tokens: seq<Token>, i: nat, value: Parsed<Expression>)
    requires TokenAt(tokens, i) == Token(Keyword, "return")
    requires ParseExpr(tokens, i + 1) == Ok(value)
    requires TokenAt(tokens, value.next + 1).kind == Semicolon
    ensures ParseStmt(tokens, i) == Ok(Parsed(ReturnStmt(value.node), value.next + 2))
  {
  }

  /** A block is its statement list, and the cursor stays where the list stops. */
  lemma BlockParses(tokens: seq<Token>, i: nat, body: Parsed<seq<Statement>>)
    requires TokenAt(tokens, i).kind == LeftBrace
    requires ParseStmts(tokens, i + 1, []) == Ok(body)
    ensures ParseStmt(tokens, i) == Ok(Parsed(BlockStmt(body.node), body.next))
  {
  }

  lemma FunctionDeclarationParses(tokens: seq<Token>, i: nat, name: string, returnType: string, body: Parsed<Statement>)
    requires TokenAt(tokens, i) == Token(Keyword, "func")
    requires TokenAt(tokens, i + 1) == Token(Identifier, name)
    requires TokenAt(tokens, i + 2).kind == LeftParen
    requires TokenAt(tokens, i + 3).kind == RightParen
    requires TokenAt(tokens, i + 4) == Token(Keyword, returnType)
    requires ParseStmt(tokens, i + 5) == Ok(body)
    ensures ParseStmt(tokens, i) == Ok(Parsed(FunctionDeclarationStmt(name, returnType, body.node), body.next))
  {
  }

  /** A statement list goes on past each statement that parses (none starts with `}`). */
  lemma StatementsContinue(tokens: seq<Token>, i: nat, acc: seq<Statement>, s: Parsed<Statement>)
    requires ParseStmt(tokens, i) == Ok(s)
    ensures ParseStmts(tokens, i, acc) == ParseStmts(tokens, s.next, acc + [s.node])
  {
  }

  /** A statement list stops, with what it has collected, on a `}` or past the tokens. */
  lemma StatementsStop(tokens: seq<Token>, i: nat, acc: seq<Statement>)
    requires AtBlockEnd(tokens, i)
    ensures ParseStmts(tokens, i, acc) == Ok(Parsed(acc, i))
  {
  }

  /**
   * A call used as a call argument fails: the inner call leaves the cursor on the
   * outer `)`, and the argument loop then reads the `;` after it as the next
   * argument. Tokens of `f(g(1));`.
   */
  lemma NestedCallArgumentFails()
    ensures var tokens := [Token(Identifier, "f"), Token(LeftParen, "("), Token(Identifier, "g"),
                           Token(LeftParen, "("), Token(IntLiteral, "1"), Token(RightParen, ")"),
                           Token(RightParen, ")"), Token(Semicolon, ";")];
            ParseStmt(tokens, 0) == Err(NotImplemented(Token(Semicolon, ";")))
  {
    var tokens := [Token(Identifier, "f"), Token(LeftParen, "("), Token(Identifier, "g"),
                   Token(LeftParen, "("), Token(IntLiteral, "1"), Token(RightParen, ")"),
                   Token(RightParen, ")"), Token(Semicolon, ";")];
    var one := IntegerLiteralExpr(1);
    var inner := CallExpr(IdentifierExpr("g"), [one]);
    var e := NotImplemented(Token(Semicolon, ";"));
    assert DecimalValue("1") == 1;
    assert ParseExpr(tokens, 4) == Ok(Parsed(one, 4));
    assert ParseArgs(tokens, 5, [one]) == Ok(Parsed([one], 5));
    assert [] + [one] == [one];
    assert ParseArgs(tokens, 4, []) == Ok(Parsed([one], 5));
    assert ExpectAt(tokens, 2, LeftParen).Ok?;
    assert ParseCall(tokens, 2, IdentifierExpr("g")) == Ok(Parsed(inner, 6));
    assert ParseExpr(tokens, 2) == Ok(Parsed(inner, 6));
    assert ParseArgs(tokens, 7, [inner]) == Err(e);
    assert ParseExpr(tokens, 0) == Err(e);
  }

  /**
   * Arguments are not separated by any token: after each argument the loop reads
   * one token and drops it unless it is `)`. So `f(a b);` has one argument.
   */
  lemma ArgumentLoopDropsFollowingToken()
    ensures var tokens := [Token(Identifier, "f"), Token(LeftParen, "("), Token(Identifier, "a"),
                           Token(Identifier, "b"), Token(RightParen, ")"), Token(Semicolon, ";")];
            ParseStmt(tokens, 0) == Ok(Parsed(ExpressionStmt(CallExpr(IdentifierExpr("f"), [IdentifierExpr("a")])), 6))
  {
    var tokens := [Token(Identifier, "f"), Token(LeftParen, "("), Token(Identifier, "a"),
                   Token(Identifier, "b"), Token(RightParen, ")"), Token(Semicolon, ";")];
    var a := IdentifierExpr("a");
    var call := CallExpr(IdentifierExpr("f"), [a]);
    assert ParseExpr(tokens, 2) == Ok(Parsed(a, 3));
    assert ParseArgs(tokens, 4, [a]) == Ok(Parsed([a], 4));
    assert [] + [a] == [a];
    assert ParseOperator(tokens, 0, IdentifierExpr("f")) == Ok(Parsed(call, 5));
    assert ParseExpr(tokens, 0) == Ok(Parsed(call, 4));
  }

  /**
   * The token the loop drops may be a lone `,` (an identifier run of its own), so
   * `f(a , b);` has the two arguments a reader expects.
   */
  lemma SpacedCommaSeparatesArguments()
    ensures var tokens := [Token(Identifier, "f"), Token(LeftParen, "("), Token(Identifier, "a"),
                           Token(Identifier, ","), Token(Identifier, "b"), Token(RightParen, ")"),
                           Token(Semicolon, ";")];
            ParseStmt(tokens, 0)
            == Ok(Parsed(ExpressionStmt(CallExpr(IdentifierExpr("f"), [IdentifierExpr("a"), IdentifierExpr("b")])), 7))
  {
    var tokens := [Token(Identifier, "f"), Token(LeftParen, "("), Token(Identifier, "a"),
                   Token(Identifier, ","), Token(Identifier, "b"), Token(RightParen, ")"),
                   Token(Semicolon, ";")];
    var a, b := IdentifierExpr("a"), IdentifierExpr("b");
    var call := CallExpr(IdentifierExpr("f"), [a, b]);
    assert ParseExpr(tokens, 4) == Ok(Parsed(b, 4));
    assert [a] + [b] == [a, b];
    assert ParseArgs(tokens, 4, [a]) == Ok(Parsed([a, b], 5));
    assert ParseExpr(tokens, 2) == Ok(Parsed(a, 3));
    assert [] + [a] == [a];
    assert ParseOperator(tokens, 0, IdentifierExpr("f")) == Ok(Parsed(call, 6));
    assert ParseExpr(tokens, 0) == Ok(Parsed(call, 5));
  }

  /** `Result<T>` agrees with a specification result and the cursor it leaves. */
  predicate Agrees<T(==)>(r: Result<T, ParseError>, spec: Result<Parsed<T>, ParseError>, index: int) {
    match spec
    case Ok(p) => r == Ok(p.node) && index == p.next
    case Err(e) => r == Err(e)
  }

  /** The parser object of parser.js: the tokens and a cursor into them. */
  class Parser {
    var tokens: seq<Token>
    var index: int

    constructor ()
      ensures tokens == [] && index == 0
    {
      tokens := [];
      index := 0;
    }

    method Backup()
      modifies this
      ensures tokens == old(tokens) && index == old(index) - 1
    {
      index := index - 1;
    }

    method CurrentToken() returns (t: Token)
      requires 0 <= index
      ensures index < |tokens| ==> t == tokens[index]
      ensures index >= |tokens| ==> t == Token(EndOfFile, "")
    {
      if index >= |tokens| {
        return Token(EndOfFile, "");
      }
      return tokens[index];
    }

    method NextToken() returns (t: Token)
      requires 0 <= index
      modifies this
      ensures tokens == old(tokens) && index == old(index) + 1
      ensures index < |tokens| ==> t == tokens[index]
      ensures index >= |tokens| ==> t == Token(EndOfFile, "")
      ensures t == TokenAt(tokens, index)
    {
      index := index + 1;
      if index >= |tokens| {
        return Token(EndOfFile, "");
      }
      return tokens[index];
    }

    method PeekNextToken() returns (t: Token)
      requires 0 <= index
      ensures index + 1 < |tokens| ==> t == tokens[index + 1]
      ensures index + 1 >= |tokens| ==> t == Token(EndOfFile, "")
    {
      if index + 1 >= |tokens| {
        return Token(EndOfFile, "");
      }
      return tokens[index + 1];
    }

    /** Advances, then succeeds exactly when the new current token has kind `kind`. */
    method Expect(kind: TokenKind) returns (r: Result<Token, ParseError>)
      requires 0 <= index
      modifies this
      ensures tokens == old(tokens) && index == old(index) + 1
      ensures r.Ok? <==> TokenAt(tokens, index).kind == kind
      ensures r.Ok? ==> r.value == TokenAt(tokens, index)
      ensures r.Err? ==> r.error == UnexpectedToken(kind, TokenAt(tokens, index))
      ensures r == ExpectAt(tokens, old(index), kind)
    {
      var t := NextToken();
      if t.kind == kind {
        return Ok(t);
      }
      return Err(UnexpectedToken(kind, t));
    }

    /**
     * One turn of the argument loop of `parseCallExpression`: parse an argument,
     * peek, and read the token after it.
     */
    method ParseArgument(ghost acc: seq<Expression>) returns (r: Result<Expression, ParseError>, next: Token)
      requires 0 <= index && TokenAt(tokens, index).kind != RightParen
      modifies this
      ensures tokens == old(tokens) && old(index) <= index
      ensures r.Ok? ==> old(index) < |tokens| && old(index) < index
      ensures r.Err? ==> ParseArgs(tokens, old(index), acc) == Err(r.error)
      ensures r.Ok? ==> ParseArgs(tokens, old(index), acc) == ParseArgs(tokens, index, acc + [r.value])
      ensures next == TokenAt(tokens, index)
      decreases Remaining(tokens, index), 4
    {
      ghost var k, ts := index, tokens;
      r := ParseExpression();
      ParseArgsStep(ts, k, acc, r, index);
      // parser.js peeks at the token after the cursor and compares its kind with
      // `TokenKind.COMMA`, a kind that does not exist: that test never holds.
      var following := PeekNextToken();
      next := NextToken();
    }

    method ParseCallExpression(callee: Expression) returns (r: Result<Expression, ParseError>)
      requires 0 <= index
      modifies this
      ensures tokens == old(tokens) && old(index) <= index
      ensures Agrees(r, ParseCall(tokens, old(index), callee), index)
      decreases Remaining(tokens, index), 1
    {
      ghost var start, ts := index, tokens;
      var leftParen :- Expect(LeftParen);
      var next := NextToken();
      var args: seq<Expression> := [];
      while next.kind != RightParen
        invariant tokens == ts && start + 2 <= index && start + 1 < |ts|
        invariant next == TokenAt(ts, index)
        invariant ParseArgs(ts, start + 2, []) == ParseArgs(ts, index, args)
        decreases Remaining(ts, index)
      {
        var arg;
        arg, next := ParseArgument(args);
        if arg.Err? {
          return Err(arg.error);
        }
        args := args + [arg.value];
      }
      assert ParseArgs(ts, start + 2, []) == Ok(Parsed(args, index));
      var closing := NextToken();
      return Ok(CallExpr(callee, args));
    }

    /**
     * The `(` and `+` tests of `parseExpression`, with the cursor on the token `t`
     * that follows the primary `left`.
     */
    method ParseOperatorExpression(left: Expression, t: Token) returns (r: Result<Expression, ParseError>)
      requires 0 < index <= |tokens| && t == TokenAt(tokens, index)
      modifies this
      ensures tokens == old(tokens) && old(index) - 1 <= index
      ensures Agrees(r, ParseOperator(tokens, old(index) - 1, left), index)
      decreases Remaining(tokens, index - 1), 2
    {
      r := Ok(left);
      if t.kind == LeftParen {
        index := index - 1;
        r := ParseCallExpression(left);
      }
      if t.kind == Plus {
        var op := t.value;
        var _ := NextToken();
        var right :- ParseExpression();
        r := Ok(BinaryExpr(left, right, op));
      }
    }

    method ParseExpression() returns (r: Result<Expression, ParseError>)
      requires 0 <= index
      modifies this
      ensures tokens == old(tokens) && old(index) <= index
      ensures Agrees(r, ParseExpr(tokens, old(index)), index)
      decreases Remaining(tokens, index), 3
    {
      ghost var start := index;
      var t := CurrentToken();
      // The switch on the kinds of literal and identifier tokens.
      var left := Primary(t);
      if left.Some? {
        var _ := NextToken();
      }
      t := CurrentToken();
      if left.None? {
        return Err(NotImplemented(t));
      }
      var expression := left.value;
      if t.kind == Semicolon || t.kind == RightParen {
        Backup();
        return Ok(expression);
      }
      assert start < |tokens| && index == start + 1 && t == TokenAt(tokens, start + 1);
      ParseExprFollowsOperator(tokens, start);
      expression :- ParseOperatorExpression(expression, t);
      var current := CurrentToken();
      if current.kind == Semicolon {
        Backup();
      }
      return Ok(expression);
    }

    method ParseFunctionDeclarationStatement() returns (r: Result<Statement, ParseError>)
      requires 0 <= index
      modifies this
      ensures tokens == old(tokens) && old(index) <= index
      ensures Agrees(r, ParseFunctionDecl(tokens, old(index)), index)
      decreases Remaining(tokens, index), 0
    {
      var identifier :- Expect(Identifier);
      var leftParen :- Expect(LeftParen);
      var rightParen :- Expect(RightParen);
      var returnType :- Expect(Keyword);
      var _ := NextToken();
      var body :- ParseStatement();
      return Ok(FunctionDeclarationStmt(identifier.value, returnType.value, body));
    }

    method ParseVariableDeclarationStatement() returns (r: Result<Statement, ParseError>)
      requires 0 <= index
      modifies this
      ensures tokens == old(tokens) && old(index) <= index
      ensures Agrees(r, ParseVarDecl(tokens, old(index)), index)
    {
      var identifier :- Expect(Identifier);
      var colon :- Expect(Colon);
      var declaredType :- Expect(Keyword);
      var equals :- Expect(Equals);
      var _ := NextToken();
      var value :- ParseExpression();
      var semicolon :- Expect(Semicolon);
      var _ := NextToken();
      return Ok(VariableDeclarationStmt(identifier.value, LookupVariableType(declaredType.value), value));
    }

    method ParseStatement() returns (r: Result<Statement, ParseError>)
      requires 0 <= index
      modifies this
      ensures tokens == old(tokens) && old(index) <= index
      ensures Agrees(r, ParseStmt(tokens, old(index)), index)
      decreases Remaining(tokens, index), 2
    {
      var t := CurrentToken();
      match t.kind {
        case Keyword =>
          if t.value == "func" {
            r := ParseFunctionDeclarationStatement();
          } else if t.value == "var" {
            r := ParseVariableDeclarationStatement();
          } else if t.value == "return" {
            r := ParseReturnStatement();
          } else {
            r := Err(NotImplemented(t));
          }
        case LeftBrace =>
          r := ParseBlockStatement();
        case IntLiteral | StringLiteral | Identifier =>
          r := ParseExpressionStatement();
        case LeftParen =>
          r := ParseParenthesizedStatement();
        case _ =>
          r := Err(NotImplemented(t));
      }
    }

    /** The `return` case of `parseStatement`. */
    method ParseReturnStatement() returns (r: Result<Statement, ParseError>)
      requires 0 <= index
      modifies this
      ensures tokens == old(tokens) && old(index) <= index
      ensures Agrees(r, ParseReturn(tokens, old(index)), index)
    {
      var _ := NextToken();
      var expression :- ParseExpression();
      var semicolon :- Expect(Semicolon);
      var _ := NextToken();
      return Ok(ReturnStmt(expression));
    }

    /** The `{` case of `parseStatement`. */
    method ParseBlockStatement() returns (r: Result<Statement, ParseError>)
      requires 0 <= index < |tokens|
      modifies this
      ensures tokens == old(tokens) && old(index) <= index
      ensures Agrees(r, ParseBlock(tokens, old(index)), index)
      decreases Remaining(tokens, index), 1
    {
      var _ := NextToken();
      var body :- ParseStatements();
      return Ok(BlockStmt(body));
    }

    /** The literal and identifier cases of `parseStatement`. */
    method ParseExpressionStatement() returns (r: Result<Statement, ParseError>)
      requires 0 <= index
      modifies this
      ensures tokens == old(tokens) && old(index) <= index
      ensures Agrees(r, ParseExprStmt(tokens, old(index)), index)
    {
      var expression :- ParseExpression();
      var semicolon :- Expect(Semicolon);
      var _ := NextToken();
      return Ok(ExpressionStmt(expression));
    }

    /** The `(` case of `parseStatement`. */
    method ParseParenthesizedStatement() returns (r: Result<Statement, ParseError>)
      requires 0 <= index
      modifies this
      ensures tokens == old(tokens) && old(index) <= index
      ensures Agrees(r, ParseParenStmt(tokens, old(index)), index)
    {
      var _ := NextToken();
      var expression :- ParseExpression();
      var rightParen :- Expect(RightParen);
      var semicolon :- Expect(Semicolon);
      var _ := NextToken();
      return Ok(ExpressionStmt(expression));
    }

    method ParseStatements() returns (r: Result<seq<Statement>, ParseError>)
      requires 0 <= index
      modifies this
      ensures tokens == old(tokens) && old(index) <= index
      ensures Agrees(r, ParseStmts(tokens, old(index), []), index)
      decreases Remaining(tokens, index), 3
    {
      var statements: seq<Statement> := [];
      while index < |tokens|
        invariant tokens == old(tokens) && old(index) <= index
        invariant ParseStmts(tokens, old(index), []) == ParseStmts(tokens, index, statements)
        decreases Remaining(tokens, index)
      {
        var t := CurrentToken();
        if t.kind == RightBrace {
          break;
        }
        var statement :- ParseStatement();
        statements := statements + [statement];
      }
      return Ok(statements);
    }

    /** Tokenizes `source` with a fresh lexer and parses from the current cursor, which is not reset. */
    method Parse(source: string) returns (r: Result<Program, ParseError>)
      requires 0 <= index
      requires Lex(source).Halts?
      modifies this
      ensures tokens == Lex(source).tokens
      ensures r == ParseProgram(tokens, old(index))
    {
      var l := new Lexer();
      tokens := l.GetTokens(source);
      var body :- ParseStatements();
      return Ok(Program(body));
    }
  }
}
