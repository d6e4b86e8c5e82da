/**
 * The C emitter of js_bootstrap/generator.js. The text each node produces is
 * given by the pure functions `EmitExpr`, `EmitListed`, `EmitBody` and
 * `EmitStatements`; the `Generator` class appends exactly that text to its
 * `StringBuilder`. Every `TODO()` the generator throws is the `error` of an
 * `Emitted` value, whose `text` is what was appended before the throw.
 */
module CodeGen {
  import opened Results
  import opened Ast
  import opened StringBuilding

  datatype GenError =
    | UnsupportedType(name: Option<string>)
    | NotImplemented(statement: Statement)

  /**
   * `mapTypeToCType`: only `u64` and `u8` have a C type. `None` stands for
   * `undefined`, the type of a `var` whose keyword is not in `VariableType`.
   */
  function MapTypeToCType(name: Option<string>): (r: Result<string, GenError>)
    ensures r.Ok? <==> name == Some("u64") || name == Some("u8")
    ensures r.Ok? ==> r.value == (if name == Some("u64") then "int" else "char")
    ensures r.Err? ==> r.error == UnsupportedType(name)
  {
    match name
    case Some("u64") => Ok("int")
    case Some("u8") => Ok("char")
    case _ => Err(UnsupportedType(name))
  }

  /** The value a `var` declaration stores as its type: `VariableType[keyword]`. */
  function StoredTypeName(t: Option<VariableType>): Option<string> {
    match t
    case Some(v) => Some(VariableTypeName(v))
    case None => None
  }

  function DigitChar(d: nat): (c: char)
    requires d < 10
    ensures '0' <= c <= '9' && c as int - '0' as int == d
  {
    "0123456789"[d]
  }

  /** JavaScript's decimal rendering of a non-negative integer, as `append` performs it. */
  function NatToString(n: nat): (r: string)
    ensures |r| > 0 && (|r| > 1 ==> r[0] != '0')
    ensures forall k :: 0 <= k < |r| ==> '0' <= r[k] <= '9'
    decreases n
  {
    if n < 10 then [DigitChar(n)] else NatToString(n / 10) + [DigitChar(n % 10)]
  }

  /** `value.replace(/\n/g, "\\n")`: each line feed becomes a backslash and an `n`. */
  function EscapeNewlines(s: string): (r: string)
    ensures '\n' !in r
    ensures |r| >= |s|
  {
    if |s| == 0 then ""
    else (if s[0] == '\n' then "\\n" else [s[0]]) + EscapeNewlines(s[1..])
  }

  /** Escaping works character by character, so it distributes over concatenation. */
  lemma {:induction false} EscapeNewlinesDistributes(a: string, b: string)
    ensures EscapeNewlines(a + b) == EscapeNewlines(a) + EscapeNewlines(b)
    decreases |a|
  {
    if |a| == 0 {
      assert a + b == b;
    } else {
      assert (a + b)[0] == a[0] && (a + b)[1..] == a[1..] + b;
      EscapeNewlinesDistributes(a[1..], b);
    }
  }

  /** Text without a line feed is emitted unchanged. */
  lemma {:induction false} EscapeNewlinesKeepsSingleLine(s: string)
    requires '\n' !in s
    ensures EscapeNewlines(s) == s
    decreases |s|
  {
    if |s| > 0 {
      assert s == [s[0]] + s[1..];
      EscapeNewlinesKeepsSingleLine(s[1..]);
    }
  }

  /**
   * Only line feeds are escaped: a backslash is not, so a line feed and a
   * backslash followed by `n` come out as the same C text.
   */
  lemma EscapeConflatesNewlineWithBackslashN()
    ensures EscapeNewlines("\n") == EscapeNewlines("\\n") == "\\n"
  {
    assert EscapeNewlines("\n") == "\\n" + EscapeNewlines("");
    assert EscapeNewlines("\\n") == "\\" + EscapeNewlines("n");
    assert EscapeNewlines("n") == "n" + EscapeNewlines("");
  }

  /** The text `generateExpression` appends for `e`. */
  function EmitExpr(e: Expression): string
    decreases e
  {
    match e
    case IntegerLiteralExpr(n) => NatToString(n)
    case IdentifierExpr(name) => name
    case StringLiteralExpr(value) => "\"" + EscapeNewlines(value) + "\""
    case BinaryExpr(left, right, op) => EmitExpr(left) + " " + op + " " + EmitExpr(right)
    case CallExpr(callee, args) => EmitExpr(callee) + "(" + EmitArgs(args, |args|) + ")"
  }

  /**
   * The text the argument loop of `generateExpression` has appended after its
   * first `i` turns: each argument, followed by `,` unless it is the last one.
   */
  function EmitArgs(args: seq<Expression>, i: nat): string
    requires i <= |args|
    decreases args, i
  {
    if i == 0 then ""
    else if i == |args| then EmitArgs(args, i - 1) + EmitExpr(args[i - 1])
    else EmitArgs(args, i - 1) + EmitExpr(args[i - 1]) + ","
  }

  /** `parts` joined by `,`: the text of a call's arguments, as a reader expects it. */
  function JoinWithCommas(parts: seq<string>): string {
    if |parts| == 0 then ""
    else if |parts| == 1 then parts[0]
    else JoinWithCommas(parts[..|parts| - 1]) + "," + parts[|parts| - 1]
  }

  /** The texts of the arguments, in order. */
  function ArgTexts(args: seq<Expression>): (r: seq<string>)
    ensures |r| == |args| && forall k :: 0 <= k < |args| ==> r[k] == EmitExpr(args[k])
  {
    seq(|args|, k requires 0 <= k < |args| => EmitExpr(args[k]))
  }

  /**
   * The arguments of a call come out joined by `,`: no separator before the first,
   * none after the last.
   */
  lemma CallArgumentsJoinedWithCommas(args: seq<Expression>)
    ensures EmitArgs(args, |args|) == JoinWithCommas(ArgTexts(args))
  {
    ArgumentLoopPrefix(args, |args|);
    assert ArgTexts(args)[..|args|] == ArgTexts(args);
  }

  lemma {:induction false} ArgumentLoopPrefix(args: seq<Expression>, i: nat)
    requires i <= |args|
    ensures EmitArgs(args, i) == JoinWithCommas(ArgTexts(args)[..i]) + (if 0 < i < |args| then "," else "")
    decreases i
  {
    if i > 0 {
      ArgumentLoopPrefix(args, i - 1);
      var texts := ArgTexts(args);
      var before := EmitArgs(args, i - 1) + EmitExpr(args[i - 1]);
      if i == 1 {
        assert before == texts[0];
      } else {
        assert texts[..i][..i - 1] == texts[..i - 1];
        assert before == JoinWithCommas(texts[..i]);
      }
    }
  }

  /** Names and operators without a line feed: what the lexer produces. */
  predicate SingleLineNames(e: Expression)
    decreases e
  {
    match e
    case IntegerLiteralExpr(_) => true
    case StringLiteralExpr(_) => true
    case IdentifierExpr(name) => '\n' !in name
    case BinaryExpr(left, right, op) => '\n' !in op && SingleLineNames(left) && SingleLineNames(right)
    case CallExpr(callee, args) => SingleLineNames(callee) && forall k :: 0 <= k < |args| ==> SingleLineNames(args[k])
  }

  /**
   * Since string literals are escaped, an expression whose names hold no line feed
   * is emitted on a single line, whatever its string literals contain.
   */
  lemma {:induction false} EmitExprIsSingleLine(e: Expression)
    requires SingleLineNames(e)
    ensures '\n' !in EmitExpr(e)
    decreases e
  {
    match e
    case IntegerLiteralExpr(n) =>
    case StringLiteralExpr(_) =>
    case IdentifierExpr(_) =>
    case BinaryExpr(left, right, op) =>
      EmitExprIsSingleLine(left);
      EmitExprIsSingleLine(right);
    case CallExpr(callee, args) =>
      EmitExprIsSingleLine(callee);
      EmitArgsAreSingleLine(args, |args|);
  }

  lemma {:induction false} EmitArgsAreSingleLine(args: seq<Expression>, i: nat)
    requires i <= |args|
    requires forall k :: 0 <= k < |args| ==> SingleLineNames(args[k])
    ensures '\n' !in EmitArgs(args, i)
    decreases args, i
  {
    if i > 0 {
      EmitArgsAreSingleLine(args, i - 1);
      EmitExprIsSingleLine(args[i - 1]);
    }
  }

  /** What a statement list appends, and the error it stops with, if any. */
  datatype Emitted = Emitted(text: string, error: Option<GenError>)

  /** The text the loop of `generateStatements` appends for `ss`, stopping at the first error. */
  function EmitStatements(ss: seq<Statement>): Emitted
    decreases ss
  {
    if |ss| == 0 then Emitted("", None)
    else
      var before := EmitStatements(ss[..|ss| - 1]);
      if before.error.Some? then before
      else
        var last := EmitListed(ss[|ss| - 1]);
        Emitted(before.text + last.text, last.error)
  }

  /** One turn of the switch in `generateStatements`. */
  function EmitListed(s: Statement): Emitted
    decreases s
  {
    match s
    case FunctionDeclarationStmt(name, returnType, body) =>
      (match MapTypeToCType(Some(returnType))
       case Err(e) => Emitted("", Some(e))
       case Ok(ctype) =>
         var header := ctype + " " + name + Line("() {");
         var inner := EmitBody(body);
         if inner.error.Some? then Emitted(header + inner.text, inner.error)
         else Emitted(header + inner.text + Line("") + Line("}"), None))
    case VariableDeclarationStmt(name, varType, value) =>
      (match MapTypeToCType(StoredTypeName(varType))
       case Err(e) => Emitted("", Some(e))
       case Ok(ctype) => Emitted(ctype + " " + name + " = " + EmitExpr(value) + Line(";"), None))
    case ExpressionStmt(value) => Emitted(EmitExpr(value) + Line(";"), None)
    case ReturnStmt(value) => Emitted("return " + EmitExpr(value) + Line(";"), None)
    case BlockStmt(_) => Emitted("", Some(NotImplemented(s)))
  }

  /** `generateStatement`: only a block is accepted, and its statements are emitted. */
  function EmitBody(s: Statement): Emitted
    decreases s
  {
    if s.BlockStmt? then EmitStatements(s.statements) else Emitted("", Some(NotImplemented(s)))
  }

  /**
   * The statements the generator accepts: a function with return type `u64` or
   * `u8` whose body is a block of accepted statements, a `var` of type `u8`, an
   * expression and a `return`. A block in a statement list is not accepted.
   */
  predicate Accepted(s: Statement)
    decreases s
  {
    match s
    case FunctionDeclarationStmt(_, returnType, body) =>
      && (returnType == "u64" || returnType == "u8")
      && body.BlockStmt?
      && forall k :: 0 <= k < |body.statements| ==> Accepted(body.statements[k])
    case VariableDeclarationStmt(_, varType, _) => varType == Some(U8)
    case ExpressionStmt(_) => true
    case ReturnStmt(_) => true
    case BlockStmt(_) => false
  }

  /** Generation of a statement list succeeds exactly when every statement is accepted. */
  lemma {:induction false} EmitStatementsSucceedsIff(ss: seq<Statement>)
    ensures EmitStatements(ss).error.None? <==> forall k :: 0 <= k < |ss| ==> Accepted(ss[k])
    decreases ss
  {
    if |ss| > 0 {
      var init := ss[..|ss| - 1];
      EmitStatementsSucceedsIff(init);
      EmitListedSucceedsIff(ss[|ss| - 1]);
      assert forall k :: 0 <= k < |init| ==> init[k] == ss[k];
    }
  }

  lemma {:induction false} EmitListedSucceedsIff(s: Statement)
    ensures EmitListed(s).error.None? <==> Accepted(s)
    decreases s
  {
    match s
    case FunctionDeclarationStmt(name, returnType, body) =>
      if body.BlockStmt? {
        EmitStatementsSucceedsIff(body.statements);
        assert EmitBody(body).error.None? <==> forall k :: 0 <= k < |body.statements| ==> Accepted(body.statements[k]);
      }
      assert MapTypeToCType(Some(returnType)).Ok? <==> returnType == "u64" || returnType == "u8";
    case VariableDeclarationStmt(_, varType, _) =>
      if varType.Some? {
        assert varType.value == U8;
      }
    case _ =>
  }

  /**
   * Statements are emitted one after the other: once a prefix has gone through,
   * the rest appends its own text after it and ends with its own error.
   */
  lemma {:induction false} EmitStatementsAppend(a: seq<Statement>, b: seq<Statement>)
    requires EmitStatements(a).error.None?
    ensures EmitStatements(a + b) == Emitted(EmitStatements(a).text + EmitStatements(b).text, EmitStatements(b).error)
    decreases |b|
  {
    if |b| == 0 {
      assert a + b == a;
    } else {
      var init := b[..|b| - 1];
      assert (a + b)[..|a + b| - 1] == a + init;
      EmitStatementsAppend(a, init);
    }
  }

  /** After the first failing statement nothing more is appended. */
  lemma {:induction false} EmitStatementsStopsAtError(a: seq<Statement>, b: seq<Statement>)
    requires EmitStatements(a).error.Some?
    ensures EmitStatements(a + b) == EmitStatements(a)
    decreases |b|
  {
    if |b| == 0 {
      assert a + b == a;
    } else {
      var init := b[..|b| - 1];
      assert (a + b)[..|a + b| - 1] == a + init;
      EmitStatementsStopsAtError(a, init);
    }
  }

  /** Appending `b` then `c` appends `b + c`. */
  lemma Regroup(a: string, b: string, c: string)
    ensures a + (b + c) == a + b + c
  {
  }

  const Prelude: string := "\n#include <stdio.h> \n"

  /**
   * The prelude template: an empty line, then the `#include` line with its
   * trailing space. `appendLine` adds one more line feed, so an empty line follows.
   */
  lemma PreludeLines()
    ensures Prelude == "\n" + "#include <stdio.h> " + "\n"
    ensures Line(Prelude) == "\n" + "#include <stdio.h> " + "\n" + "\n"
  {
  }

  class Generator {
    const output: StringBuilder

    constructor ()
      ensures fresh(output) && output.buffer == "" && output.indent == 0
    {
      output := new StringBuilder();
    }

    /** `generateExpression`: appends `EmitExpr(e)`. */
    method GenerateExpression(e: Expression)
      modifies output
      ensures output.buffer == old(output.buffer) + EmitExpr(e)
      ensures output.indent == old(output.indent)
      decreases e, 1
    {
      ghost var start := output.buffer;
      match e
      case IntegerLiteralExpr(n) =>
        output.Append(NatToString(n));
      case IdentifierExpr(name) =>
        output.Append(name);
      case StringLiteralExpr(value) =>
        output.Append("\"");
        output.Append(EscapeNewlines(value));
        output.Append("\"");
        Regroup(start, "\"", EscapeNewlines(value));
        Regroup(start, "\"" + EscapeNewlines(value), "\"");
      case BinaryExpr(left, right, op) =>
        GenerateExpression(left);
        output.Append(" ");
        output.Append(op);
        output.Append(" ");
        GenerateExpression(right);
        Regroup(start, EmitExpr(left), " ");
        Regroup(start, EmitExpr(left) + " ", op);
        Regroup(start, EmitExpr(left) + " " + op, " ");
        Regroup(start, EmitExpr(left) + " " + op + " ", EmitExpr(right));
      case CallExpr(callee, args) =>
        GenerateCall(callee, args);
    }

    /** The `CALL` case of `generateExpression`, with its loop over the arguments. */
    method GenerateCall(callee: Expression, args: seq<Expression>)
      modifies output
      ensures output.buffer == old(output.buffer) + EmitExpr(CallExpr(callee, args))
      ensures output.indent == old(output.indent)
      decreases CallExpr(callee, args), 0
    {
      ghost var start := output.buffer;
      GenerateExpression(callee);
      output.Append("(");
      ghost var open := output.buffer;
      Regroup(start, EmitExpr(callee), "(");
      for i := 0 to |args|
        invariant output.buffer == open + EmitArgs(args, i)
        invariant output.indent == old(output.indent)
      {
        ghost var done := EmitArgs(args, i);
        GenerateExpression(args[i]);
        Regroup(open, done, EmitExpr(args[i]));
        if i + 1 != |args| {
          output.Append(",");
          Regroup(open, done + EmitExpr(args[i]), ",");
        }
      }
      output.Append(")");
      Regroup(start, EmitExpr(callee) + "(", EmitArgs(args, |args|));
      Regroup(start, EmitExpr(callee) + "(" + EmitArgs(args, |args|), ")");
    }

    /** `generateStatement`: appends `EmitBody(s)` and reports its error. */
    method GenerateStatement(s: Statement) returns (error: Option<GenError>)
      modifies output
      ensures output.buffer == old(output.buffer) + EmitBody(s).text
      ensures error == EmitBody(s).error
      ensures output.indent == old(output.indent)
      decreases s, 2
    {
      if s.BlockStmt? {
        error := GenerateStatements(s.statements);
      } else {
        error := Some(NotImplemented(s));
      }
    }

    /** The switch in the loop of `generateStatements`: appends `EmitListed(s)`. */
    method GenerateListed(s: Statement) returns (error: Option<GenError>)
      modifies output
      ensures output.buffer == old(output.buffer) + EmitListed(s).text
      ensures error == EmitListed(s).error
      ensures output.indent == old(output.indent)
      decreases s, 1
    {
      ghost var start := output.buffer;
      match s {
        case FunctionDeclarationStmt(name, returnType, body) =>
          error := GenerateFunctionDeclaration(name, returnType, body);
        case VariableDeclarationStmt(name, varType, value) =>
          var ctype := MapTypeToCType(StoredTypeName(varType));
          if ctype.Err? {
            return Some(ctype.error);
          }
          output.Append(ctype.value);
          output.Append(" ");
          output.Append(name);
          output.Append(" = ");
          GenerateExpression(value);
          output.AppendLine(";");
          Regroup(start, ctype.value, " ");
          Regroup(start, ctype.value + " ", name);
          Regroup(start, ctype.value + " " + name, " = ");
          Regroup(start, ctype.value + " " + name + " = ", EmitExpr(value));
          Regroup(start, ctype.value + " " + name + " = " + EmitExpr(value), Line(";"));
          error := None;
        case ExpressionStmt(value) =>
          GenerateExpression(value);
          output.AppendLine(";");
          Regroup(start, EmitExpr(value), Line(";"));
          error := None;
        case ReturnStmt(value) =>
          output.Append("return ");
          GenerateExpression(value);
          output.AppendLine(";");
          Regroup(start, "return ", EmitExpr(value));
          Regroup(start, "return " + EmitExpr(value), Line(";"));
          error := None;
        case BlockStmt(_) =>
          error := Some(NotImplemented(s));
      }
    }

    /** The `FUNCTION_DECLARATION` case of `generateStatements`. */
    method GenerateFunctionDeclaration(name: string, returnType: string, body: Statement) returns (error: Option<GenError>)
      modifies output
      ensures output.buffer == old(output.buffer) + EmitListed(FunctionDeclarationStmt(name, returnType, body)).text
      ensures error == EmitListed(FunctionDeclarationStmt(name, returnType, body)).error
      ensures output.indent == old(output.indent)
      decreases FunctionDeclarationStmt(name, returnType, body), 0
    {
      ghost var start := output.buffer;
      var ctype := MapTypeToCType(Some(returnType));
      if ctype.Err? {
        return Some(ctype.error);
      }
      output.Append(ctype.value);
      output.Append(" ");
      output.Append(name);
      output.AppendLine("() {");
      Regroup(start, ctype.value, " ");
      Regroup(start, ctype.value + " ", name);
      Regroup(start, ctype.value + " " + name, Line("() {"));
      ghost var header := ctype.value + " " + name + Line("() {");
      error := GenerateStatement(body);
      ghost var inner := EmitBody(body).text;
      Regroup(start, header, inner);
      if error.Some? {
        return;
      }
      output.AppendLine("");
      output.AppendLine("}");
      Regroup(start, header + inner, Line(""));
      Regroup(start, header + inner + Line(""), Line("}"));
    }

    /** `generateStatements`: appends `EmitStatements(ss)` and reports its error. */
    method GenerateStatements(ss: seq<Statement>) returns (error: Option<GenError>)
      modifies output
      ensures output.buffer == old(output.buffer) + EmitStatements(ss).text
      ensures error == EmitStatements(ss).error
      ensures output.indent == old(output.indent)
      decreases ss
    {
      for i := 0 to |ss|
        invariant output.buffer == old(output.buffer) + EmitStatements(ss[..i]).text
        invariant EmitStatements(ss[..i]).error.None?
        invariant output.indent == old(output.indent)
      {
        ghost var done := EmitStatements(ss[..i]).text;
        assert ss[..i + 1][..i] == ss[..i];
        error := GenerateListed(ss[i]);
        Regroup(old(output.buffer), done, EmitListed(ss[i]).text);
        if error.Some? {
          assert ss[..i + 1] + ss[i + 1..] == ss;
          EmitStatementsStopsAtError(ss[..i + 1], ss[i + 1..]);
          return;
        }
      }
      assert ss[..|ss|] == ss;
      return None;
    }

    /**
     * `generate`: appends the prelude and a line feed, then the program's
     * statements, to the buffer, which is never reset; on success the whole
     * buffer is returned.
     */
    method Generate(program: Program) returns (r: Result<string, GenError>)
      modifies output
      ensures output.buffer == old(output.buffer) + Line(Prelude) + EmitStatements(program.body).text
      ensures EmitStatements(program.body).error.None? ==> r == Ok(output.buffer)
      ensures EmitStatements(program.body).error.Some? ==> r == Err(EmitStatements(program.body).error.value)
      ensures output.indent == old(output.indent)
    {
      output.AppendLine(Prelude);
      var error := GenerateStatements(program.body);
      if error.Some? {
        return Err(error.value);
      }
      var text := output.ToString();
      return Ok(text);
    }
  }
}
