/**
 * The three stages chained as js_bootstrap/compiler.js chains them: a fresh
 * `Parser` lexes and parses the source, a fresh `Generator` emits C. Also the
 * properties that need two stages at once: the integer literal round trip
 * between the parser's `parseInt` and the generator's decimal rendering, and the
 * output that a second `generate` on the same generator accumulates.
 */
module Pipeline {
  import opened Results
  import opened Lexing
  import opened Ast
  import opened Parsing
  import opened CodeGen
  import opened StringBuilding

  datatype CompileError =
    | ParseFailed(parse: ParseError)
    | GenerateFailed(generate: GenError)

  /**
   * The C text for `source`. A source on which the lexer does not halt has no
   * result: the JavaScript loop never ends.
   */
  function Compile(source: string): (r: Result<string, CompileError>)
    requires Lex(source).Halts?
    ensures r.Ok? ==> Line(Prelude) <= r.value
  {
    match ParseProgram(Lex(source).tokens, 0)
    case Err(e) => Err(ParseFailed(e))
    case Ok(program) =>
      var emitted := EmitStatements(program.body);
      if emitted.error.Some? then Err(GenerateFailed(emitted.error.value))
      else Ok(Line(Prelude) + emitted.text)
  }

  /** A parsed program compiles exactly when the generator accepts each of its statements. */
  lemma CompileSucceedsIff(source: string)
    requires Lex(source).Halts?
    requires ParseProgram(Lex(source).tokens, 0).Ok?
    ensures var body := ParseProgram(Lex(source).tokens, 0).value.body;
            Compile(source).Ok? <==> forall k :: 0 <= k < |body| ==> Accepted(body[k])
  {
    EmitStatementsSucceedsIff(ParseProgram(Lex(source).tokens, 0).value.body);
  }

  /** `compile`: a fresh parser and a fresh generator, so the output is `Compile(source)`. */
  method CompileFresh(source: string) returns (r: Result<string, CompileError>)
    requires Lex(source).Halts?
    ensures r == Compile(source)
  {
    var parser := new Parser();
    var ast := parser.Parse(source);
    if ast.Err? {
      return Err(ParseFailed(ast.error));
    }
    var generator := new Generator();
    var out := generator.Generate(ast.value);
    assert "" + Line(Prelude) == Line(Prelude);
    if out.Err? {
      return Err(GenerateFailed(out.error));
    }
    return Ok(out.value);
  }

  /**
   * `output` is never reset: a second `generate` on the same generator returns the
   * text of both programs, each after its own prelude.
   */
  method GenerateTwice(g: Generator, first: Program, second: Program) returns (r: Result<string, GenError>)
    requires g.output.buffer == ""
    requires EmitStatements(first.body).error.None?
    modifies g.output
    ensures EmitStatements(second.body).error.None? ==>
              r == Ok(Line(Prelude) + EmitStatements(first.body).text + Line(Prelude) + EmitStatements(second.body).text)
  {
    var once := g.Generate(first);
    assert "" + Line(Prelude) == Line(Prelude);
    r := g.Generate(second);
  }

  /** The integer the generator prints is read back by `parseInt` as the same value. */
  lemma {:induction false} DecimalValueOfNatToString(n: nat)
    ensures DecimalValue(NatToString(n)) == n
    decreases n
  {
    if n >= 10 {
      DecimalValueOfNatToString(n / 10);
      var s := NatToString(n / 10) + [DigitChar(n % 10)];
      assert s[..|s| - 1] == NatToString(n / 10);
    }
  }

  /** Digits without a leading zero start a positive number. */
  lemma {:induction false} LeadingDigitMakesPositive(s: string)
    requires |s| > 0 && '1' <= s[0] <= '9'
    requires forall k :: 0 <= k < |s| ==> '0' <= s[k] <= '9'
    ensures DecimalValue(s) > 0
    decreases |s|
  {
    if |s| > 1 {
      LeadingDigitMakesPositive(s[..|s| - 1]);
    }
  }

  /**
   * An INT token without leading zeros comes out of parser and generator as the
   * same digits.
   */
  lemma {:induction false} NatToStringOfDecimalValue(s: string)
    requires |s| > 0 && (|s| > 1 ==> s[0] != '0')
    requires forall k :: 0 <= k < |s| ==> '0' <= s[k] <= '9'
    ensures NatToString(DecimalValue(s)) == s
    decreases |s|
  {
    var init := s[..|s| - 1];
    var d := DigitValue(s[|s| - 1]);
    if |s| == 1 {
      assert DecimalValue(s) == d;
      assert [DigitChar(d)] == s;
    } else {
      NatToStringOfDecimalValue(init);
      LeadingDigitMakesPositive(init);
      var v := DecimalValue(init);
      var n := 10 * v + d;
      assert DecimalValue(s) == n;
      assert n >= 10 && n / 10 == v && n % 10 == d;
      assert NatToString(n) == NatToString(v) + [DigitChar(d)];
      assert DigitChar(d) == s[|s| - 1];
      assert s == init + [s[|s| - 1]];
    }
  }

  /** Leading zeros of an INT token are lost: `007` is printed as `7`. */
  lemma LeadingZerosAreDropped()
    ensures NatToString(DecimalValue("007")) == "7"
  {
    assert DecimalValue("00") == 0;
    assert DecimalValue("007") == 7;
  }

  // ---------------------------------------------------------------------------
  // The text of individual statements
  // ---------------------------------------------------------------------------

  /** A `u8` declaration is emitted as a `char` one. */
  lemma ByteDeclarationLine(name: string, value: Expression)
    ensures EmitListed(VariableDeclarationStmt(name, Some(U8), value)) ==
              Emitted("char" + " " + name + " = " + EmitExpr(value) + Line(";"), None)
  {
    assert StoredTypeName(Some(U8)) == Some("u8");
  }

  /** A call of `f` on one string argument without line feeds is emitted with that string as written. */
  lemma SingleMessageCallLine(f: string, message: string)
    requires '\n' !in message
    ensures EmitListed(ExpressionStmt(CallExpr(IdentifierExpr(f), [StringLiteralExpr(message)]))) ==
              Emitted(f + "(" + ("" + ("\"" + message + "\"")) + ")" + Line(";"), None)
  {
    EscapeNewlinesKeepsSingleLine(message);
    var args := [StringLiteralExpr(message)];
    assert EmitExpr(args[0]) == "\"" + message + "\"";
    assert EmitArgs(args, 1) == EmitArgs(args, 0) + EmitExpr(args[0]);
    assert EmitExpr(CallExpr(IdentifierExpr(f), args)) == f + "(" + EmitArgs(args, 1) + ")";
  }

  /** A call of `f` on a format string and one variable: the format comes out escaped. */
  lemma FormatCallLine(f: string, format: string, name: string)
    ensures EmitListed(ExpressionStmt(CallExpr(IdentifierExpr(f), [StringLiteralExpr(format), IdentifierExpr(name)]))) ==
              Emitted(f + "(" + ("" + ("\"" + EscapeNewlines(format) + "\"") + "," + name) + ")" + Line(";"), None)
  {
    var args := [StringLiteralExpr(format), IdentifierExpr(name)];
    assert EmitArgs(args, 1) == EmitArgs(args, 0) + EmitExpr(args[0]) + ",";
    assert EmitArgs(args, 2) == EmitArgs(args, 1) + EmitExpr(args[1]);
    assert EmitExpr(CallExpr(IdentifierExpr(f), args)) == f + "(" + EmitArgs(args, 2) + ")";
  }

  /** The lines of `lines` one after another. */
  function Concat(lines: seq<string>): string
    decreases |lines|
  {
    if |lines| == 0 then "" else Concat(lines[..|lines| - 1]) + lines[|lines| - 1]
  }

  /** Statements the generator accepts one by one are emitted as their lines, in order. */
  lemma {:induction false} EmitStatementsConcatenates(ss: seq<Statement>, lines: seq<string>)
    requires |ss| == |lines|
    requires forall k :: 0 <= k < |ss| ==> EmitListed(ss[k]) == Emitted(lines[k], None)
    ensures EmitStatements(ss) == Emitted(Concat(lines), None)
    decreases |ss|
  {
    if |ss| > 0 {
      EmitStatementsConcatenates(ss[..|ss| - 1], lines[..|lines| - 1]);
    }
  }
}
