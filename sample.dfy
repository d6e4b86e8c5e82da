/**
 * The driver of js_bootstrap/compiler.js run on its sample: the program the
 * parser builds from the sample tokens, the C the generator prints for it, and
 * the whole compilation of the sample source.
 */
module Sample {
  import opened Results
  import opened Lexing
  import opened Ast
  import opened Parsing
  import opened CodeGen
  import opened StringBuilding
  import opened Pipeline
  import opened SampleText

  /** The statements of `main` in the sample, as the parser builds them. */
  const SampleBody: seq<Statement> := [
    VariableDeclarationStmt("x", Some(U8), IntegerLiteralExpr(1)),
    VariableDeclarationStmt("y", Some(U8), IntegerLiteralExpr(2)),
    VariableDeclarationStmt("result", Some(U8), BinaryExpr(IdentifierExpr("x"), IdentifierExpr("y"), "+")),
    ExpressionStmt(CallExpr(IdentifierExpr("printf"), [StringLiteralExpr("result: ")])),
    ExpressionStmt(CallExpr(IdentifierExpr("printf"), [StringLiteralExpr("%d\n"), IdentifierExpr("result")])),
    ReturnStmt(IntegerLiteralExpr(0))
  ]

  const SampleProgram: Program := Program([FunctionDeclarationStmt("main", "u64", BlockStmt(SampleBody))])

  // ---------------------------------------------------------------------------
  // Parsing the sample tokens, statement by statement
  // ---------------------------------------------------------------------------

  /** `var x: u8 = 1;`: the tokens from 6 on parse as the first declaration. */
  lemma DeclarationOfXParses()
    ensures ParseStmt(SampleTokens, 6) == Ok(Parsed(SampleBody[0], 13))
  {
    assert SampleTokens[6..13] == Tokens8;
    assert DecimalValue("1") == 1;
    PrimaryBeforeTerminatorBacksUp(SampleTokens, 11);
    VarDeclarationParses(SampleTokens, 6, "x", "u8", Parsed(IntegerLiteralExpr(1), 11));
  }

  /** `var y: u8 = 2;`, from token 13. */
  lemma DeclarationOfYParses()
    ensures ParseStmt(SampleTokens, 13) == Ok(Parsed(SampleBody[1], 20))
  {
    assert SampleTokens[13..20] == Tokens9;
    assert DecimalValue("2") == 2;
    PrimaryBeforeTerminatorBacksUp(SampleTokens, 18);
    VarDeclarationParses(SampleTokens, 13, "y", "u8", Parsed(IntegerLiteralExpr(2), 18));
  }

  /** `var result: u8 = x + y;`, from token 20: the value is the `+` chain of `x` and `y`. */
  lemma DeclarationOfResultParses()
    ensures ParseStmt(SampleTokens, 20) == Ok(Parsed(SampleBody[2], 29))
  {
    assert SampleTokens[20..29] == Tokens10;
    var operands := [IdentifierExpr("x"), IdentifierExpr("y")];
    assert PlusChain(SampleTokens, 27, operands[1..]);
    PlusChainIsRightAssociative(SampleTokens, 25, operands);
    VarDeclarationParses(SampleTokens, 20, "result", "u8", Parsed(RightNestedSum(operands), 27));
  }

  /** `printf("result: ");`, from token 29: a call on one argument, closed by `;`. */
  lemma FirstCallParses()
    ensures ParseStmt(SampleTokens, 29) == Ok(Parsed(SampleBody[3], 34))
  {
    assert SampleTokens[29..34] == Tokens11;
    var call := CallExpr(IdentifierExpr("printf"), [StringLiteralExpr("result: ")]);
    CallBeforeSemicolon(SampleTokens, 29, IdentifierExpr("printf"), [StringLiteralExpr("result: ")]);
    ExpressionStatementParses(SampleTokens, 29, Parsed(call, 32));
  }

  /** `printf("%d\n", result);`, from token 34: the `,` is a token of its own that the argument loop drops. */
  lemma SecondCallParses()
    ensures ParseStmt(SampleTokens, 34) == Ok(Parsed(SampleBody[4], 41))
  {
    assert SampleTokens[34..41] == Tokens12;
    var args := [StringLiteralExpr("%d\n"), IdentifierExpr("result")];
    assert SeparatedArgs(SampleTokens, 38, args[1..]);
    CallBeforeSemicolon(SampleTokens, 34, IdentifierExpr("printf"), args);
    ExpressionStatementParses(SampleTokens, 34, Parsed(CallExpr(IdentifierExpr("printf"), args), 39));
  }

  /** `return 0;`, from token 41. */
  lemma ReturnOfZeroParses()
    ensures ParseStmt(SampleTokens, 41) == Ok(Parsed(SampleBody[5], 44))
  {
    assert SampleTokens[41..44] == Tokens13;
    assert DecimalValue("0") == 0;
    PrimaryBeforeTerminatorBacksUp(SampleTokens, 42);
    ReturnParses(SampleTokens, 41, Parsed(IntegerLiteralExpr(0), 42));
  }

  /** Where each statement of the body starts, and where the body stops. */
  const StatementStarts: seq<nat> := [6, 13, 20, 29, 34, 41, 44]

  /** The `k`-th statement of the body parses from its start to the next one's. */
  lemma SampleStatementParses(k: nat)
    requires k < 6
    ensures ParseStmt(SampleTokens, StatementStarts[k]) == Ok(Parsed(SampleBody[k], StatementStarts[k + 1]))
  {
    if k == 0 {
      DeclarationOfXParses();
    } else if k == 1 {
      DeclarationOfYParses();
    } else if k == 2 {
      DeclarationOfResultParses();
    } else if k == 3 {
      FirstCallParses();
    } else if k == 4 {
      SecondCallParses();
    } else {
      ReturnOfZeroParses();
    }
  }

  /** The statement list from the `k`-th statement on collects the rest of the body and stops on the `}`. */
  lemma {:induction false} SampleStatementsParse(k: nat, acc: seq<Statement>)
    requires k <= 6
    ensures ParseStmts(SampleTokens, StatementStarts[k], acc) == Ok(Parsed(acc + SampleBody[k..], 44))
    decreases 6 - k
  {
    if k == 6 {
      assert SampleTokens[44..45] == Tokens14;
      StatementsStop(SampleTokens, 44, acc);
      assert acc + SampleBody[6..] == acc;
    } else {
      SampleStatementParses(k);
      StatementsContinue(SampleTokens, StatementStarts[k], acc, Parsed(SampleBody[k], StatementStarts[k + 1]));
      SampleStatementsParse(k + 1, acc + [SampleBody[k]]);
      assert acc + [SampleBody[k]] + SampleBody[k + 1..] == acc + SampleBody[k..];
    }
  }

  /** The block of `main` is the body, and it leaves the cursor on its `}`. */
  lemma SampleBlockParses()
    ensures ParseStmt(SampleTokens, 5) == Ok(Parsed(BlockStmt(SampleBody), 44))
  {
    assert SampleTokens[0..6] == Tokens7;
    SampleStatementsParse(0, []);
    assert [] + SampleBody[0..] == SampleBody;
    BlockParses(SampleTokens, 5, Parsed(SampleBody, 44));
  }

  /** The function declaration `main` spans the tokens up to the closing `}`. */
  lemma SampleMainParses()
    ensures ParseStmt(SampleTokens, 0) == Ok(Parsed(SampleProgram.body[0], 44))
  {
    assert SampleTokens[0..6] == Tokens7;
    SampleBlockParses();
    FunctionDeclarationParses(SampleTokens, 0, "main", "u64", Parsed(BlockStmt(SampleBody), 44));
  }

  /**
   * `parse` on the sample tokens builds the sample program: one function, after
   * which the statement list stops on the `}` that the block left in place.
   */
  lemma SampleTokensParse()
    ensures ParseProgram(SampleTokens, 0) == Ok(SampleProgram)
  {
    var main := SampleProgram.body[0];
    SampleMainParses();
    StatementsContinue(SampleTokens, 0, [], Parsed(main, 44));
    assert SampleTokens[44..45] == Tokens14;
    StatementsStop(SampleTokens, 44, [] + [main]);
    assert [] + [main] == SampleProgram.body;
  }

  // ---------------------------------------------------------------------------
  // Generating C for the sample program
  // ---------------------------------------------------------------------------

  /** The lines the generator emits for the statements of `SampleBody`, one each. */
  const SampleLines: seq<string> := [
    "char x = 1;\n",
    "char y = 2;\n",
    "char result = x + y;\n",
    "printf(\"result: \");\n",
    "printf(\"%d\\n\",result);\n",
    "return 0;\n"
  ]

  /**
   * The C the driver prints for its sample program, after the prelude: the line
   * feed inside `"%d\n"` comes out as a backslash and an `n`.
   */
  lemma SampleProgramGeneratesC(program: Program)
    requires program == SampleProgram
    ensures EmitStatements(program.body) == Emitted(
              "int main() {\n" +
              "char x = 1;\n" +
              "char y = 2;\n" +
              "char result = x + y;\n" +
              "printf(\"result: \");\n" +
              "printf(\"%d\\n\",result);\n" +
              "return 0;\n" +
              "\n}\n", None)
  {
    var main := program.body[0];
    SampleBodyText(main.body.statements);
    assert EmitListed(main) == Emitted("int" + " " + "main" + Line("() {") + Concat(SampleLines) + Line("") + Line("}"), None);
    assert program.body[..0] == [];
    SampleProgramText();
  }

  /** The body of `main`, line by line. */
  lemma SampleBodyText(b: seq<Statement>)
    requires b == SampleBody
    ensures EmitStatements(b) == Emitted(Concat(SampleLines), None)
  {
    SampleDeclarationLines(b);
    SampleFirstCallLine(b);
    SampleSecondCallLine(b);
    SampleReturnLine(b);
    assert |b| == |SampleLines| == 6;
    forall k | 0 <= k < |b|
      ensures EmitListed(b[k]) == Emitted(SampleLines[k], None)
    {
      assert k == 0 || k == 1 || k == 2 || k == 3 || k == 4 || k == 5;
    }
    EmitStatementsConcatenates(b, SampleLines);
  }

  /** Each `var` line of the sample. */
  lemma SampleDeclarationLines(b: seq<Statement>)
    requires b == SampleBody
    ensures EmitListed(b[0]) == Emitted(SampleLines[0], None)
    ensures EmitListed(b[1]) == Emitted(SampleLines[1], None)
    ensures EmitListed(b[2]) == Emitted(SampleLines[2], None)
  {
    ByteDeclarationLine("x", IntegerLiteralExpr(1));
    ByteDeclarationLine("y", IntegerLiteralExpr(2));
    var sum := BinaryExpr(IdentifierExpr("x"), IdentifierExpr("y"), "+");
    ByteDeclarationLine("result", sum);
    assert EmitExpr(IntegerLiteralExpr(1)) == "1";
    assert EmitExpr(IntegerLiteralExpr(2)) == "2";
    assert EmitExpr(sum) == "x" + " " + "+" + " " + "y";
    SampleDeclarationText();
  }

  /** The literal texts of those lines, checked apart from the generator's definitions. */
  lemma SampleDeclarationText()
    ensures "char" + " " + "x" + " = " + "1" + Line(";") == SampleLines[0]
    ensures "char" + " " + "y" + " = " + "2" + Line(";") == SampleLines[1]
    ensures "char" + " " + "result" + " = " + ("x" + " " + "+" + " " + "y") + Line(";") == SampleLines[2]
  {
  }

  /** The only line feed of the sample is the one in the second format string. */
  lemma SampleEscapes()
    ensures EscapeNewlines("%d\n") == "%d\\n"
  {
    var percent := "%d";
    EscapeNewlinesKeepsSingleLine(percent);
    EscapeConflatesNewlineWithBackslashN();
    EscapeNewlinesDistributes(percent, "\n");
    assert percent + "\n" == "%d\n";
  }

  /** The first `printf` line. */
  lemma SampleFirstCallLine(b: seq<Statement>)
    requires b == SampleBody
    ensures EmitListed(b[3]) == Emitted(SampleLines[3], None)
  {
    SingleMessageCallLine("printf", "result: ");
    SampleFirstCallText();
  }

  lemma SampleFirstCallText()
    ensures "printf" + "(" + ("" + ("\"" + "result: " + "\"")) + ")" + Line(";") == SampleLines[3]
  {
  }

  /** The second `printf` line, with its escaped format. */
  lemma SampleSecondCallLine(b: seq<Statement>)
    requires b == SampleBody
    ensures EmitListed(b[4]) == Emitted(SampleLines[4], None)
  {
    FormatCallLine("printf", "%d\n", "result");
    SampleEscapes();
    SampleSecondCallText("%d\\n");
  }

  lemma SampleSecondCallText(escaped: string)
    requires escaped == "%d\\n"
    ensures "printf" + "(" + ("" + ("\"" + escaped + "\"") + "," + "result") + ")" + Line(";") == SampleLines[4]
  {
  }

  /** The `return` line. */
  lemma SampleReturnLine(b: seq<Statement>)
    requires b == SampleBody
    ensures EmitListed(b[5]) == Emitted(SampleLines[5], None)
  {
  }

  /** The sample lines joined, written out. */
  lemma SampleLinesConcat()
    ensures var t := SampleLines; Concat(t) == t[0] + t[1] + t[2] + t[3] + t[4] + t[5]
  {
    var t := SampleLines;
    assert t[..1][..0] == [];
    assert Concat(t[..1]) == t[0];
    assert t[..2][..1] == t[..1];
    assert Concat(t[..2]) == t[0] + t[1];
    assert t[..3][..2] == t[..2];
    assert Concat(t[..3]) == t[0] + t[1] + t[2];
    assert t[..4][..3] == t[..3];
    assert Concat(t[..4]) == t[0] + t[1] + t[2] + t[3];
    assert t[..5][..4] == t[..4];
    assert Concat(t[..5]) == t[0] + t[1] + t[2] + t[3] + t[4];
    assert t[..5] == t[..|t| - 1];
  }

  /** The function around the sample lines, written out. */
  lemma SampleProgramText()
    ensures "int" + " " + "main" + Line("() {") + Concat(SampleLines) + Line("") + Line("}") ==
              "int main() {\n" +
              "char x = 1;\n" +
              "char y = 2;\n" +
              "char result = x + y;\n" +
              "printf(\"result: \");\n" +
              "printf(\"%d\\n\",result);\n" +
              "return 0;\n" +
              "\n}\n"
  {
    SampleLinesConcat();
    var t := SampleLines;
    var header := "int" + " " + "main" + Line("() {");
    assert header == "int main() {\n";
    assert Line("") + Line("}") == "\n}\n";
    var body := t[0] + t[1] + t[2] + t[3] + t[4] + t[5];
    Regroup(header + body, Line(""), Line("}"));
  }

  /**
   * `compile` on the sample source: the lexer halts, the parser builds the sample
   * program, and the output is the prelude followed by the C for `main`.
   */
  lemma SampleCompiles()
    ensures Lex(SampleSource).Halts?
    ensures Compile(SampleSource) == Ok(Line(Prelude) + (
              "int main() {\n" +
              "char x = 1;\n" +
              "char y = 2;\n" +
              "char result = x + y;\n" +
              "printf(\"result: \");\n" +
              "printf(\"%d\\n\",result);\n" +
              "return 0;\n" +
              "\n}\n"))
  {
    SampleSourceLexes();
    SampleTokensParse();
    SampleProgramGeneratesC(SampleProgram);
    assert Lex(SampleSource).tokens == SampleTokens;
  }
}
