/**
 * The source text that js_bootstrap/compiler.js compiles, and what the lexer
 * reads from it. The text is laid out as pieces (whitespace and a token each),
 * a few pieces at a time; once the pieces are shown to be chained, the lexer
 * halts on the text with exactly their tokens.
 */
module SampleText {
  import opened Lexing

  /**
   * The template literal the driver compiles, split at its line feeds: it starts
   * and ends with one, and the `\n` inside the format string is a line feed too.
   */
  const SampleSource: string :=
    "\nfunc main() u64 {" +
    "\n    var x: u8 = 1;" +
    "\n    var y: u8 = 2;" +
    "\n    var result: u8 = x + y;" +
    "\n    printf(\"result: \");" +
    "\n    printf(\"%d\n\", result);" +
    "\n    return 0;" +
    "\n}\n"

  /**
   * The pieces are chained up to `last`, their text followed by `tail` is
   * `text`, and their tokens are `tokens`.
   */
  predicate LaysOut(ps: seq<Piece>, last: char, tail: string, text: string, tokens: seq<Token>) {
    Chained(ps, 0, last) && Text(ps, 0, tail) == text && TokensOf(ps) == tokens
  }

  /** Pieces laid out before other laid-out pieces: the texts and the tokens join. */
  lemma LaidBefore(a: seq<Piece>, b: seq<Piece>, last: char, tail: string,
                   ta: string, tb: string, sa: seq<Token>, sb: seq<Token>)
    requires |b| > 0 && LaysOut(a, Lead(b[0]), "", ta, sa) && LaysOut(b, last, tail, tb, sb)
    ensures LaysOut(a + b, last, tail, ta + tb, sa + sb)
  {
    ChainedAppend(a, b, 0, last);
    TextAppend(a, b, 0, tail);
    TokensOfAppend(a, b);
  }

  // The lines of the source, each with its tokens and its pieces, two pieces at a
  // time; the first piece of a line holds the line feed before it.

  // `func main() u64 {`, line 7 of js_bootstrap/compiler.js.

  const Tokens7: seq<Token> := [Token(Keyword, "func"), Token(Identifier, "main"), Token(LeftParen, "("), Token(RightParen, ")"), Token(Keyword, "u64"), Token(LeftBrace, "{")]

  const Line7a: seq<Piece> := [
    Piece("\n", Token(Keyword, "func")),
    Piece(" ", Token(Identifier, "main"))
  ]

  const Line7b: seq<Piece> := [
    Piece("", Token(LeftParen, "(")),
    Piece("", Token(RightParen, ")"))
  ]

  const Line7c: seq<Piece> := [
    Piece(" ", Token(Keyword, "u64")),
    Piece(" ", Token(LeftBrace, "{"))
  ]

  const Line7: seq<Piece> := Line7a + Line7b + Line7c

  lemma Line7aChained()
    ensures Chained(Line7a, 0, Lead(Line7b[0]))
  {
  }

  lemma Line7aText()
    ensures Text(Line7a, 0, "") == "\nfunc main" && TokensOf(Line7a) == [Token(Keyword, "func"), Token(Identifier, "main")]
  {
  }

  lemma Line7bChained()
    ensures Chained(Line7b, 0, Lead(Line7c[0]))
  {
  }

  lemma Line7bText()
    ensures Text(Line7b, 0, "") == "()" && TokensOf(Line7b) == [Token(LeftParen, "("), Token(RightParen, ")")]
  {
  }

  lemma Line7cChained()
    ensures Chained(Line7c, 0, '\n')
  {
  }

  lemma Line7cText()
    ensures Text(Line7c, 0, "") == " u64 {" && TokensOf(Line7c) == [Token(Keyword, "u64"), Token(LeftBrace, "{")]
  {
  }

  lemma Line7Laid()
    ensures LaysOut(Line7, '\n', "", "\nfunc main() u64 {", Tokens7)
  {
    Line7aChained(); Line7aText(); Line7bChained(); Line7bText(); Line7cChained(); Line7cText();
    LaidBefore(Line7a, Line7b, Lead(Line7c[0]), "",
      "\nfunc main", "()",
      [Token(Keyword, "func"), Token(Identifier, "main")], [Token(LeftParen, "("), Token(RightParen, ")")]);
    LaidBefore(Line7a + Line7b, Line7c, '\n', "",
      "\nfunc main" + "()", " u64 {",
      [Token(Keyword, "func"), Token(Identifier, "main")] + [Token(LeftParen, "("), Token(RightParen, ")")], [Token(Keyword, "u64"), Token(LeftBrace, "{")]);
    Line7Spelled();
  }

  lemma Line7Spelled()
    ensures "\nfunc main" + "()" + " u64 {" == "\nfunc main() u64 {"
    ensures [Token(Keyword, "func"), Token(Identifier, "main")] + [Token(LeftParen, "("), Token(RightParen, ")")] + [Token(Keyword, "u64"), Token(LeftBrace, "{")] == Tokens7
  {
  }

  // `var x: u8 = 1;`, line 8 of js_bootstrap/compiler.js.

  const Tokens8: seq<Token> := [Token(Keyword, "var"), Token(Identifier, "x"), Token(Colon, ":"), Token(Keyword, "u8"), Token(Equals, "="), Token(IntLiteral, "1"), Token(Semicolon, ";")]

  const Line8a: seq<Piece> := [
    Piece("\n    ", Token(Keyword, "var")),
    Piece(" ", Token(Identifier, "x"))
  ]

  const Line8b: seq<Piece> := [
    Piece("", Token(Colon, ":")),
    Piece(" ", Token(Keyword, "u8"))
  ]

  const Line8c: seq<Piece> := [
    Piece(" ", Token(Equals, "=")),
    Piece(" ", Token(IntLiteral, "1"))
  ]

  const Line8d: seq<Piece> := [
    Piece("", Token(Semicolon, ";"))
  ]

  const Line8: seq<Piece> := Line8a + Line8b + Line8c + Line8d

  lemma Line8aChained()
    ensures Chained(Line8a, 0, Lead(Line8b[0]))
  {
  }

  lemma Line8aText()
    ensures Text(Line8a, 0, "") == "\n    var x" && TokensOf(Line8a) == [Token(Keyword, "var"), Token(Identifier, "x")]
  {
  }

  lemma Line8bChained()
    ensures Chained(Line8b, 0, Lead(Line8c[0]))
  {
  }

  lemma Line8bText()
    ensures Text(Line8b, 0, "") == ": u8" && TokensOf(Line8b) == [Token(Colon, ":"), Token(Keyword, "u8")]
  {
  }

  lemma Line8cChained()
    ensures Chained(Line8c, 0, Lead(Line8d[0]))
  {
  }

  lemma Line8cText()
    ensures Text(Line8c, 0, "") == " = 1" && TokensOf(Line8c) == [Token(Equals, "="), Token(IntLiteral, "1")]
  {
  }

  lemma Line8dChained()
    ensures Chained(Line8d, 0, '\n')
  {
  }

  lemma Line8dText()
    ensures Text(Line8d, 0, "") == ";" && TokensOf(Line8d) == [Token(Semicolon, ";")]
  {
  }

  lemma Line8Laid()
    ensures LaysOut(Line8, '\n', "", "\n    var x: u8 = 1;", Tokens8)
  {
    Line8aChained(); Line8aText(); Line8bChained(); Line8bText(); Line8cChained(); Line8cText(); Line8dChained(); Line8dText();
    LaidBefore(Line8a, Line8b, Lead(Line8c[0]), "",
      "\n    var x", ": u8",
      [Token(Keyword, "var"), Token(Identifier, "x")], [Token(Colon, ":"), Token(Keyword, "u8")]);
    LaidBefore(Line8a + Line8b, Line8c, Lead(Line8d[0]), "",
      "\n    var x" + ": u8", " = 1",
      [Token(Keyword, "var"), Token(Identifier, "x")] + [Token(Colon, ":"), Token(Keyword, "u8")], [Token(Equals, "="), Token(IntLiteral, "1")]);
    LaidBefore(Line8a + Line8b + Line8c, Line8d, '\n', "",
      "\n    var x" + ": u8" + " = 1", ";",
      [Token(Keyword, "var"), Token(Identifier, "x")] + [Token(Colon, ":"), Token(Keyword, "u8")] + [Token(Equals, "="), Token(IntLiteral, "1")], [Token(Semicolon, ";")]);
    Line8Spelled();
  }

  lemma Line8Spelled()
    ensures "\n    var x" + ": u8" + " = 1" + ";" == "\n    var x: u8 = 1;"
    ensures [Token(Keyword, "var"), Token(Identifier, "x")] + [Token(Colon, ":"), Token(Keyword, "u8")] + [Token(Equals, "="), Token(IntLiteral, "1")] + [Token(Semicolon, ";")] == Tokens8
  {
  }

  // `var y: u8 = 2;`, line 9 of js_bootstrap/compiler.js.

  const Tokens9: seq<Token> := [Token(Keyword, "var"), Token(Identifier, "y"), Token(Colon, ":"), Token(Keyword, "u8"), Token(Equals, "="), Token(IntLiteral, "2"), Token(Semicolon, ";")]

  const Line9a: seq<Piece> := [
    Piece("\n    ", Token(Keyword, "var")),
    Piece(" ", Token(Identifier, "y"))
  ]

  const Line9b: seq<Piece> := [
    Piece("", Token(Colon, ":")),
    Piece(" ", Token(Keyword, "u8"))
  ]

  const Line9c: seq<Piece> := [
    Piece(" ", Token(Equals, "=")),
    Piece(" ", Token(IntLiteral, "2"))
  ]

  const Line9d: seq<Piece> := [
    Piece("", Token(Semicolon, ";"))
  ]

  const Line9: seq<Piece> := Line9a + Line9b + Line9c + Line9d

  lemma Line9aChained()
    ensures Chained(Line9a, 0, Lead(Line9b[0]))
  {
  }

  lemma Line9aText()
    ensures Text(Line9a, 0, "") == "\n    var y" && TokensOf(Line9a) == [Token(Keyword, "var"), Token(Identifier, "y")]
  {
  }

  lemma Line9bChained()
    ensures Chained(Line9b, 0, Lead(Line9c[0]))
  {
  }

  lemma Line9bText()
    ensures Text(Line9b, 0, "") == ": u8" && TokensOf(Line9b) == [Token(Colon, ":"), Token(Keyword, "u8")]
  {
  }

  lemma Line9cChained()
    ensures Chained(Line9c, 0, Lead(Line9d[0]))
  {
  }

  lemma Line9cText()
    ensures Text(Line9c, 0, "") == " = 2" && TokensOf(Line9c) == [Token(Equals, "="), Token(IntLiteral, "2")]
  {
  }

  lemma Line9dChained()
    ensures Chained(Line9d, 0, '\n')
  {
  }

  lemma Line9dText()
    ensures Text(Line9d, 0, "") == ";" && TokensOf(Line9d) == [Token(Semicolon, ";")]
  {
  }

  lemma Line9Laid()
    ensures LaysOut(Line9, '\n', "", "\n    var y: u8 = 2;", Tokens9)
  {
    Line9aChained(); Line9aText(); Line9bChained(); Line9bText(); Line9cChained(); Line9cText(); Line9dChained(); Line9dText();
    LaidBefore(Line9a, Line9b, Lead(Line9c[0]), "",
      "\n    var y", ": u8",
      [Token(Keyword, "var"), Token(Identifier, "y")], [Token(Colon, ":"), Token(Keyword, "u8")]);
    LaidBefore(Line9a + Line9b, Line9c, Lead(Line9d[0]), "",
      "\n    var y" + ": u8", " = 2",
      [Token(Keyword, "var"), Token(Identifier, "y")] + [Token(Colon, ":"), Token(Keyword, "u8")], [Token(Equals, "="), Token(IntLiteral, "2")]);
    LaidBefore(Line9a + Line9b + Line9c, Line9d, '\n', "",
      "\n    var y" + ": u8" + " = 2", ";",
      [Token(Keyword, "var"), Token(Identifier, "y")] + [Token(Colon, ":"), Token(Keyword, "u8")] + [Token(Equals, "="), Token(IntLiteral, "2")], [Token(Semicolon, ";")]);
    Line9Spelled();
  }

  lemma Line9Spelled()
    ensures "\n    var y" + ": u8" + " = 2" + ";" == "\n    var y: u8 = 2;"
    ensures [Token(Keyword, "var"), Token(Identifier, "y")] + [Token(Colon, ":"), Token(Keyword, "u8")] + [Token(Equals, "="), Token(IntLiteral, "2")] + [Token(Semicolon, ";")] == Tokens9
  {
  }

  // `var result: u8 = x + y;`, line 10 of js_bootstrap/compiler.js.

  const Tokens10: seq<Token> := [Token(Keyword, "var"), Token(Identifier, "result"), Token(Colon, ":"), Token(Keyword, "u8"), Token(Equals, "="), Token(Identifier, "x"), Token(Plus, "+"), Token(Identifier, "y"), Token(Semicolon, ";")]

  const Line10a: seq<Piece> := [
    Piece("\n    ", Token(Keyword, "var")),
    Piece(" ", Token(Identifier, "result"))
  ]

  const Line10b: seq<Piece> := [
    Piece("", Token(Colon, ":")),
    Piece(" ", Token(Keyword, "u8"))
  ]

  const Line10c: seq<Piece> := [
    Piece(" ", Token(Equals, "=")),
    Piece(" ", Token(Identifier, "x"))
  ]

  const Line10d: seq<Piece> := [
    Piece(" ", Token(Plus, "+")),
    Piece(" ", Token(Identifier, "y"))
  ]

  const Line10e: seq<Piece> := [
    Piece("", Token(Semicolon, ";"))
  ]

  const Line10: seq<Piece> := Line10a + Line10b + Line10c + Line10d + Line10e

  lemma Line10aChained()
    ensures Chained(Line10a, 0, Lead(Line10b[0]))
  {
  }

  lemma Line10aText()
    ensures Text(Line10a, 0, "") == "\n    var result" && TokensOf(Line10a) == [Token(Keyword, "var"), Token(Identifier, "result")]
  {
  }

  lemma Line10bChained()
    ensures Chained(Line10b, 0, Lead(Line10c[0]))
  {
  }

  lemma Line10bText()
    ensures Text(Line10b, 0, "") == ": u8" && TokensOf(Line10b) == [Token(Colon, ":"), Token(Keyword, "u8")]
  {
  }

  lemma Line10cChained()
    ensures Chained(Line10c, 0, Lead(Line10d[0]))
  {
  }

  lemma Line10cText()
    ensures Text(Line10c, 0, "") == " = x" && TokensOf(Line10c) == [Token(Equals, "="), Token(Identifier, "x")]
  {
  }

  lemma Line10dChained()
    ensures Chained(Line10d, 0, Lead(Line10e[0]))
  {
  }

  lemma Line10dText()
    ensures Text(Line10d, 0, "") == " + y" && TokensOf(Line10d) == [Token(Plus, "+"), Token(Identifier, "y")]
  {
  }

  lemma Line10eChained()
    ensures Chained(Line10e, 0, '\n')
  {
  }

  lemma Line10eText()
    ensures Text(Line10e, 0, "") == ";" && TokensOf(Line10e) == [Token(Semicolon, ";")]
  {
  }

  lemma Line10Laid()
    ensures LaysOut(Line10, '\n', "", "\n    var result: u8 = x + y;", Tokens10)
  {
    Line10aChained(); Line10aText(); Line10bChained(); Line10bText(); Line10cChained(); Line10cText(); Line10dChained(); Line10dText(); Line10eChained(); Line10eText();
    LaidBefore(Line10a, Line10b, Lead(Line10c[0]), "",
      "\n    var result", ": u8",
      [Token(Keyword, "var"), Token(Identifier, "result")], [Token(Colon, ":"), Token(Keyword, "u8")]);
    LaidBefore(Line10a + Line10b, Line10c, Lead(Line10d[0]), "",
      "\n    var result" + ": u8", " = x",
      [Token(Keyword, "var"), Token(Identifier, "result")] + [Token(Colon, ":"), Token(Keyword, "u8")], [Token(Equals, "="), Token(Identifier, "x")]);
    LaidBefore(Line10a + Line10b + Line10c, Line10d, Lead(Line10e[0]), "",
      "\n    var result" + ": u8" + " = x", " + y",
      [Token(Keyword, "var"), Token(Identifier, "result")] + [Token(Colon, ":"), Token(Keyword, "u8")] + [Token(Equals, "="), Token(Identifier, "x")], [Token(Plus, "+"), Token(Identifier, "y")]);
    LaidBefore(Line10a + Line10b + Line10c + Line10d, Line10e, '\n', "",
      "\n    var result" + ": u8" + " = x" + " + y", ";",
      [Token(Keyword, "var"), Token(Identifier, "result")] + [Token(Colon, ":"), Token(Keyword, "u8")] + [Token(Equals, "="), Token(Identifier, "x")] + [Token(Plus, "+"), Token(Identifier, "y")], [Token(Semicolon, ";")]);
    Line10Spelled();
  }

  lemma Line10Spelled()
    ensures "\n    var result" + ": u8" + " = x" + " + y" + ";" == "\n    var result: u8 = x + y;"
    ensures [Token(Keyword, "var"), Token(Identifier, "result")] + [Token(Colon, ":"), Token(Keyword, "u8")] + [Token(Equals, "="), Token(Identifier, "x")] + [Token(Plus, "+"), Token(Identifier, "y")] + [Token(Semicolon, ";")] == Tokens10
  {
  }

  // `printf("result: ");`, line 11 of js_bootstrap/compiler.js.

  const Tokens11: seq<Token> := [Token(Identifier, "printf"), Token(LeftParen, "("), Token(StringLiteral, "result: "), Token(RightParen, ")"), Token(Semicolon, ";")]

  const Line11a: seq<Piece> := [
    Piece("\n    ", Token(Identifier, "printf")),
    Piece("", Token(LeftParen, "("))
  ]

  const Line11b: seq<Piece> := [
    Piece("", Token(StringLiteral, "result: ")),
    Piece("", Token(RightParen, ")"))
  ]

  const Line11c: seq<Piece> := [
    Piece("", Token(Semicolon, ";"))
  ]

  const Line11: seq<Piece> := Line11a + Line11b + Line11c

  lemma Line11aChained()
    ensures Chained(Line11a, 0, Lead(Line11b[0]))
  {
  }

  lemma Line11aText()
    ensures Text(Line11a, 0, "") == "\n    printf(" && TokensOf(Line11a) == [Token(Identifier, "printf"), Token(LeftParen, "(")]
  {
  }

  lemma Line11bChained()
    ensures Chained(Line11b, 0, Lead(Line11c[0]))
  {
  }

  lemma Line11bText()
    ensures Text(Line11b, 0, "") == "\"result: \")" && TokensOf(Line11b) == [Token(StringLiteral, "result: "), Token(RightParen, ")")]
  {
  }

  lemma Line11cChained()
    ensures Chained(Line11c, 0, '\n')
  {
  }

  lemma Line11cText()
    ensures Text(Line11c, 0, "") == ";" && TokensOf(Line11c) == [Token(Semicolon, ";")]
  {
  }

  lemma Line11Laid()
    ensures LaysOut(Line11, '\n', "", "\n    printf(\"result: \");", Tokens11)
  {
    Line11aChained(); Line11aText(); Line11bChained(); Line11bText(); Line11cChained(); Line11cText();
    LaidBefore(Line11a, Line11b, Lead(Line11c[0]), "",
      "\n    printf(", "\"result: \")",
      [Token(Identifier, "printf"), Token(LeftParen, "(")], [Token(StringLiteral, "result: "), Token(RightParen, ")")]);
    LaidBefore(Line11a + Line11b, Line11c, '\n', "",
      "\n    printf(" + "\"result: \")", ";",
      [Token(Identifier, "printf"), Token(LeftParen, "(")] + [Token(StringLiteral, "result: "), Token(RightParen, ")")], [Token(Semicolon, ";")]);
    Line11Spelled();
  }

  lemma Line11Spelled()
    ensures "\n    printf(" + "\"result: \")" + ";" == "\n    printf(\"result: \");"
    ensures [Token(Identifier, "printf"), Token(LeftParen, "(")] + [Token(StringLiteral, "result: "), Token(RightParen, ")")] + [Token(Semicolon, ";")] == Tokens11
  {
  }

  // `printf("%d\n", result);`, line 12 of js_bootstrap/compiler.js.

  const Tokens12: seq<Token> := [Token(Identifier, "printf"), Token(LeftParen, "("), Token(StringLiteral, "%d\n"), Token(Identifier, ","), Token(Identifier, "result"), Token(RightParen, ")"), Token(Semicolon, ";")]

  const Line12a: seq<Piece> := [
    Piece("\n    ", Token(Identifier, "printf")),
    Piece("", Token(LeftParen, "("))
  ]

  const Line12b: seq<Piece> := [
    Piece("", Token(StringLiteral, "%d\n")),
    Piece("", Token(Identifier, ","))
  ]

  const Line12c: seq<Piece> := [
    Piece(" ", Token(Identifier, "result")),
    Piece("", Token(RightParen, ")"))
  ]

  const Line12d: seq<Piece> := [
    Piece("", Token(Semicolon, ";"))
  ]

  const Line12: seq<Piece> := Line12a + Line12b + Line12c + Line12d

  lemma Line12aChained()
    ensures Chained(Line12a, 0, Lead(Line12b[0]))
  {
  }

  lemma Line12aText()
    ensures Text(Line12a, 0, "") == "\n    printf(" && TokensOf(Line12a) == [Token(Identifier, "printf"), Token(LeftParen, "(")]
  {
  }

  lemma Line12bChained()
    ensures Chained(Line12b, 0, Lead(Line12c[0]))
  {
  }

  lemma Line12bText()
    ensures Text(Line12b, 0, "") == "\"%d\n\"," && TokensOf(Line12b) == [Token(StringLiteral, "%d\n"), Token(Identifier, ",")]
  {
  }

  lemma Line12cChained()
    ensures Chained(Line12c, 0, Lead(Line12d[0]))
  {
  }

  lemma Line12cText()
    ensures Text(Line12c, 0, "") == " result)" && TokensOf(Line12c) == [Token(Identifier, "result"), Token(RightParen, ")")]
  {
  }

  lemma Line12dChained()
    ensures Chained(Line12d, 0, '\n')
  {
  }

  lemma Line12dText()
    ensures Text(Line12d, 0, "") == ";" && TokensOf(Line12d) == [Token(Semicolon, ";")]
  {
  }

  lemma Line12Laid()
    ensures LaysOut(Line12, '\n', "", "\n    printf(\"%d\n\", result);", Tokens12)
  {
    Line12aChained(); Line12aText(); Line12bChained(); Line12bText(); Line12cChained(); Line12cText(); Line12dChained(); Line12dText();
    LaidBefore(Line12a, Line12b, Lead(Line12c[0]), "",
      "\n    printf(", "\"%d\n\",",
      [Token(Identifier, "printf"), Token(LeftParen, "(")], [Token(StringLiteral, "%d\n"), Token(Identifier, ",")]);
    LaidBefore(Line12a + Line12b, Line12c, Lead(Line12d[0]), "",
      "\n    printf(" + "\"%d\n\",", " result)",
      [Token(Identifier, "printf"), Token(LeftParen, "(")] + [Token(StringLiteral, "%d\n"), Token(Identifier, ",")], [Token(Identifier, "result"), Token(RightParen, ")")]);
    LaidBefore(Line12a + Line12b + Line12c, Line12d, '\n', "",
      "\n    printf(" + "\"%d\n\"," + " result)", ";",
      [Token(Identifier, "printf"), Token(LeftParen, "(")] + [Token(StringLiteral, "%d\n"), Token(Identifier, ",")] + [Token(Identifier, "result"), Token(RightParen, ")")], [Token(Semicolon, ";")]);
    Line12Spelled();
  }

  lemma Line12Spelled()
    ensures "\n    printf(" + "\"%d\n\"," + " result)" + ";" == "\n    printf(\"%d\n\", result);"
    ensures [Token(Identifier, "printf"), Token(LeftParen, "(")] + [Token(StringLiteral, "%d\n"), Token(Identifier, ",")] + [Token(Identifier, "result"), Token(RightParen, ")")] + [Token(Semicolon, ";")] == Tokens12
  {
  }

  // `return 0;`, line 13 of js_bootstrap/compiler.js.

  const Tokens13: seq<Token> := [Token(Keyword, "return"), Token(IntLiteral, "0"), Token(Semicolon, ";")]

  const Line13a: seq<Piece> := [
    Piece("\n    ", Token(Keyword, "return")),
    Piece(" ", Token(IntLiteral, "0"))
  ]

  const Line13b: seq<Piece> := [
    Piece("", Token(Semicolon, ";"))
  ]

  const Line13: seq<Piece> := Line13a + Line13b

  lemma Line13aChained()
    ensures Chained(Line13a, 0, Lead(Line13b[0]))
  {
  }

  lemma Line13aText()
    ensures Text(Line13a, 0, "") == "\n    return 0" && TokensOf(Line13a) == [Token(Keyword, "return"), Token(IntLiteral, "0")]
  {
  }

  lemma Line13bChained()
    ensures Chained(Line13b, 0, '\n')
  {
  }

  lemma Line13bText()
    ensures Text(Line13b, 0, "") == ";" && TokensOf(Line13b) == [Token(Semicolon, ";")]
  {
  }

  lemma Line13Laid()
    ensures LaysOut(Line13, '\n', "", "\n    return 0;", Tokens13)
  {
    Line13aChained(); Line13aText(); Line13bChained(); Line13bText();
    LaidBefore(Line13a, Line13b, '\n', "",
      "\n    return 0", ";",
      [Token(Keyword, "return"), Token(IntLiteral, "0")], [Token(Semicolon, ";")]);
    Line13Spelled();
  }

  lemma Line13Spelled()
    ensures "\n    return 0" + ";" == "\n    return 0;"
    ensures [Token(Keyword, "return"), Token(IntLiteral, "0")] + [Token(Semicolon, ";")] == Tokens13
  {
  }

  // `}`, line 14 of js_bootstrap/compiler.js.

  const Tokens14: seq<Token> := [Token(RightBrace, "}")]

  const Line14: seq<Piece> := [
    Piece("\n", Token(RightBrace, "}"))
  ]

  lemma Line14Laid()
    ensures LaysOut(Line14, '\n', "\n", "\n}\n", Tokens14)
  {
    Line14Chained();
  }

  lemma Line14Chained()
    ensures Chained(Line14, 0, '\n')
  {
  }

  /** The source laid out as pieces, line by line. */
  const SamplePieces: seq<Piece> := Line7 + Line8 + Line9 + Line10 + Line11 + Line12 + Line13 + Line14

  /** The tokens of the source, line by line. */
  const SampleTokens: seq<Token> := Tokens7 + Tokens8 + Tokens9 + Tokens10 + Tokens11 + Tokens12 + Tokens13 + Tokens14

  /** The pieces lay out the source, followed by its final line feed, and hold the sample tokens. */
  lemma SamplePiecesLaid()
    ensures LaysOut(SamplePieces, '\n', "\n", SampleSource, SampleTokens)
  {
    Line7Laid(); Line8Laid(); Line9Laid(); Line10Laid(); Line11Laid(); Line12Laid(); Line13Laid(); Line14Laid();
    LaidBefore(Line7, Line8, '\n', "",
      "\nfunc main() u64 {",
      "\n    var x: u8 = 1;",
      Tokens7, Tokens8);
    LaidBefore(Line7 + Line8, Line9, '\n', "",
      "\nfunc main() u64 {" + "\n    var x: u8 = 1;",
      "\n    var y: u8 = 2;",
      Tokens7 + Tokens8, Tokens9);
    LaidBefore(Line7 + Line8 + Line9, Line10, '\n', "",
      "\nfunc main() u64 {" + "\n    var x: u8 = 1;" + "\n    var y: u8 = 2;",
      "\n    var result: u8 = x + y;",
      Tokens7 + Tokens8 + Tokens9, Tokens10);
    LaidBefore(Line7 + Line8 + Line9 + Line10, Line11, '\n', "",
      "\nfunc main() u64 {" + "\n    var x: u8 = 1;" + "\n    var y: u8 = 2;" + "\n    var result: u8 = x + y;",
      "\n    printf(\"result: \");",
      Tokens7 + Tokens8 + Tokens9 + Tokens10, Tokens11);
    LaidBefore(Line7 + Line8 + Line9 + Line10 + Line11, Line12, '\n', "",
      "\nfunc main() u64 {" + "\n    var x: u8 = 1;" + "\n    var y: u8 = 2;" + "\n    var result: u8 = x + y;" + "\n    printf(\"result: \");",
      "\n    printf(\"%d\n\", result);",
      Tokens7 + Tokens8 + Tokens9 + Tokens10 + Tokens11, Tokens12);
    LaidBefore(Line7 + Line8 + Line9 + Line10 + Line11 + Line12, Line13, '\n', "",
      "\nfunc main() u64 {" + "\n    var x: u8 = 1;" + "\n    var y: u8 = 2;" + "\n    var result: u8 = x + y;" + "\n    printf(\"result: \");" + "\n    printf(\"%d\n\", result);",
      "\n    return 0;",
      Tokens7 + Tokens8 + Tokens9 + Tokens10 + Tokens11 + Tokens12, Tokens13);
    LaidBefore(Line7 + Line8 + Line9 + Line10 + Line11 + Line12 + Line13, Line14, '\n', "\n",
      "\nfunc main() u64 {" + "\n    var x: u8 = 1;" + "\n    var y: u8 = 2;" + "\n    var result: u8 = x + y;" + "\n    printf(\"result: \");" + "\n    printf(\"%d\n\", result);" + "\n    return 0;",
      "\n}\n",
      Tokens7 + Tokens8 + Tokens9 + Tokens10 + Tokens11 + Tokens12 + Tokens13, Tokens14);
  }

  /** The lexer halts on the sample source, and reads exactly the sample tokens. */
  lemma SampleSourceLexes()
    ensures Lex(SampleSource) == Halts(SampleTokens)
  {
    SamplePiecesLaid();
    ChainedTextLexes(SamplePieces, 0, "\n");
    assert TokensOf(SamplePieces)[0..] == SampleTokens;
  }
}
