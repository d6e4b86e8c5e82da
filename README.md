# A verified model of the js_bootstrap compiler

`js_bootstrap` is a small compiler, written in JavaScript, for a toy language. A
program is a list of `func` and `var` declarations, expression statements and
`return`s. The compiler works in three stages:

- the **lexer** (`lexer.js`) turns the source into tokens;
- the **parser** (`parser.js`) builds the syntax tree of `ast.js` by recursive descent;
- the **generator** (`generator.js`) walks that tree and emits C text into a
  `StringBuilder` (`string-builder.js`).

This project models each stage in Dafny in the source's own form:

- `Lexer`, `Parser`, `StringBuilder` and `Generator` are classes with the source's fields.
  The one exception is the lexer's constant `basicTokens` table, which is the function `BasicTokenKind`.
  Their methods carry the same loops and recursion.
- Each method is proved against a pure specification function of the same shape:
  - `LexFrom` and `Lex` for the lexer;
  - `ParseExpr`, `ParseCall`, `ParseArgs`, `ParseStmt`, `ParseStmts` and `ParseProgram` for the parser;
  - `EmitExpr`, `EmitListed`, `EmitBody` and `EmitStatements` for the generator.
- Lemmas about those functions state what the compiler does, including its quirks:
  - a comma has no token kind of its own: a lone `,` is an IDENTIFIER token, otherwise it sits inside an identifier run or a string (`Lexing.CommaOnlyInsideRuns`);
  - `+` associates to the right;
  - a block leaves the cursor on its `}`, so only the last top-level statement can be a function with a block body;
  - only `u8` survives a `var` declaration;
  - a block inside a statement list is rejected;
  - the generator's output buffer and the parser's cursor are never reset.

Files, one module each:

| file | module | models |
|---|---|---|
| `results.dfy` | `Results` | `Option` and `Result` (the thrown errors become `Err` values) |
| `lexer.dfy` | `Lexing` | `lexer.js` |
| `ast.dfy` | `Ast` | `ast.js` |
| `string_builder.dfy` | `StringBuilding` | `string-builder.js` |
| `parser.dfy` | `Parsing` | `parser.js` |
| `generator.dfy` | `CodeGen` | `generator.js` |
| `pipeline.dfy` | `Pipeline` | the three stages chained as in `compiler.js` |
| `sample_text.dfy` | `SampleText` | the source text `compiler.js` compiles, and the tokens the lexer reads from it |
| `sample.dfy` | `Sample` | that source parsed and generated: the C text the driver prints |

Conventions:

- A `throw` in `expect` becomes `UnexpectedToken(expected, got)`.
- A parser `TODO()` becomes `NotImplemented(token)`.
- A generator `TODO()` becomes `UnsupportedType(name)` or `NotImplemented(statement)`.
- The lexer loops forever on an unclosed string, or on an identifier run that reaches the end of the source. That outcome is the value `Diverges`, and the methods that would loop require the scan to halt.
- The generator's partial output before a failure is kept: `Emitted(text, error)`.

## Model

| member | source | states |
|---|---|---|
| Ast.LookupVariableType | js_bootstrap/ast.js:3-5 | `VariableType[name]` is defined exactly for `u8`, and the type found has that name |
| Ast.ExprKindOf | js_bootstrap/ast.js:7-88 | each expression node carries the tag of its own class: `INT_LITERAL`, `STRING_LITERAL`, `IDENTIFIER`, `CALL` and `BINARY` each exactly for that constructor, and never `MEMBER` |
| Ast.StmtKindOf | js_bootstrap/ast.js:90-173 | each statement carries the tag of its own class: `EXPRESSION`, `RETURN`, `BLOCK`, `FUNCTION_DECLARATION` and `VARIABLE_DECLARATION` each exactly for that constructor |
| Lexing.KeywordsListed | js_bootstrap/lexer.js:19 | `KEYWORDS` is exactly `func`, `var`, `u8`, `u64`, `usize` and `return`; every other identifier run is an IDENTIFIER token |
| Lexing.KeywordsAreWords | js_bootstrap/lexer.js:19 | each keyword is a non-empty identifier run that starts with neither a digit nor `"`, so the word scan reads it whole |
| Lexing.IsWhitespace | js_bootstrap/lexer.js:34 | `WHITESPACE_REGEX` is the ECMAScript `\s` class: U+0009 to U+000D, U+0020, U+00A0, U+1680, U+2000 to U+200A, U+2028, U+2029, U+202F, U+205F, U+3000 and U+FEFF. It has no contract of its own; `Lexing.RunEnd` and `Lexing.LexFromReconstructs` use it |
| Lexing.IsDigit | js_bootstrap/lexer.js:35 | `INTEGER_REGEX` is `\d`: the ASCII digits `0` to `9` only |
| Lexing.BasicTokenKind | js_bootstrap/lexer.js:41-50 | the `basicTokens` table: `+ = ( ) { } : ;` map to PLUS, EQUALS, LEFT_PAREN, RIGHT_PAREN, LEFT_BRACE, RIGHT_BRACE, COLON and SEMICOLON, and no other character is in it. `Lexing.LexFromWellFormed` states that punctuation tokens come from it |
| Lexing.RunEnd | js_bootstrap/lexer.js:52-56 | a scanning loop stops at the end of the maximal run: every character before the stop is in the run, the one at the stop is not |
| Lexing.ScanToken | js_bootstrap/lexer.js:115-157 | one turn of the main loop that emits a token moves the cursor strictly forward, within the source |
| Lexing.ScanAt | js_bootstrap/lexer.js:125-156 | the dispatch on the first non-blank character moves the cursor past it |
| Lexing.ScanString | js_bootstrap/lexer.js:73-90 | a string token consumes both quotes |
| Lexing.ScanInteger | js_bootstrap/lexer.js:92-104 | an INT scan always emits, and it advances when a digit is at the cursor |
| Lexing.ScanWord | js_bootstrap/lexer.js:58-71 | an identifier run is emitted only when a non-identifier character stops it before the end of the source, and it advances when the first character can start a run |
| Lexing.ScanTokenSound | js_bootstrap/lexer.js:115-157 | each token is well formed, and its text (strings re-quoted) is exactly the source between the skipped whitespace and the new cursor |
| Lexing.ScanAtSound | js_bootstrap/lexer.js:125-156 | the same for each of the four token shapes: punctuation, string, INT, keyword or identifier |
| Lexing.LexFromWellFormed | js_bootstrap/lexer.js:110-160 | every token is well formed. Punctuation comes from the table with its own character. INT values are non-empty digit runs. String values hold no quote. Identifiers hold no whitespace or punctuation and are not keywords. Keywords are exactly the keyword list. No END_OF_FILE token is emitted |
| Lexing.CommaOnlyInsideRuns | js_bootstrap/lexer.js:41-50 | a comma is not in the punctuation table, so a token holding one is an identifier run or a string |
| Lexing.LexFrom | js_bootstrap/lexer.js:115-160 | the main loop from cursor `i`: the tokens pushed until only whitespace is left, or `Diverges` when a scanning loop never stops. Its properties are the lemmas `LexFromWellFormed`, `LexFromReconstructs` and `LaidOutSourceLexes` |
| Lexing.Lex | js_bootstrap/lexer.js:110-113 | `getTokens` starts the loop at cursor 0, so the tokens depend on the source alone |
| Lexing.LexFromReconstructs | js_bootstrap/lexer.js:110-160 | the source from the cursor is exactly whitespace runs interleaved with the token texts, strings re-quoted: `gaps[0] + text(t0) + gaps[1] + ... + gaps[n]`. Whitespace is dropped only between tokens, and each token is delimited by what follows it |
| Lexing.LaidOutSourceLexes | js_bootstrap/lexer.js:110-160 | the converse: a source laid out as whitespace runs and well-formed, delimited token texts is tokenized in finitely many steps, to exactly those tokens |
| Lexing.LexReadsExactlyLayouts | js_bootstrap/lexer.js:110-160 | both together: `getTokens` halts with the tokens `ts` exactly when the source is a layout of `ts` |
| Lexing.LexSkipsLeadingWhitespace | js_bootstrap/lexer.js:115-121 | whitespace put in front of a source that halts changes nothing in its tokens |
| Lexing.LexConsToken | js_bootstrap/lexer.js:115-157 | a source that halts, with whitespace and a well-formed token it delimits put in front, halts with that token in front; this covers closed string literals |
| Lexing.ScanReadsToken | js_bootstrap/lexer.js:125-156 | the scan at a token's text, delimited by what follows, emits exactly that token and leaves the cursor at its end |
| Lexing.ChainedTextLexes | js_bootstrap/lexer.js:110-160 | the text of a chain of pieces (whitespace, then a well-formed token delimited by the next character) followed by whitespace is tokenized to exactly the pieces' tokens |
| Lexing.DelimitedQuoteFreeSourceHalts | js_bootstrap/lexer.js:115-157 | a source without `"` that is empty or ends in whitespace or punctuation is tokenized in finitely many steps |
| Lexing.UnclosedStringDiverges | js_bootstrap/lexer.js:80-84 | a string literal that is never closed makes the loop run forever |
| Lexing.TrailingIdentifierRunDiverges | js_bootstrap/lexer.js:64-68 | an identifier run that reaches the end of the source makes the loop run forever |
| Lexing.Lexer.constructor | js_bootstrap/lexer.js:38-39 | a new lexer has an empty source and cursor 0 |
| Lexing.Lexer.SkipWhitespace | js_bootstrap/lexer.js:52-56 | the cursor moves to the end of the whitespace run; the source is unchanged |
| Lexing.Lexer.GetIdentifier | js_bootstrap/lexer.js:58-71 | skips whitespace, returns the identifier run that follows, and leaves the cursor at its end |
| Lexing.Lexer.GetString | js_bootstrap/lexer.js:73-90 | returns exactly the characters between the opening quote and the next quote, with no escape processing; the cursor ends past the closing quote |
| Lexing.Lexer.GetInteger | js_bootstrap/lexer.js:92-104 | returns the maximal digit run at the cursor and leaves the cursor at its end |
| Lexing.Lexer.GetTokens | js_bootstrap/lexer.js:110-160 | resets the cursor and returns exactly `Lex(source)`, so the result depends on the argument alone |
| StringBuilding.Spaces | js_bootstrap/string-builder.js:8-10 | `" ".repeat(n)` is `n` spaces |
| StringBuilding.StringBuilder.constructor | js_bootstrap/string-builder.js:4-6 | a new builder has indent 0 and an empty buffer |
| StringBuilding.StringBuilder.ApplyIndent | js_bootstrap/string-builder.js:8-10 | appends exactly `indent` spaces; the indent must not be negative, since `repeat` throws on a negative count |
| StringBuilding.StringBuilder.Append | js_bootstrap/string-builder.js:15-17 | the buffer becomes the old buffer followed by `s`; the indent is unchanged |
| StringBuilding.StringBuilder.AppendLine | js_bootstrap/string-builder.js:22-25 | the buffer becomes the old buffer, then `s`, then a line feed |
| StringBuilding.StringBuilder.IncreaseIndent | js_bootstrap/string-builder.js:27-29 | the indent grows by `indentLevel` (2); the buffer is unchanged |
| StringBuilding.StringBuilder.DecreaseIndent | js_bootstrap/string-builder.js:31-33 | the indent shrinks by `indentLevel`; the buffer is unchanged |
| StringBuilding.StringBuilder.ToString | js_bootstrap/string-builder.js:38-40 | returns the buffer and changes nothing |
| StringBuilding.IndentRoundTrip | js_bootstrap/string-builder.js:27-33 | raising then lowering the indent restores both fields |
| Parsing.TokenAt | js_bootstrap/parser.js:39-45 | the token at a cursor, or the END_OF_FILE sentinel with an empty value past the end. It has no contract of its own; `Parsing.Parser.CurrentToken` is proved against it |
| Parsing.ExpectAt | js_bootstrap/parser.js:75-83 | `expect`: the token after the cursor if it has the expected kind, else an `UnexpectedToken` error. `Parsing.Parser.Expect` is proved against it |
| Parsing.DecimalValue | js_bootstrap/parser.js:134-136 | `parseInt` on a digit string, most significant digit first. Its round trips with the printer are `Pipeline.DecimalValueOfNatToString` and `Pipeline.NatToStringOfDecimalValue` |
| Parsing.Primary | js_bootstrap/parser.js:133-148 | a token starts a primary expression exactly when it is an INT, STRING or IDENTIFIER token |
| Parsing.BackUpBeforeSemicolon | js_bootstrap/parser.js:177-179 | the final `backup`: the expression is kept, and the cursor moves back by one exactly when it is on a `;`, otherwise it stays |
| Parsing.ParseExpr | js_bootstrap/parser.js:125-182 | an expression succeeds only on a real token, and leaves the cursor between its first token and the end |
| Parsing.ParseOperator | js_bootstrap/parser.js:165-175 | the `(` and `+` continuations move the cursor strictly forward |
| Parsing.ParseExprFollowsOperator | js_bootstrap/parser.js:159-181 | past a primary that `;` or `)` does not end, the expression is the continuation, backed up once if it stops on `;` |
| Parsing.ParseCall | js_bootstrap/parser.js:89-120 | a call of `callee` spans at least `callee ( )`, and leaves the cursor just past a `)` token. `Parsing.CallOfSeparatedArguments` states its arguments |
| Parsing.SeparatedArgumentsParse | js_bootstrap/parser.js:100-114 | on primaries each followed by one dropped separator token, the last by `)`, the argument loop collects exactly those primaries, in order, and stops on the `)` |
| Parsing.CallOfSeparatedArguments | js_bootstrap/parser.js:89-120 | `callee ( p1 s1 p2 ... pn )` parses as the call of `callee` on exactly `p1 ... pn`, in order, with the cursor just past the `)` |
| Parsing.CallBeforeSemicolon | js_bootstrap/parser.js:159-181 | such a call followed by `;` is the whole expression, with the cursor backed up onto its `)` |
| Parsing.ParseArgs | js_bootstrap/parser.js:100-114 | the argument loop ends only on a real `)` token |
| Parsing.ParseArgsStep | js_bootstrap/parser.js:100-114 | one turn of the argument loop: a failing argument fails the call; otherwise the loop goes on after the token following the argument |
| Parsing.ParseStmt | js_bootstrap/parser.js:231-284 | a statement succeeds only when it starts with `func`, `var`, `return`, `{`, `(` or a literal or identifier; it moves the cursor forward, and one ending with a block leaves the cursor on a `}` or past the end |
| Parsing.ParseReturn | js_bootstrap/parser.js:243-248 | `return`, an expression and `;` give a return statement |
| Parsing.ParseBlock | js_bootstrap/parser.js:256-260 | a block is its statement list; the cursor stays on the closing `}` |
| Parsing.ParseExprStmt | js_bootstrap/parser.js:262-269 | an expression and `;` give an expression statement |
| Parsing.ParseParenStmt | js_bootstrap/parser.js:271-278 | `(`, an expression, `)` and `;` give an expression statement |
| Parsing.ParseFunctionDecl | js_bootstrap/parser.js:187-203 | `func` IDENT `(` `)` KEYWORD and a body statement give a function declaration; with a block body the cursor ends on a `}` |
| Parsing.ParseVarDecl | js_bootstrap/parser.js:208-226 | a successful `var` statement gives a variable declaration and spans at least seven tokens |
| Parsing.ParseProgram | js_bootstrap/parser.js:309-317 | `parse` after tokenizing: the program's body is the statement list from the cursor. `Sample.SampleTokensParse` and `Parsing.StaleCursorParsesNothing` are proved about it |
| Parsing.ParseStmts | js_bootstrap/parser.js:289-304 | a statement list stops on a `}` (not consumed) or past the tokens; the statements already collected are kept as a prefix |
| Parsing.PrimaryBeforeTerminatorBacksUp | js_bootstrap/parser.js:159-163 | a primary followed by `;` or `)` is the whole expression, and the cursor is backed up onto it |
| Parsing.NonPrimaryExpressionFails | js_bootstrap/parser.js:133-157 | an expression that starts with anything other than an INT, STRING or IDENTIFIER token fails |
| Parsing.PlusStep | js_bootstrap/parser.js:170-181 | a primary, `+` and an expression give the binary node of the two |
| Parsing.PlusChainIsRightAssociative | js_bootstrap/parser.js:170-175 | `p0 + p1 + ... + pn ;` parses as `p0 + (p1 + (... + pn))`, with the cursor on the last primary |
| Parsing.PlusChainEndsWithPrimary | js_bootstrap/parser.js:159-163 | the last token of a `+` chain before its `;` is its last primary |
| Parsing.BlockLeavesCursorOnBrace | js_bootstrap/parser.js:256-260 | a statement starting with `{` is a block that leaves the cursor on its `}` or past the end |
| Parsing.OnlyLastStatementEndsWithBlock | js_bootstrap/parser.js:289-304 | in a parsed statement list only the last statement can be a block or a function with a block body, so top-level parsing stops after the first such function |
| Parsing.StaleCursorParsesNothing | js_bootstrap/parser.js:309-317 | since `parse` does not reset the cursor, a cursor at or past the new tokens gives the empty program |
| Parsing.VarDeclarationShape | js_bootstrap/parser.js:208-226 | a `var` statement is IDENT, `:`, KEYWORD, `=`, expression and `;` in that order; its name and value are those tokens', and its type is present exactly when the keyword is `u8` |
| Parsing.ReturnShape | js_bootstrap/parser.js:243-248 | a `return` statement holds the expression after `return`, which must be followed by `;`; the cursor ends past the `;` |
| Parsing.ExpressionStatementShape | js_bootstrap/parser.js:262-269 | an expression statement holds the expression at the cursor, which must be followed by `;`; the cursor ends past the `;` |
| Parsing.ParenthesizedStatementShape | js_bootstrap/parser.js:271-278 | a parenthesised statement holds the expression after `(`, which must be followed by `)` and `;`; the cursor ends past the `;` |
| Parsing.FunctionDeclarationShape | js_bootstrap/parser.js:187-203 | a function declaration is IDENT `(` `)` KEYWORD and a body statement; its name is token `i+1`, its return type token `i+4`, and the cursor is where the body left it |
| Parsing.VarDeclarationParses | js_bootstrap/parser.js:208-226 | the converse: `var` IDENT `:` KEYWORD `=`, an expression and `;` parse to that declaration, past the `;` |
| Parsing.ExpressionStatementParses | js_bootstrap/parser.js:262-269 | an expression starting with a literal or identifier, then `;`, parses to that expression statement, past the `;` |
| Parsing.ReturnParses | js_bootstrap/parser.js:243-248 | `return`, an expression and `;` parse to that return statement, past the `;` |
| Parsing.BlockParses | js_bootstrap/parser.js:256-260 | `{` and a statement list parse to that block, with the cursor where the list stopped |
| Parsing.FunctionDeclarationParses | js_bootstrap/parser.js:187-203 | `func` IDENT `(` `)` KEYWORD and a body statement parse to that function declaration |
| Parsing.StatementsContinue | js_bootstrap/parser.js:294-301 | a statement parsed at the cursor is appended to the list, and the loop goes on where it stopped |
| Parsing.StatementsStop | js_bootstrap/parser.js:294-298 | at a `}` or past the tokens the loop returns the statements collected so far |
| Parsing.NestedCallArgumentFails | js_bootstrap/parser.js:89-120 | `f(g(1));` fails: the inner call leaves the cursor on the outer `)`, so the loop reads `;` as the next argument |
| Parsing.ArgumentLoopDropsFollowingToken | js_bootstrap/parser.js:100-114 | the loop skips one token after each argument, so `f(a b);` has the single argument `a` |
| Parsing.SpacedCommaSeparatesArguments | js_bootstrap/parser.js:106-113 | a lone `,` is the skipped token, so `f(a , b);` has the arguments `a` and `b` |
| Parsing.Parser.constructor | js_bootstrap/parser.js:29-30 | a new parser has no tokens and cursor 0 |
| Parsing.Parser.Backup | js_bootstrap/parser.js:32-34 | the cursor moves back by exactly one |
| Parsing.Parser.CurrentToken | js_bootstrap/parser.js:39-45 | returns the token at the cursor, or the END_OF_FILE sentinel past the end |
| Parsing.Parser.NextToken | js_bootstrap/parser.js:50-58 | always advances by one, then returns the token there or the sentinel |
| Parsing.Parser.PeekNextToken | js_bootstrap/parser.js:63-69 | returns the token after the cursor or the sentinel; changes nothing |
| Parsing.Parser.Expect | js_bootstrap/parser.js:75-83 | advances by one, and succeeds exactly when the new token has the expected kind; otherwise it fails with that token |
| Parsing.Parser.ParseArgument | js_bootstrap/parser.js:103-113 | one turn of the argument loop agrees with `ParseArgs` |
| Parsing.Parser.ParseCallExpression | js_bootstrap/parser.js:89-120 | returns the call and cursor of `ParseCall`, or its error |
| Parsing.Parser.ParseOperatorExpression | js_bootstrap/parser.js:165-175 | the `(` and `+` tests agree with `ParseOperator` |
| Parsing.Parser.ParseExpression | js_bootstrap/parser.js:125-182 | returns the expression and cursor of `ParseExpr`, or its error |
| Parsing.Parser.ParseFunctionDeclarationStatement | js_bootstrap/parser.js:187-203 | agrees with `ParseFunctionDecl` |
| Parsing.Parser.ParseVariableDeclarationStatement | js_bootstrap/parser.js:208-226 | agrees with `ParseVarDecl` |
| Parsing.Parser.ParseStatement | js_bootstrap/parser.js:231-284 | agrees with `ParseStmt` |
| Parsing.Parser.ParseReturnStatement | js_bootstrap/parser.js:243-248 | agrees with `ParseReturn` |
| Parsing.Parser.ParseBlockStatement | js_bootstrap/parser.js:256-260 | agrees with `ParseBlock` |
| Parsing.Parser.ParseExpressionStatement | js_bootstrap/parser.js:262-269 | agrees with `ParseExprStmt` |
| Parsing.Parser.ParseParenthesizedStatement | js_bootstrap/parser.js:271-278 | agrees with `ParseParenStmt` |
| Parsing.Parser.ParseStatements | js_bootstrap/parser.js:289-304 | agrees with `ParseStmts` |
| Parsing.Parser.Parse | js_bootstrap/parser.js:309-317 | the tokens become `Lex(source)` and the result is `ParseProgram` from the old cursor, which is not reset |
| CodeGen.PreludeLines | js_bootstrap/generator.js:16-18 | the prelude template is an empty line, then `#include <stdio.h> ` with its trailing space; after `appendLine` an empty line follows it |
| CodeGen.MapTypeToCType | js_bootstrap/generator.js:26-36 | `u64` maps to `int` and `u8` to `char`; every other name, and the missing type, fails |
| CodeGen.DigitChar | js_bootstrap/generator.js:45-47 | the character of a decimal digit has that digit's value |
| CodeGen.NatToString | js_bootstrap/generator.js:45-47 | an integer is printed as a non-empty digit string without a leading zero |
| CodeGen.EmitExpr | js_bootstrap/generator.js:41-81 | the text `generateExpression` appends. It has no contract of its own; `CodeGen.Generator.GenerateExpression` is proved against it, and `CodeGen.EmitExprIsSingleLine` and `CodeGen.CallArgumentsJoinedWithCommas` are proved about it |
| CodeGen.EmitArgs | js_bootstrap/generator.js:66-73 | the text of the first turns of the argument loop. `CodeGen.ArgumentLoopPrefix` and `CodeGen.CallArgumentsJoinedWithCommas` are proved about it |
| CodeGen.EmitStatements | js_bootstrap/generator.js:102-144 | the text of the statement loop, stopping at the first error. `CodeGen.EmitStatementsSucceedsIff`, `CodeGen.EmitStatementsAppend` and `CodeGen.EmitStatementsStopsAtError` are proved about it |
| CodeGen.EmitListed | js_bootstrap/generator.js:106-142 | one case of the statement switch. `CodeGen.EmitListedSucceedsIff` is proved about it |
| CodeGen.EmitBody | js_bootstrap/generator.js:86-97 | `generateStatement`: a block's statements, anything else fails with nothing appended |
| CodeGen.Accepted | js_bootstrap/generator.js:102-144 | the statements the generator accepts, defined independently of the emitted text; `CodeGen.EmitStatementsSucceedsIff` ties it to `EmitStatements` |
| CodeGen.EscapeNewlines | js_bootstrap/generator.js:49-53 | the escaped text of a string holds no line feed |
| CodeGen.EscapeNewlinesDistributes | js_bootstrap/generator.js:49-53 | escaping distributes over concatenation |
| CodeGen.EscapeNewlinesKeepsSingleLine | js_bootstrap/generator.js:49-53 | text without a line feed is emitted unchanged |
| CodeGen.EscapeConflatesNewlineWithBackslashN | js_bootstrap/generator.js:49-53 | only line feeds are escaped, so a line feed and a backslash followed by `n` give the same C text |
| CodeGen.CallArgumentsJoinedWithCommas | js_bootstrap/generator.js:61-76 | call arguments come out joined by `,`, with no separator before the first or after the last |
| CodeGen.ArgumentLoopPrefix | js_bootstrap/generator.js:66-73 | after each turn the argument loop has written the arguments so far joined by `,`, followed by a `,` unless it was the last one |
| CodeGen.EmitExprIsSingleLine | js_bootstrap/generator.js:44-76 | an expression whose names hold no line feed is emitted on one line, whatever its strings contain |
| CodeGen.EmitArgsAreSingleLine | js_bootstrap/generator.js:66-73 | the same for the argument list |
| CodeGen.EmitStatementsSucceedsIff | js_bootstrap/generator.js:102-144 | a statement list is generated without error exactly when every statement is accepted. An accepted statement is a `u64`/`u8` function whose body is a block of accepted statements, a `u8` var, an expression or a return |
| CodeGen.EmitListedSucceedsIff | js_bootstrap/generator.js:106-142 | one statement of the list goes through exactly when it is accepted; a block fails |
| CodeGen.EmitStatementsAppend | js_bootstrap/generator.js:105-143 | statements are emitted one after another: after a successful prefix, the rest appends its own text and ends with its own error |
| CodeGen.EmitStatementsStopsAtError | js_bootstrap/generator.js:139-141 | after the first failing statement nothing more is appended |
| CodeGen.Generator.constructor | js_bootstrap/generator.js:20-21 | a new generator owns a fresh, empty builder |
| CodeGen.Generator.GenerateExpression | js_bootstrap/generator.js:41-81 | appends exactly `EmitExpr(e)` |
| CodeGen.Generator.GenerateCall | js_bootstrap/generator.js:61-76 | appends exactly the call's text, with its argument loop kept in step with `EmitArgs` |
| CodeGen.Generator.GenerateStatement | js_bootstrap/generator.js:86-97 | a block's statements are generated; anything else fails with nothing appended |
| CodeGen.Generator.GenerateListed | js_bootstrap/generator.js:106-142 | appends exactly `EmitListed(s)` and reports its error |
| CodeGen.Generator.GenerateFunctionDeclaration | js_bootstrap/generator.js:107-115 | appends `<ctype> <name>() {`, the body, an empty line and `}` |
| CodeGen.Generator.GenerateStatements | js_bootstrap/generator.js:102-144 | appends exactly `EmitStatements(ss)`, stopping at the first error |
| CodeGen.Generator.Generate | js_bootstrap/generator.js:150-155 | appends the prelude line and the program's text to the buffer, which is not reset, and returns the whole buffer |
| Pipeline.Compile | js_bootstrap/compiler.js:21-31 | compiled output always starts with the prelude line |
| Pipeline.CompileSucceedsIff | js_bootstrap/compiler.js:21-31 | a parsed program compiles exactly when the generator accepts each of its statements |
| Pipeline.CompileFresh | js_bootstrap/compiler.js:21-31 | a fresh parser and a fresh generator produce exactly `Compile(source)` |
| Pipeline.GenerateTwice | js_bootstrap/generator.js:150-155 | a second `generate` on the same generator returns both programs' text, each after its own prelude |
| Pipeline.DecimalValueOfNatToString | js_bootstrap/parser.js:134-136 | reading back a printed integer gives the same value |
| Pipeline.NatToStringOfDecimalValue | js_bootstrap/parser.js:134-136 | an INT token without leading zeros is printed as the same digits |
| Pipeline.LeadingZerosAreDropped | js_bootstrap/parser.js:134-136 | leading zeros are lost: `007` is printed as `7` |
| Pipeline.ByteDeclarationLine | js_bootstrap/generator.js:117-125 | a `u8` declaration is emitted as `char <name> = <expr>;` |
| Pipeline.SingleMessageCallLine | js_bootstrap/generator.js:61-76 | a call on one string without line feeds is emitted with that string as written |
| Pipeline.FormatCallLine | js_bootstrap/generator.js:61-76 | a call on a format string and a variable emits the escaped format, `,` and the name |
| Pipeline.EmitStatementsConcatenates | js_bootstrap/generator.js:105-143 | accepted statements are emitted as their lines, in order |
| SampleText.SamplePiecesLaid | js_bootstrap/compiler.js:6-15 | the sample source is a chain of whitespace and well-formed token texts, whose tokens are the 45 tokens of the sample |
| SampleText.SampleSourceLexes | js_bootstrap/compiler.js:6-15 | the lexer halts on the sample source with exactly those 45 tokens |
| Sample.SampleTokensParse | js_bootstrap/compiler.js:6-15 | those tokens parse to the program with one `main` function whose block holds the three `u8` declarations, the two `printf` calls and the `return 0` |
| Sample.SampleProgramGeneratesC | js_bootstrap/compiler.js:6-15 | that program is emitted as its C text, with the line feed in `"%d\n"` escaped |
| Sample.SampleCompiles | js_bootstrap/compiler.js:21-35 | compiling the sample source halts and gives the prelude line and exactly the C text of `main` |

## Left out

- Console output: every `console.log` trace in the lexer, parser and generator, and the printing of the AST and the output in `compiler.js`, are not modelled. `Pipeline.CompileFresh` returns the text instead.
- Error messages: the `throw` text with `JSON.stringify` at `parser.js:82`, and the "not yet implemented" text of `TODO()`. The errors carry the expected kind and the token or statement instead.
- `parseInt` and JavaScript number printing beyond 2^53. Integer values are unbounded naturals read from the digit string, and are printed in exact decimal.
- String length and indices are counted in Unicode scalar values, not UTF-16 code units. Characters outside the Basic Multilingual Plane therefore advance the cursor by one instead of two. This does not change any token's text.
- The comparison with the undefined `TokenKind.COMMA` at `parser.js:109` is never true, so its `nextToken` is never reached. The peek before it is kept; the dead branch is not.
- The `default` branch of `generateExpression` (`generator.js:77-80`) is unreachable, since every expression node has one of the handled kinds. The datatype has no other constructor.
- Lexing.Lexer.GetTokens: requires the scan to halt. Where `LexFrom` is `Diverges`, the JavaScript loop appends `"undefined"` to a token value forever, until the engine gives up. The model does not include that run.
- Lexing.Lexer.GetIdentifier: requires the identifier run to stop before the end of the source, for the same reason.
- Lexing.Lexer.GetString: requires a closing quote, for the same reason.
- Parsing.Parser.Parse: requires the scan of `source` to halt, since it calls `getTokens`.
- Parsing.Parser.ParseExpression: after a failure the cursor is only known not to have moved back. The same holds for every parsing method. In JavaScript the exception leaves the cursor wherever the failing routine stopped; the model does not say where.
- Parsing.Parser.ParseOperatorExpression: after a failure the cursor is only known to be no further back than the primary, because the `(` branch backs up before the call.
- StringBuilding.StringBuilder.ApplyIndent: requires a non-negative indent. `" ".repeat` throws a `RangeError` on a negative count, and that error is not modelled.
- The switch cases of `parseStatement` (`return`, `{`, expression, parenthesised) and of `generateStatements` (function declaration) are written as separate methods. They do exactly what the case bodies do.
