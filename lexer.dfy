/**
 * The tokenizer of js_bootstrap/lexer.js.
 *
 * `LexFrom` is the specification: the token sequence that the scanning loop of
 * `Lexer.getTokens` produces from a given cursor position, or `Diverges` when that
 * loop never reaches its stopping condition. The class `Lexer` keeps the source's
 * `source` and `index` fields and its five methods; each method is proved to move
 * the cursor exactly as the specification says.
 */
module Lexing {
  import opened Results

  datatype TokenKind =
    | Keyword
    | Identifier
    | IntLiteral
    | StringLiteral
    | LeftParen
    | RightParen
    | LeftBrace
    | RightBrace
    | Colon
    | Semicolon
    | Equals
    | Plus
    | EndOfFile

  datatype Token = Token(kind: TokenKind, value: string)

  const Keywords: seq<string> := ["func", "var", "u8", "u64", "usize", "return"]

  /** The ECMAScript `\s` class: WhiteSpace and LineTerminator code points. */
  predicate IsWhitespace(c: char) {
    var n := c as int;
    (9 <= n <= 13) || n == 0x20 || n == 0xA0 || n == 0x1680 || (0x2000 <= n <= 0x200A)
    || n == 0x2028 || n == 0x2029 || n == 0x202F || n == 0x205F || n == 0x3000 || n == 0xFEFF
  }

  /** The `\d` class. */
  predicate IsDigit(c: char) {
    '0' <= c <= '9'
  }

  /** The `basicTokens` table: single-character punctuation and its kind. */
  function BasicTokenKind(c: char): Option<TokenKind> {
    match c
    case '+' => Some(Plus)
    case '=' => Some(Equals)
    case '(' => Some(LeftParen)
    case ')' => Some(RightParen)
    case '{' => Some(LeftBrace)
    case '}' => Some(RightBrace)
    case ':' => Some(Colon)
    case ';' => Some(Semicolon)
    case _ => None
  }

  predicate IsBasic(c: char) {
    BasicTokenKind(c).Some?
  }

  /** The four kinds of character run the scanner consumes in a loop. */
  datatype CharRun = Whitespace | Digits | IdentifierChars | StringChars

  predicate InRun(run: CharRun, c: char) {
    match run
    case Whitespace => IsWhitespace(c)
    case Digits => IsDigit(c)
    case IdentifierChars => !IsWhitespace(c) && !IsBasic(c)
    case StringChars => c != '"'
  }

  /** The end of the longest run of `run` characters of `s` that starts at `i`. */
  function RunEnd(s: string, i: nat, run: CharRun): (j: nat)
    requires i <= |s|
    ensures i <= j <= |s|
    ensures forall m :: i <= m < j ==> InRun(run, s[m])
    ensures j < |s| ==> !InRun(run, s[j])
    decreases |s| - i
  {
    if i == |s| || !InRun(run, s[i]) then i else RunEnd(s, i + 1, run)
  }

  /**
   * What the scanning loop produces. `Diverges` is the case where a string literal
   * is never closed or an identifier run reaches the end of the source: there the
   * JavaScript loop reads `undefined` past the end, which satisfies its continuation
   * test, and never returns a token sequence.
   */
  datatype LexOutcome = Halts(tokens: seq<Token>) | Diverges

  function Prepend(t: Token, o: LexOutcome): (r: LexOutcome)
    ensures r.Halts? <==> o.Halts?
    ensures r.Halts? ==> r.tokens == [t] + o.tokens
  {
    match o
    case Halts(ts) => Halts([t] + ts)
    case Diverges => Diverges
  }

  /** One iteration of the main loop of `getTokens`, started with the cursor at `i`. */
  datatype Step =
    | End                          // only whitespace is left: the loop stops
    | Emit(token: Token, next: nat) // one token, and where the cursor is left
    | Stuck                        // a scanning loop that never stops

  function ScanToken(s: string, i: nat): (r: Step)
    requires i <= |s|
    ensures r.Emit? ==> i < r.next <= |s|
  {
    var j := RunEnd(s, i, Whitespace);
    if j == |s| then End else ScanAt(s, j)
  }

  /** The token that starts with the non-whitespace character at `j`. */
  function ScanAt(s: string, j: nat): (r: Step)
    requires j < |s| && !IsWhitespace(s[j])
    ensures r.Emit? ==> j < r.next <= |s|
  {
    var c := s[j];
    if IsBasic(c) then Emit(Token(BasicTokenKind(c).value, [c]), j + 1)
    else if c == '"' then ScanString(s, j)
    else if IsDigit(c) then ScanInteger(s, j)
    else ScanWord(s, j)
  }

  /** A string literal opened at `j`: its value runs to the next quote, which is consumed. */
  function ScanString(s: string, j: nat): (r: Step)
    requires j < |s|
    ensures r.Emit? ==> j + 1 < r.next <= |s|
  {
    var k := RunEnd(s, j + 1, StringChars);
    if k == |s| then Stuck else Emit(Token(StringLiteral, s[j + 1..k]), k + 1)
  }

  /** An INT literal: the digit run from `j`. */
  function ScanInteger(s: string, j: nat): (r: Step)
    requires j <= |s|
    ensures r.Emit? && r.next <= |s|
    ensures j < |s| && IsDigit(s[j]) ==> j < r.next
  {
    var k := RunEnd(s, j, Digits);
    Emit(Token(IntLiteral, s[j..k]), k)
  }

  /** An identifier or keyword: the identifier run from `j`. */
  function ScanWord(s: string, j: nat): (r: Step)
    requires j <= |s|
    ensures r.Emit? ==> r.next < |s|
    ensures r.Emit? && j < |s| && InRun(IdentifierChars, s[j]) ==> j < r.next
  {
    var k := RunEnd(s, j, IdentifierChars);
    if k == |s| then Stuck
    else
      var w := s[j..k];
      Emit(Token(if w in Keywords then Keyword else Identifier, w), k)
  }

  /** The tokens the main loop of `getTokens` produces from cursor `i` on. */
  function LexFrom(s: string, i: nat): LexOutcome
    requires i <= |s|
    decreases |s| - i
  {
    match ScanToken(s, i)
    case End => Halts([])
    case Stuck => Diverges
    case Emit(t, next) => Prepend(t, LexFrom(s, next))
  }

  /** `getTokens(source)`: it resets the cursor, so the result depends on `source` alone. */
  function Lex(source: string): LexOutcome {
    LexFrom(source, 0)
  }

  /** The shape of every token the scanner can emit. */
  predicate WellFormedToken(t: Token) {
    match t.kind
    case Keyword => t.value in Keywords
    case Identifier =>
      && |t.value| > 0
      && t.value !in Keywords
      && !IsDigit(t.value[0])
      && t.value[0] != '"'
      && forall m :: 0 <= m < |t.value| ==> InRun(IdentifierChars, t.value[m])
    case IntLiteral =>
      |t.value| > 0 && forall m :: 0 <= m < |t.value| ==> IsDigit(t.value[m])
    case StringLiteral =>
      forall m :: 0 <= m < |t.value| ==> t.value[m] != '"'
    case EndOfFile => false
    case _ => |t.value| == 1 && BasicTokenKind(t.value[0]) == Some(t.kind)
  }

  /**
   * One step of the scan: the token is well formed, and the source from the
   * cursor to the new cursor is whitespace followed by exactly the token's text.
   */
  lemma ScanTokenSound(s: string, i: nat)
    requires i <= |s|
    requires ScanToken(s, i).Emit?
    ensures WellFormedToken(ScanToken(s, i).token)
    ensures RunEnd(s, i, Whitespace) < ScanToken(s, i).next
    ensures Render(ScanToken(s, i).token) == s[RunEnd(s, i, Whitespace)..ScanToken(s, i).next]
  {
    ScanAtSound(s, RunEnd(s, i, Whitespace));
  }

  lemma ScanAtSound(s: string, j: nat)
    requires j < |s| && !IsWhitespace(s[j])
    requires ScanAt(s, j).Emit?
    ensures WellFormedToken(ScanAt(s, j).token)
    ensures Render(ScanAt(s, j).token) == s[j..ScanAt(s, j).next]
  {
    var c := s[j];
    if IsBasic(c) {
      BasicSound(s, j);
    } else if c == '"' {
      StringSound(s, j);
    } else if IsDigit(c) {
      IntegerSound(s, j);
    } else {
      WordSound(s, j);
    }
  }

  lemma BasicSound(s: string, j: nat)
    requires j < |s| && IsBasic(s[j])
    ensures WellFormedToken(Token(BasicTokenKind(s[j]).value, [s[j]]))
    ensures [s[j]] == s[j..j + 1]
  {
  }

  lemma StringSound(s: string, j: nat)
    requires j < |s| && s[j] == '"' && ScanString(s, j).Emit?
    ensures WellFormedToken(ScanString(s, j).token)
    ensures Render(ScanString(s, j).token) == s[j..ScanString(s, j).next]
  {
    var k := RunEnd(s, j + 1, StringChars);
    assert "\"" + s[j + 1..k] + "\"" == s[j..k + 1];
  }

  lemma IntegerSound(s: string, j: nat)
    requires j < |s| && IsDigit(s[j])
    ensures WellFormedToken(ScanInteger(s, j).token)
    ensures Render(ScanInteger(s, j).token) == s[j..ScanInteger(s, j).next]
  {
  }

  lemma WordSound(s: string, j: nat)
    requires j < |s| && InRun(IdentifierChars, s[j]) && s[j] != '"' && !IsDigit(s[j]) && ScanWord(s, j).Emit?
    ensures WellFormedToken(ScanWord(s, j).token)
    ensures Render(ScanWord(s, j).token) == s[j..ScanWord(s, j).next]
  {
    var k := RunEnd(s, j, IdentifierChars);
    assert s[j..k][0] == s[j];
  }

  /**
   * Every token is well formed: punctuation comes from the table with its own
   * character as value, INT tokens are non-empty digit runs, string values hold no
   * quote, identifier runs hold no whitespace and no punctuation, keywords are
   * exactly the keyword list, and no END_OF_FILE token is ever emitted.
   */
  lemma {:induction false} LexFromWellFormed(s: string, i: nat)
    requires i <= |s|
    requires LexFrom(s, i).Halts?
    ensures forall k :: 0 <= k < |LexFrom(s, i).tokens| ==> WellFormedToken(LexFrom(s, i).tokens[k])
    decreases |s| - i
  {
    match ScanToken(s, i)
    case End =>
    case Emit(t, next) =>
      ScanTokenSound(s, i);
      LexFromWellFormed(s, next);
  }

  /** A comma is not in the punctuation table, so it only ever appears inside an identifier run or a string. */
  lemma CommaOnlyInsideRuns(t: Token)
    requires WellFormedToken(t)
    requires ',' in t.value
    ensures t.kind == Identifier || t.kind == StringLiteral
  {
  }

  /** The text a token stands for in the source: string values are re-wrapped in quotes. */
  function Render(t: Token): string {
    if t.kind == StringLiteral then "\"" + t.value + "\"" else t.value
  }

  predicate AllWhitespace(w: string) {
    forall m :: 0 <= m < |w| ==> IsWhitespace(w[m])
  }

  /**
   * The whitespace runs `gaps` interleaved with the token texts:
   * `gaps[0] + Render(ts[0]) + gaps[1] + ... + Render(ts[n-1]) + gaps[n]`.
   */
  function Weave(gaps: seq<string>, ts: seq<Token>): string
    requires |gaps| == |ts| + 1
    decreases |ts|
  {
    if |ts| == 0 then gaps[0] else gaps[0] + Render(ts[0]) + Weave(gaps[1..], ts[1..])
  }

  /**
   * What must follow a token's text for the scan to stop exactly at its end: an
   * identifier run or keyword needs a character outside the identifier run (at the
   * end of the source the run would never stop), an INT a non-digit or the end.
   */
  predicate Delimits(t: Token, after: string) {
    match t.kind
    case Keyword | Identifier => |after| > 0 && !InRun(IdentifierChars, after[0])
    case IntLiteral => |after| == 0 || !IsDigit(after[0])
    case _ => true
  }

  /** Whitespace gaps and well-formed tokens, each token delimited by the text after it. */
  predicate Laid(gaps: seq<string>, ts: seq<Token>)
    requires |gaps| == |ts| + 1
    decreases |ts|
  {
    && AllWhitespace(gaps[0])
    && (|ts| > 0 ==>
          && WellFormedToken(ts[0])
          && Delimits(ts[0], Weave(gaps[1..], ts[1..]))
          && Laid(gaps[1..], ts[1..]))
  }

  /** A layout with one more token in front. */
  lemma LaidCons(gap: string, t: Token, later: seq<string>, rest: seq<Token>)
    requires AllWhitespace(gap) && WellFormedToken(t)
    requires |later| == |rest| + 1 && Laid(later, rest) && Delimits(t, Weave(later, rest))
    ensures Laid([gap] + later, [t] + rest)
    ensures Weave([gap] + later, [t] + rest) == gap + Render(t) + Weave(later, rest)
  {
    assert ([gap] + later)[1..] == later && ([t] + rest)[1..] == rest;
  }

  /** The token a scan emits is delimited by the source after it. */
  lemma ScanDelimits(s: string, j: nat)
    requires j < |s| && !IsWhitespace(s[j])
    requires ScanAt(s, j).Emit?
    ensures Delimits(ScanAt(s, j).token, s[ScanAt(s, j).next..])
  {
  }

  /** An emitting turn of the scan splits the source into a gap, the token's text and the rest. */
  lemma ScanSplits(s: string, i: nat)
    requires i <= |s| && ScanToken(s, i).Emit?
    ensures var j, t, next := RunEnd(s, i, Whitespace), ScanToken(s, i).token, ScanToken(s, i).next;
            && AllWhitespace(s[i..j]) && WellFormedToken(t) && Delimits(t, s[next..])
            && s[i..] == s[i..j] + Render(t) + s[next..]
  {
    var j, next := RunEnd(s, i, Whitespace), ScanToken(s, i).next;
    ScanTokenSound(s, i);
    ScanDelimits(s, j);
    RunIsWhitespace(s, i, j);
    JoinThree(s, i, j, next);
  }

  lemma RunIsWhitespace(s: string, i: nat, j: nat)
    requires i <= j <= |s| && forall m :: i <= m < j ==> IsWhitespace(s[m])
    ensures AllWhitespace(s[i..j])
  {
  }

  lemma JoinThree(s: string, i: nat, j: nat, k: nat)
    requires i <= j <= k <= |s|
    ensures s[i..] == s[i..j] + s[j..k] + s[k..]
  {
  }

  /**
   * Reconstruction: the source from the cursor is whitespace runs interleaved with
   * the token texts (string values put back between quotes), in order, each token
   * delimited by what follows it. Nothing but the whitespace between tokens is
   * dropped.
   */
  lemma {:induction false} LexFromReconstructs(s: string, i: nat)
    requires i <= |s|
    requires LexFrom(s, i).Halts?
    ensures var ts := LexFrom(s, i).tokens;
            exists gaps :: |gaps| == |ts| + 1 && Laid(gaps, ts) && s[i..] == Weave(gaps, ts)
    decreases |s| - i
  {
    LexFromStep(s, i);
    if ScanToken(s, i).Emit? {
      var next := ScanToken(s, i).next;
      LexFromReconstructs(s, next);
      var rest := LexFrom(s, next).tokens;
      var later :| |later| == |rest| + 1 && Laid(later, rest) && s[next..] == Weave(later, rest);
      ReconstructStep(s, i, later);
    } else {
      var gaps := [s[i..]];
      assert Laid(gaps, []) && s[i..] == Weave(gaps, []);
    }
  }

  /** The layout of the rest of the scan, with the gap and token of one emitting turn put in front. */
  lemma ReconstructStep(s: string, i: nat, later: seq<string>)
    requires i <= |s| && ScanToken(s, i).Emit?
    requires LexFrom(s, i).Halts? && LexFrom(s, ScanToken(s, i).next).Halts?
    requires var rest := LexFrom(s, ScanToken(s, i).next).tokens;
             |later| == |rest| + 1 && Laid(later, rest) && s[ScanToken(s, i).next..] == Weave(later, rest)
    ensures var ts, gaps := LexFrom(s, i).tokens, [s[i..RunEnd(s, i, Whitespace)]] + later;
            |gaps| == |ts| + 1 && Laid(gaps, ts) && s[i..] == Weave(gaps, ts)
  {
    var t, next := ScanToken(s, i).token, ScanToken(s, i).next;
    var rest := LexFrom(s, next).tokens;
    ScanSplits(s, i);
    LexFromStep(s, i);
    LaidCons(s[i..RunEnd(s, i, Whitespace)], t, later, rest);
  }

  /** A run loop started at `i` stops at `k` when every character before `k` is in the run and the one at `k` is not. */
  lemma {:induction false} RunEndAt(s: string, i: nat, k: nat, run: CharRun)
    requires i <= k <= |s|
    requires forall m :: i <= m < k ==> InRun(run, s[m])
    requires k == |s| || !InRun(run, s[k])
    ensures RunEnd(s, i, run) == k
    decreases k - i
  {
    if i < k {
      RunEndAt(s, i + 1, k, run);
    }
  }

  /** A run loop started on the text `w` stops right after it when `w` is all in the run and the next character is not. */
  lemma RunEndOver(s: string, j: nat, w: string, run: CharRun)
    requires j + |w| <= |s| && s[j..j + |w|] == w
    requires forall m :: 0 <= m < |w| ==> InRun(run, w[m])
    requires j + |w| == |s| || !InRun(run, s[j + |w|])
    ensures RunEnd(s, j, run) == j + |w|
  {
    assert forall m :: j <= m < j + |w| ==> s[m] == w[m - j];
    RunEndAt(s, j, j + |w|, run);
  }

  /** `KEYWORDS` holds exactly six words; every other identifier run is an IDENTIFIER token. */
  lemma KeywordsListed(w: string)
    ensures w in Keywords <==> w in {"func", "var", "u8", "u64", "usize", "return"}
  {
  }

  /** Each keyword is an identifier run, so the word scan can read it. */
  lemma KeywordsAreWords(w: string)
    requires w in Keywords
    ensures |w| > 0 && !IsDigit(w[0]) && w[0] != '"'
    ensures forall m :: 0 <= m < |w| ==> InRun(IdentifierChars, w[m])
  {
  }

  /** A well-formed token's text starts and ends with a character that is not whitespace. */
  lemma RenderIsDelimitedText(t: Token)
    requires WellFormedToken(t)
    ensures |Render(t)| > 0
    ensures !IsWhitespace(Render(t)[0]) && !IsWhitespace(Render(t)[|Render(t)| - 1])
  {
    if t.kind == Keyword {
      KeywordsAreWords(t.value);
    }
  }

  /** Scanning at an opening quote whose value holds no quote reads that string. */
  lemma ScanReadsString(s: string, j: nat, v: string)
    requires forall m :: 0 <= m < |v| ==> v[m] != '"'
    requires j + |v| + 2 <= |s| && s[j..j + |v| + 2] == "\"" + v + "\""
    ensures ScanString(s, j) == Emit(Token(StringLiteral, v), j + |v| + 2)
  {
    var quoted := "\"" + v + "\"";
    assert forall k :: 0 <= k < |v| ==> s[j + 1 + k] == s[j..j + |v| + 2][k + 1] == quoted[k + 1] == v[k];
    assert s[j + 1..j + 1 + |v|] == v;
    assert s[j + 1 + |v|] == s[j..j + |v| + 2][|v| + 1] == quoted[|v| + 1];
    RunEndOver(s, j + 1, v, StringChars);
  }

  /** Scanning at the start of a well-formed token's text, delimited as `Delimits` requires, emits that token. */
  lemma ScanReadsToken(s: string, j: nat, t: Token)
    requires WellFormedToken(t)
    requires j + |Render(t)| <= |s| && s[j..j + |Render(t)|] == Render(t)
    requires Delimits(t, s[j + |Render(t)|..])
    ensures j < |s| && !IsWhitespace(s[j])
    ensures ScanAt(s, j) == Emit(t, j + |Render(t)|)
  {
    RenderIsDelimitedText(t);
    assert s[j] == Render(t)[0];
    match t.kind
    case StringLiteral =>
      ScanReadsString(s, j, t.value);
    case IntLiteral =>
      ScanReadsNumber(s, j, t);
    case Identifier | Keyword =>
      ScanReadsWord(s, j, t);
    case LeftParen | RightParen | LeftBrace | RightBrace | Colon | Semicolon | Equals | Plus =>
      assert t.value == [s[j]];
  }

  /** The INT literal case of `ScanReadsToken`. */
  lemma ScanReadsNumber(s: string, j: nat, t: Token)
    requires WellFormedToken(t) && t.kind == IntLiteral
    requires j + |t.value| <= |s| && s[j..j + |t.value|] == t.value
    requires Delimits(t, s[j + |t.value|..])
    ensures j < |s| && IsDigit(s[j]) && !IsBasic(s[j]) && s[j] != '"'
    ensures ScanInteger(s, j) == Emit(t, j + |t.value|)
  {
    assert s[j] == t.value[0];
    RunEndOver(s, j, t.value, Digits);
  }

  /** The identifier and keyword case of `ScanReadsToken`. */
  lemma ScanReadsWord(s: string, j: nat, t: Token)
    requires WellFormedToken(t) && (t.kind == Identifier || t.kind == Keyword)
    requires j + |t.value| <= |s| && s[j..j + |t.value|] == t.value
    requires Delimits(t, s[j + |t.value|..])
    ensures j < |s| && !IsDigit(s[j]) && !IsBasic(s[j]) && s[j] != '"'
    ensures ScanWord(s, j) == Emit(t, j + |t.value|)
  {
    if t.kind == Keyword {
      KeywordsAreWords(t.value);
    }
    assert s[j] == t.value[0];
    RunEndOver(s, j, t.value, IdentifierChars);
  }

  lemma SplitThree(s: string, i: nat, a: string, b: string, c: string)
    requires i <= |s| && s[i..] == a + b + c
    ensures i + |a| + |b| <= |s|
    ensures s[i..i + |a|] == a && s[i + |a|..i + |a| + |b|] == b && s[i + |a| + |b|..] == c
  {
    assert s[i..][..|a|] == a && s[i..][|a|..|a| + |b|] == b && s[i..][|a| + |b|..] == c;
  }

  /** A source that is a whitespace gap, a delimited well-formed token's text and more: the scan emits that token. */
  lemma ScanReadsGapAndToken(s: string, i: nat, gap: string, t: Token, after: string)
    requires i <= |s| && s[i..] == gap + Render(t) + after
    requires AllWhitespace(gap) && WellFormedToken(t) && Delimits(t, after)
    ensures i + |gap| + |Render(t)| <= |s|
    ensures ScanToken(s, i) == Emit(t, i + |gap| + |Render(t)|)
    ensures s[i + |gap| + |Render(t)|..] == after
  {
    var j := i + |gap|;
    SplitThree(s, i, gap, Render(t), after);
    ScanReadsToken(s, j, t);
    RunEndOver(s, i, gap, Whitespace);
    ScanPastGap(s, i, j);
  }

  /** With the whitespace run from `i` ending at `j` inside the source, the turn of the scan is the token at `j`. */
  lemma ScanPastGap(s: string, i: nat, j: nat)
    requires i <= j < |s| && RunEnd(s, i, Whitespace) == j
    ensures !IsWhitespace(s[j]) && ScanToken(s, i) == ScanAt(s, j)
  {
  }

  /** A source that is only whitespace from the cursor: the scan ends. */
  lemma ScanReadsGap(s: string, i: nat, gap: string)
    requires i <= |s| && s[i..] == gap && AllWhitespace(gap)
    ensures ScanToken(s, i) == End
  {
    assert s[i..i + |gap|] == gap;
    RunEndOver(s, i, gap, Whitespace);
  }

  /**
   * The converse of reconstruction: a source laid out as whitespace gaps and
   * delimited well-formed tokens is scanned back to exactly those tokens, so in
   * particular the scan halts.
   */
  lemma {:induction false} LaidOutSourceLexes(s: string, i: nat, gaps: seq<string>, ts: seq<Token>)
    requires i <= |s| && |gaps| == |ts| + 1
    requires Laid(gaps, ts) && s[i..] == Weave(gaps, ts)
    ensures LexFrom(s, i) == Halts(ts)
    decreases |ts|
  {
    if |ts| == 0 {
      ScanReadsGap(s, i, gaps[0]);
      LexFromStep(s, i);
    } else {
      var next := i + |gaps[0]| + |Render(ts[0])|;
      LaidOutStep(s, i, gaps, ts);
      LaidOutSourceLexes(s, next, gaps[1..], ts[1..]);
      LexFromEmits(s, i, next, ts);
    }
  }

  /** One token of a layout: the scan reads the first gap and token and continues on the rest of the layout. */
  lemma LaidOutStep(s: string, i: nat, gaps: seq<string>, ts: seq<Token>)
    requires i <= |s| && |gaps| == |ts| + 1 && |ts| > 0
    requires Laid(gaps, ts) && s[i..] == Weave(gaps, ts)
    ensures var next := i + |gaps[0]| + |Render(ts[0])|;
            && next <= |s| && Laid(gaps[1..], ts[1..]) && s[next..] == Weave(gaps[1..], ts[1..])
            && ScanToken(s, i) == Emit(ts[0], next)
  {
    ScanReadsGapAndToken(s, i, gaps[0], ts[0], Weave(gaps[1..], ts[1..]));
  }

  /** One turn of the main loop, as `LexFrom` takes it. */
  lemma LexFromStep(s: string, i: nat)
    requires i <= |s|
    ensures ScanToken(s, i) == End ==> LexFrom(s, i) == Halts([])
    ensures ScanToken(s, i).Emit? ==> LexFrom(s, i) == Prepend(ScanToken(s, i).token, LexFrom(s, ScanToken(s, i).next))
  {
  }

  /** An emitting turn followed by a halting scan halts with one more token in front. */
  lemma LexFromEmits(s: string, i: nat, next: nat, ts: seq<Token>)
    requires i <= |s| && |ts| > 0 && ScanToken(s, i) == Emit(ts[0], next)
    requires LexFrom(s, next) == Halts(ts[1..])
    ensures LexFrom(s, i) == Halts(ts)
  {
    assert [ts[0]] + ts[1..] == ts;
  }

  /** The scan halts with tokens `ts` exactly when the source is a layout of `ts`. */
  lemma LexReadsExactlyLayouts(s: string, ts: seq<Token>)
    ensures Lex(s) == Halts(ts) <==> exists gaps :: |gaps| == |ts| + 1 && Laid(gaps, ts) && s == Weave(gaps, ts)
  {
    assert s[0..] == s;
    if Lex(s) == Halts(ts) {
      LexFromReconstructs(s, 0);
    }
    if exists gaps :: |gaps| == |ts| + 1 && Laid(gaps, ts) && s == Weave(gaps, ts) {
      var gaps :| |gaps| == |ts| + 1 && Laid(gaps, ts) && s == Weave(gaps, ts);
      LaidOutSourceLexes(s, 0, gaps, ts);
    }
  }

  /** Whitespace put in front of a source that halts changes nothing in the tokens. */
  lemma LexSkipsLeadingWhitespace(w: string, rest: string, tr: seq<Token>)
    requires AllWhitespace(w) && Lex(rest) == Halts(tr)
    ensures Lex(w + rest) == Halts(tr)
  {
    assert rest[0..] == rest;
    LexFromReconstructs(rest, 0);
    var later :| |later| == |tr| + 1 && Laid(later, tr) && rest == Weave(later, tr);
    WidenFirstGap(w, later, tr);
    assert (w + rest)[0..] == w + rest;
    LaidOutSourceLexes(w + rest, 0, [w + later[0]] + later[1..], tr);
  }

  /** Whitespace added to the first gap of a layout gives a layout of the text with that whitespace in front. */
  lemma WidenFirstGap(w: string, gaps: seq<string>, ts: seq<Token>)
    requires |gaps| == |ts| + 1 && AllWhitespace(w) && Laid(gaps, ts)
    ensures Laid([w + gaps[0]] + gaps[1..], ts)
    ensures Weave([w + gaps[0]] + gaps[1..], ts) == w + Weave(gaps, ts)
  {
    WidenedGapLaid(w, gaps, ts);
    WidenedGapWeave(w, gaps, ts);
  }

  lemma WidenedGapLaid(w: string, gaps: seq<string>, ts: seq<Token>)
    requires |gaps| == |ts| + 1 && AllWhitespace(w) && Laid(gaps, ts)
    ensures Laid([w + gaps[0]] + gaps[1..], ts)
  {
    var wider := [w + gaps[0]] + gaps[1..];
    assert wider[0] == w + gaps[0] && wider[1..] == gaps[1..];
    assert AllWhitespace(w + gaps[0]);
  }

  lemma WidenedGapWeave(w: string, gaps: seq<string>, ts: seq<Token>)
    requires |gaps| == |ts| + 1
    ensures Weave([w + gaps[0]] + gaps[1..], ts) == w + Weave(gaps, ts)
  {
    var wider := [w + gaps[0]] + gaps[1..];
    assert wider[0] == w + gaps[0] && wider[1..] == gaps[1..];
    if |ts| > 0 {
      WeaveCons(wider, ts);
      WeaveCons(gaps, ts);
      ConcatAssociates(w, gaps[0], Render(ts[0]), Weave(gaps[1..], ts[1..]));
    }
  }

  /** One unfolding of `Weave`. */
  lemma WeaveCons(gaps: seq<string>, ts: seq<Token>)
    requires |gaps| == |ts| + 1 && |ts| > 0
    ensures Weave(gaps, ts) == gaps[0] + Render(ts[0]) + Weave(gaps[1..], ts[1..])
  {
  }

  lemma ConcatAssociates(a: string, b: string, c: string, d: string)
    ensures (a + b) + c + d == a + (b + c + d)
  {
  }

  /**
   * A source that halts, with a gap and a well-formed token it delimits put in
   * front, halts with that token in front: a sufficient condition for
   * termination that covers string literals.
   */
  lemma LexConsToken(gap: string, t: Token, rest: string, tr: seq<Token>)
    requires AllWhitespace(gap) && WellFormedToken(t) && Delimits(t, rest)
    requires Lex(rest) == Halts(tr)
    ensures Lex(gap + Render(t) + rest) == Halts([t] + tr)
  {
    assert rest[0..] == rest;
    LexFromReconstructs(rest, 0);
    var later :| |later| == |tr| + 1 && Laid(later, tr) && rest == Weave(later, tr);
    LaidCons(gap, t, later, tr);
    var s := gap + Render(t) + rest;
    assert s[0..] == s;
    LaidOutSourceLexes(s, 0, [gap] + later, [t] + tr);
  }

  /** A token with the whitespace written before it: a source can be laid out piece by piece. */
  datatype Piece = Piece(gap: string, token: Token)

  /** The text of the pieces from the `j`-th on, in order, followed by `tail`. */
  function Text(ps: seq<Piece>, j: nat, tail: string): string
    requires j <= |ps|
    decreases |ps| - j
  {
    if j == |ps| then tail else ps[j].gap + Render(ps[j].token) + Text(ps, j + 1, tail)
  }

  function TokensOf(ps: seq<Piece>): (ts: seq<Token>)
    ensures |ts| == |ps| && forall k :: 0 <= k < |ps| ==> ts[k] == ps[k].token
  {
    seq(|ps|, k requires 0 <= k < |ps| => ps[k].token)
  }

  /** The first character of a piece's text. */
  function Lead(p: Piece): char {
    if |p.gap| > 0 then p.gap[0] else if |Render(p.token)| > 0 then Render(p.token)[0] else ' '
  }

  /**
   * From the `j`-th piece on, each piece is whitespace and a well-formed token,
   * and each token is delimited by the first character after it: the next
   * piece's, or `last` after the final one.
   */
  predicate Chained(ps: seq<Piece>, j: nat, last: char)
    requires j <= |ps|
    decreases |ps| - j
  {
    j == |ps| ||
    (&& AllWhitespace(ps[j].gap)
     && WellFormedToken(ps[j].token)
     && Delimits(ps[j].token, [if j + 1 == |ps| then last else Lead(ps[j + 1])])
     && Chained(ps, j + 1, last))
  }

  /** Delimiting depends on the first character after the token alone. */
  lemma DelimitsByFirst(t: Token, after: string, c: char)
    requires |after| > 0 && after[0] == c && Delimits(t, [c])
    ensures Delimits(t, after)
  {
  }

  lemma TextStartsWithLead(ps: seq<Piece>, j: nat, tail: string)
    requires j <= |ps| && |tail| > 0 && (j < |ps| ==> WellFormedToken(ps[j].token))
    ensures |Text(ps, j, tail)| > 0
    ensures Text(ps, j, tail)[0] == if j == |ps| then tail[0] else Lead(ps[j])
  {
    if j < |ps| {
      RenderIsDelimitedText(ps[j].token);
    }
  }

  /**
   * A sufficient condition for termination that covers string literals: chained
   * pieces followed by a nonempty run of whitespace scan back to exactly their
   * tokens.
   */
  lemma {:induction false} ChainedTextLexes(ps: seq<Piece>, j: nat, tail: string)
    requires j <= |ps| && |tail| > 0 && AllWhitespace(tail) && Chained(ps, j, tail[0])
    ensures Lex(Text(ps, j, tail)) == Halts(TokensOf(ps)[j..])
    decreases |ps| - j
  {
    if j == |ps| {
      assert tail[0..] == tail;
      ScanReadsGap(tail, 0, tail);
      LexFromStep(tail, 0);
    } else {
      ChainedTextLexes(ps, j + 1, tail);
      ChainedStep(ps, j, tail);
    }
  }

  /** One piece in front of chained pieces that lex: the scan reads its token first. */
  lemma ChainedStep(ps: seq<Piece>, j: nat, tail: string)
    requires j < |ps| && |tail| > 0 && Chained(ps, j, tail[0])
    requires Lex(Text(ps, j + 1, tail)) == Halts(TokensOf(ps)[j + 1..])
    ensures Lex(Text(ps, j, tail)) == Halts(TokensOf(ps)[j..])
  {
    var rest, tr := Text(ps, j + 1, tail), TokensOf(ps)[j + 1..];
    TextStartsWithLead(ps, j + 1, tail);
    DelimitsByFirst(ps[j].token, rest, if j + 1 == |ps| then tail[0] else Lead(ps[j + 1]));
    LexConsToken(ps[j].gap, ps[j].token, rest, tr);
    TokensOfFrom(ps, j);
  }

  lemma TokensOfFrom(ps: seq<Piece>, j: nat)
    requires j < |ps|
    ensures TokensOf(ps)[j..] == [ps[j].token] + TokensOf(ps)[j + 1..]
  {
  }

  /** Chained pieces followed by chained pieces are chained, when the first of the second delimits the last of the first. */
  lemma {:induction false} ChainedAppend(a: seq<Piece>, b: seq<Piece>, j: nat, last: char)
    requires j <= |a| && |b| > 0 && Chained(a, j, Lead(b[0])) && Chained(b, 0, last)
    ensures Chained(a + b, j, last)
    decreases |a| - j
  {
    if j < |a| {
      ChainedAppend(a, b, j + 1, last);
      assert (a + b)[j] == a[j];
      assert (a + b)[j + 1] == if j + 1 == |a| then b[0] else a[j + 1];
    } else {
      ChainedShift(a, b, 0, last);
    }
  }

  /** Chaining looks at the pieces from `j` on only. */
  lemma {:induction false} ChainedShift(a: seq<Piece>, b: seq<Piece>, j: nat, last: char)
    requires j <= |b| && Chained(b, j, last)
    ensures Chained(a + b, |a| + j, last)
    decreases |b| - j
  {
    if j < |b| {
      ChainedShift(a, b, j + 1, last);
      assert (a + b)[|a| + j] == b[j];
      if j + 1 < |b| {
        assert (a + b)[|a| + j + 1] == b[j + 1];
      }
    }
  }

  lemma {:induction false} TextAppend(a: seq<Piece>, b: seq<Piece>, j: nat, tail: string)
    requires j <= |a|
    ensures Text(a + b, j, tail) == Text(a, j, "") + Text(b, 0, tail)
    decreases |a| - j
  {
    if j < |a| {
      TextAppend(a, b, j + 1, tail);
      assert (a + b)[j] == a[j];
    } else {
      TextShift(a, b, 0, tail);
    }
  }

  /** The text looks at the pieces from `j` on only. */
  lemma {:induction false} TextShift(a: seq<Piece>, b: seq<Piece>, j: nat, tail: string)
    requires j <= |b|
    ensures Text(a + b, |a| + j, tail) == Text(b, j, tail)
    decreases |b| - j
  {
    if j < |b| {
      TextShift(a, b, j + 1, tail);
      assert (a + b)[|a| + j] == b[j];
    }
  }

  lemma TokensOfAppend(a: seq<Piece>, b: seq<Piece>)
    ensures TokensOf(a + b) == TokensOf(a) + TokensOf(b)
  {
  }

  /**
   * A sufficient condition for termination: no double quote anywhere, and the
   * source is empty or ends in whitespace or punctuation (so no identifier run can
   * reach its end).
   */
  lemma {:induction false} DelimitedQuoteFreeSourceHalts(s: string, i: nat)
    requires i <= |s|
    requires forall m :: 0 <= m < |s| ==> s[m] != '"'
    requires |s| == 0 || !InRun(IdentifierChars, s[|s| - 1])
    ensures LexFrom(s, i).Halts?
    decreases |s| - i
  {
    var j := RunEnd(s, i, Whitespace);
    if j < |s| && !IsBasic(s[j]) && !IsDigit(s[j]) {
      assert RunEnd(s, j, IdentifierChars) < |s|;
    }
    match ScanToken(s, i)
    case End =>
    case Emit(t, next) =>
      DelimitedQuoteFreeSourceHalts(s, next);
  }

  /** A string literal that is never closed makes the scan diverge. */
  lemma UnclosedStringDiverges(s: string, i: nat)
    requires i <= |s|
    requires RunEnd(s, i, Whitespace) < |s| && s[RunEnd(s, i, Whitespace)] == '"'
    requires forall m :: RunEnd(s, i, Whitespace) < m < |s| ==> s[m] != '"'
    ensures LexFrom(s, i) == Diverges
  {
  }

  /** An identifier run that reaches the end of the source makes the scan diverge. */
  lemma TrailingIdentifierRunDiverges(s: string, i: nat)
    requires i <= |s|
    requires RunEnd(s, i, Whitespace) < |s|
    requires !IsDigit(s[RunEnd(s, i, Whitespace)]) && s[RunEnd(s, i, Whitespace)] != '"'
    requires forall m :: RunEnd(s, i, Whitespace) <= m < |s| ==> InRun(IdentifierChars, s[m])
    ensures LexFrom(s, i) == Diverges
  {
  }

  /** The scanner object of lexer.js: a source text and a cursor into it. */
  class Lexer {
    var source: string
    var index: int

    constructor ()
      ensures source == "" && index == 0
    {
      source := "";
      index := 0;
    }

    method SkipWhitespace()
      requires 0 <= index <= |source|
      modifies this
      ensures source == old(source)
      ensures index == RunEnd(source, old(index), Whitespace)
    {
      while index < |source| && IsWhitespace(source[index])
        invariant source == old(source)
        invariant old(index) <= index <= |source|
        invariant RunEnd(source, index, Whitespace) == RunEnd(source, old(index), Whitespace)
        decreases |source| - index
      {
        index := index + 1;
      }
    }

    /**
     * Reads the identifier run after any whitespace. Past the end of the source the
     * character read is `undefined`, which passes both of the loop's tests; the
     * second requires clause says the run stops before that happens.
     */
    method GetIdentifier() returns (out: string)
      requires 0 <= index <= |source|
      requires RunEnd(source, RunEnd(source, index, Whitespace), IdentifierChars) < |source|
      modifies this
      ensures source == old(source)
      ensures var j := RunEnd(source, old(index), Whitespace);
              index == RunEnd(source, j, IdentifierChars) && out == source[j..index]
    {
      SkipWhitespace();
      ghost var j := index;
      out := "";
      while index >= |source| || InRun(IdentifierChars, source[index])
        invariant source == old(source)
        invariant j <= index <= RunEnd(source, j, IdentifierChars)
        invariant out == source[j..index]
        decreases |source| - index
      {
        out := out + [source[index]];
        index := index + 1;
      }
    }

    /**
     * Skips the opening quote and reads up to the next quote, which it consumes.
     * No escape is processed. As for identifiers, reading past the end never stops,
     * hence the second requires clause.
     */
    method GetString() returns (out: string)
      requires 0 <= index && index + 1 <= |source|
      requires RunEnd(source, index + 1, StringChars) < |source|
      modifies this
      ensures source == old(source)
      ensures var k := RunEnd(source, old(index) + 1, StringChars);
              out == source[old(index) + 1..k] && index == k + 1
      ensures ScanString(source, old(index)) == Emit(Token(StringLiteral, out), index)
    {
      index := index + 1;
      ghost var j := index;
      out := "";
      while index >= |source| || source[index] != '"'
        invariant source == old(source)
        invariant j <= index <= RunEnd(source, j, StringChars)
        invariant out == source[j..index]
        decreases |source| - index
      {
        out := out + [source[index]];
        index := index + 1;
      }
      index := index + 1;
    }

    method GetInteger() returns (out: string)
      requires 0 <= index <= |source|
      modifies this
      ensures source == old(source)
      ensures index == RunEnd(source, old(index), Digits)
      ensures out == source[old(index)..index]
      ensures ScanInteger(source, old(index)) == Emit(Token(IntLiteral, out), index)
    {
      out := "";
      while index < |source| && IsDigit(source[index])
        invariant source == old(source)
        invariant old(index) <= index <= RunEnd(source, old(index), Digits)
        invariant RunEnd(source, index, Digits) == RunEnd(source, old(index), Digits)
        invariant out == source[old(index)..index]
        decreases |source| - index
      {
        out := out + [source[index]];
        index := index + 1;
      }
    }

    /** Resets the cursor, then tokenizes `src` (the parameter is `source` in lexer.js). */
    method GetTokens(src: string) returns (tokens: seq<Token>)
      requires Lex(src).Halts?
      modifies this
      ensures source == src && index == |src|
      ensures tokens == Lex(src).tokens
    {
      index := 0;
      source := src;
      tokens := [];
      while index < |source|
        invariant source == src && 0 <= index <= |source|
        invariant LexFrom(src, index).Halts?
        invariant Lex(src).tokens == tokens + LexFrom(src, index).tokens
        decreases |source| - index
      {
        ghost var i := index;
        SkipWhitespace();
        if index == |source| {
          // `c == undefined`: only whitespace was left
          break;
        }
        ghost var j := index;
        assert ScanToken(src, i) == ScanAt(src, j);
        var c := source[index];
        var token: Token;
        if IsBasic(c) {
          token := Token(BasicTokenKind(c).value, [c]);
          index := index + 1;
        } else if c == '"' {
          var stringValue := GetString();
          token := Token(StringLiteral, stringValue);
          assert ScanString(src, j) == Emit(token, index);
        } else if IsDigit(c) {
          var intValue := GetInteger();
          token := Token(IntLiteral, intValue);
          assert ScanInteger(src, j) == Emit(token, index);
        } else {
          var next := GetIdentifier();
          if next in Keywords {
            token := Token(Keyword, next);
          } else {
            token := Token(Identifier, next);
          }
          assert ScanWord(src, j) == Emit(token, index);
        }
        assert ScanAt(src, j) == Emit(token, index);
        LexFromAdvances(src, i, tokens);
        tokens := tokens + [token];
      }
    }
  }

  /** How the loop invariant of `GetTokens` survives one emitted token. */
  lemma LexFromAdvances(s: string, i: nat, done: seq<Token>)
    requires i <= |s|
    requires LexFrom(s, i).Halts? && ScanToken(s, i).Emit?
    ensures LexFrom(s, ScanToken(s, i).next).Halts?
    ensures done + LexFrom(s, i).tokens
         == (done + [ScanToken(s, i).token]) + LexFrom(s, ScanToken(s, i).next).tokens
  {
  }
}
