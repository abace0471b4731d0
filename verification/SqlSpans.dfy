/**
 Where spans begin and end, which words lead a statement and what separates statements,
 with every condition written out: the engines and settings, the characters, the
 terminators. Nothing here is stated through the scanner's own tests.
 */
module SqlSpans {
  import opened Text
  import opened SqlScanner
  import opened SqlAutomaton

  // ---- Characters --------------------------------------------------------------------

  predicate IsLetter(c: char) {
    c == '_' || 'a' <= c <= 'z' || 'A' <= c <= 'Z'
  }

  predicate IsLetterOrDigit(c: char) {
    c == '_' || '0' <= c <= '9' || 'a' <= c <= 'z' || 'A' <= c <= 'Z'
  }

  predicate IsBlank(c: char) {
    || c == '\t' || c == '\n' || c == '\U{0B}' || c == '\U{0C}' || c == '\r' || c == ' '
    || c == '\U{A0}' || c == '\U{1680}' || c == '\U{202F}' || c == '\U{205F}' || c == '\U{3000}' || c == '\U{FEFF}'
    || '\U{2000}' <= c <= '\U{200A}'
    || '\U{2028}' <= c <= '\U{2029}'
  }

  /** The letter `a` in upper case is `A`, and so on; nothing else changes. */
  lemma UpperCases(s: string, k: nat)
    requires k < |s|
    ensures |Upper(s)| == |s|
    ensures 'a' <= s[k] <= 'z' ==> Upper(s)[k] as int == s[k] as int - 32
    ensures !('a' <= s[k] <= 'z') ==> Upper(s)[k] == s[k]
  {
  }

  predicate BlankText(s: string) {
    forall k | 0 <= k < |s| :: IsBlank(s[k])
  }

  lemma SpaceIsBlank(c: char)
    ensures IsSpace(c) <==> IsBlank(c)
  {
  }

  lemma BlankTexts(a: string, b: string)
    requires BlankText(a) && BlankText(b)
    ensures BlankText(a + b)
  {
  }

  lemma OneBlank(c: char)
    requires IsBlank(c)
    ensures BlankText([c])
  {
  }

  lemma {:induction false} StartTrimmed(s: string) returns (a: string)
    ensures s == a + TrimStart(s) && BlankText(a)
    ensures TrimStart(s) != "" ==> !IsBlank(TrimStart(s)[0])
  {
    a := "";
    if s != "" {
      SpaceIsBlank(s[0]);
      if IsSpace(s[0]) {
        var rest := StartTrimmed(s[1..]);
        OneBlank(s[0]);
        BlankTexts([s[0]], rest);
        a := [s[0]] + rest;
      }
    }
  }

  lemma {:induction false} EndTrimmed(s: string) returns (b: string)
    ensures s == TrimEnd(s) + b && BlankText(b)
    ensures TrimEnd(s) != "" ==> !IsBlank(TrimEnd(s)[|TrimEnd(s)| - 1])
  {
    b := "";
    if s != "" {
      var last := s[|s| - 1];
      SpaceIsBlank(last);
      if IsSpace(last) {
        var rest := EndTrimmed(s[..|s| - 1]);
        OneBlank(last);
        BlankTexts(rest, [last]);
        b := rest + [last];
      }
    }
  }

  /** Trimming takes the blanks off both ends and nothing else. */
  lemma TrimmedExactly(s: string) returns (a: string, b: string)
    ensures s == a + Trim(s) + b && BlankText(a) && BlankText(b)
    ensures Trim(s) != "" ==> !IsBlank(Trim(s)[0]) && !IsBlank(Trim(s)[|Trim(s)| - 1])
  {
    a := StartTrimmed(s);
    b := EndTrimmed(TrimStart(s));
  }

  // ---- What opens a span -------------------------------------------------------------

  /** `$`, letters and digits, `$`: from `i` to just before `end`. */
  predicate IsTag(sql: string, i: nat, end: nat) {
    && i + 1 < end <= |sql|
    && sql[i] == '$' && sql[end - 1] == '$'
    && forall k | i < k < end - 1 :: IsLetterOrDigit(sql[k])
  }

  predicate OpensTag(sql: string, i: nat) {
    exists end | i + 1 < end <= |sql| :: IsTag(sql, i, end)
  }

  predicate OpensLine(d: Dialect, sql: string, i: nat) {
    && i + 1 < |sql| && sql[i] == '-' && sql[i + 1] == '-'
    && (d.engine == Postgres || i + 2 == |sql| || IsBlank(sql[i + 2]) || sql[i + 2] < ' ')
  }

  predicate OpensBlock(sql: string, i: nat) {
    i + 1 < |sql| && sql[i] == '/' && sql[i + 1] == '*'
  }

  predicate OpensString(d: Dialect, sql: string, i: nat) {
    i < |sql| && (sql[i] == '\'' || sql[i] == '"' || (sql[i] == '`' && d.engine == Mysql))
  }

  lemma TagOpens(sql: string, i: nat)
    requires i < |sql|
    ensures OpensTag(sql, i) <==> DollarTag(sql, i).Some?
    ensures forall end: nat :: IsTag(sql, i, end) ==> DollarTag(sql, i) == Some(sql[i..end])
  {
    forall end: nat | IsTag(sql, i, end) ensures DollarTag(sql, i) == Some(sql[i..end]) {
      assert WordEnd(sql, i + 1) == end - 1;
    }
    if DollarTag(sql, i).Some? {
      assert IsTag(sql, i, WordEnd(sql, i + 1) + 1);
    }
  }

  /** A span starts here exactly when one of its openers does. */
  lemma SpansOpen(d: Dialect, sql: string, i: nat)
    requires i < |sql|
    ensures SpanEnd(d, sql, i) > i <==>
            || OpensLine(d, sql, i)
            || OpensBlock(sql, i)
            || OpensString(d, sql, i)
            || (d.engine == Postgres && OpensTag(sql, i))
  {
    TagOpens(sql, i);
  }

  // ---- Where it ends -----------------------------------------------------------------

  lemma LineEndIsFirst(sql: string, j: nat)
    requires j <= |sql|
    ensures '\n' !in sql[j..LineEnd(sql, j)]
    decreases |sql| - j
  {
    if j < |sql| && sql[j] != '\n' {
      LineEndIsFirst(sql, j + 1);
    }
  }

  lemma {:induction false} FirstNewline(sql: string, j: nat, end: nat)
    requires j <= end <= |sql| && '\n' !in sql[j..end] && (end == |sql| || sql[end] == '\n')
    ensures LineEnd(sql, j) == end
    decreases end - j
  {
    if j < end {
      assert sql[j] == sql[j..end][0];
      assert sql[j + 1..end] == sql[j..end][1..];
      FirstNewline(sql, j + 1, end);
    }
  }

  /** A line comment runs to the first newline, which is left, or to the end. */
  lemma LineCommentEnds(d: Dialect, sql: string, i: nat, end: nat)
    requires OpensLine(d, sql, i) && i + 2 <= end <= |sql|
    ensures SpanEnd(d, sql, i) == end <==> '\n' !in sql[i + 2..end] && (end == |sql| || sql[end] == '\n')
  {
    LineEndIsFirst(sql, i + 2);
    if '\n' !in sql[i + 2..end] && (end == |sql| || sql[end] == '\n') {
      FirstNewline(sql, i + 2, end);
    }
  }

  predicate Terminates(sql: string, k: nat) {
    k + 1 < |sql| && sql[k] == '*' && sql[k + 1] == '/'
  }

  lemma BlockStopIsFirst(sql: string, j: nat)
    requires j <= |sql|
    ensures BlockStop(sql, j) == |sql| || Terminates(sql, BlockStop(sql, j))
    ensures forall k :: j <= k < BlockStop(sql, j) ==> !Terminates(sql, k)
    decreases |sql| - j
  {
    if j < |sql| && !(sql[j] == '*' && At(sql, j + 1, '/')) {
      BlockStopIsFirst(sql, j + 1);
    }
  }

  /** A block comment runs to just past the first terminator after its opener, or to the end. */
  lemma BlockCommentEnds(d: Dialect, sql: string, i: nat, k: nat)
    requires OpensBlock(sql, i) && i + 2 <= k <= |sql|
    requires forall j :: i + 2 <= j < k ==> !Terminates(sql, j)
    ensures Terminates(sql, k) ==> SpanEnd(d, sql, i) == k + 2
    ensures k == |sql| ==> SpanEnd(d, sql, i) == |sql|
  {
    BlockStopIsFirst(sql, i + 2);
  }

  /** A dollar-quote runs to just past the first repetition of its tag, or to the end. */
  lemma DollarQuoteEnds(d: Dialect, sql: string, i: nat, j: nat, k: nat)
    requires d.engine == Postgres && IsTag(sql, i, j) && j <= k
    requires forall n :: j <= n < k ==> !OccursAt(sql, sql[i..j], n)
    ensures OccursAt(sql, sql[i..j], k) ==> SpanEnd(d, sql, i) == k + (j - i)
    ensures k >= |sql| ==> SpanEnd(d, sql, i) == |sql|
  {
    TagOpens(sql, i);
  }

  /**
   A backslash escapes in the string that opens at `i`. In single quotes: on MySQL unless
   the session turns it off; on Postgres when the session asks for it, or after an `e` that
   no identifier character precedes. In double quotes: on MySQL where they are strings.
   */
  predicate BackslashEscapes(d: Dialect, sql: string, i: nat)
    requires i < |sql|
  {
    if sql[i] == '\'' then
      || (d.engine == Mysql && !d.modes.noBackslashEscapes)
      || (d.engine == Postgres && !d.modes.standardConformingStrings)
      || (d.engine == Postgres && i > 0 && (sql[i - 1] == 'e' || sql[i - 1] == 'E')
          && (i == 1 || !(IsLetterOrDigit(sql[i - 2]) || sql[i - 2] == '$')))
    else sql[i] == '"' && d.engine == Mysql && !d.modes.ansiQuotes && !d.modes.noBackslashEscapes
  }

  /** What stands between a string's delimiters: characters, doubled delimiters, escapes. */
  predicate Body(s: string, delim: char, escapes: bool)
    decreases |s|
  {
    || s == ""
    || (s[0] != delim && !(escapes && s[0] == '\\') && Body(s[1..], delim, escapes))
    || (|s| > 1 && s[0] == delim && s[1] == delim && !(escapes && delim == '\\') && Body(s[2..], delim, escapes))
    || (|s| > 1 && escapes && s[0] == '\\' && Body(s[2..], delim, escapes))
  }

  /** The body from `k` is closed by the delimiter just before `end`, and that one is not doubled. */
  predicate ClosesAt(sql: string, k: nat, end: nat, delim: char, escapes: bool) {
    && k < end <= |sql| && sql[end - 1] == delim && !At(sql, end, delim)
    && Body(sql[k..end - 1], delim, escapes)
  }

  lemma BodyTail(sql: string, k: nat, m: nat, end: nat)
    requires k <= m <= end <= |sql|
    ensures sql[k..end][m - k..] == sql[m..end]
  {
  }

  lemma {:induction false} ClosedIsEnd(sql: string, k: nat, end: nat, delim: char, escapes: bool)
    requires ClosesAt(sql, k, end, delim, escapes) && delim != '\\'
    ensures DelimitedEnd(sql, k, delim, escapes) == end
    decreases end - k
  {
    if k + 1 < end {
      var s := sql[k..end - 1];
      assert s[0] == sql[k];
      if sql[k] != delim && !(escapes && sql[k] == '\\') {
        BodyTail(sql, k, k + 1, end - 1);
        ClosedIsEnd(sql, k + 1, end, delim, escapes);
      } else {
        assert s[1] == sql[k + 1];
        BodyTail(sql, k, k + 2, end - 1);
        ClosedIsEnd(sql, k + 2, end, delim, escapes);
      }
    }
  }

  lemma {:induction false} EndIsClosed(sql: string, k: nat, delim: char, escapes: bool)
    requires k <= |sql| && delim != '\\'
    ensures var end := DelimitedEnd(sql, k, delim, escapes);
            ClosesAt(sql, k, end, delim, escapes) || end == |sql|
    decreases |sql| - k
  {
    if k < |sql| {
      var end := DelimitedEnd(sql, k, delim, escapes);
      if (escapes && sql[k] == '\\') || (sql[k] == delim && At(sql, k + 1, delim)) {
        if k + 2 <= |sql| {
          EndIsClosed(sql, k + 2, delim, escapes);
          if k + 2 < end {
            BodyTail(sql, k, k + 2, end - 1);
          }
        }
      } else if sql[k] != delim {
        EndIsClosed(sql, k + 1, delim, escapes);
        if k + 1 < end {
          BodyTail(sql, k, k + 1, end - 1);
        }
      }
    }
  }

  predicate NeverCloses(sql: string, from: nat, delim: char, escapes: bool) {
    forall k | from < k <= |sql| :: !ClosesAt(sql, from, k, delim, escapes)
  }

  /** A string ends just past the delimiter that closes it, and at the end of the text if none does. */
  lemma StringEnds(d: Dialect, sql: string, i: nat, end: nat)
    requires OpensString(d, sql, i)
    ensures var escapes := BackslashEscapes(d, sql, i);
            SpanEnd(d, sql, i) == end <==>
            || ClosesAt(sql, i + 1, end, sql[i], escapes)
            || (end == |sql| && NeverCloses(sql, i + 1, sql[i], escapes))
  {
    var delim, from, escapes := sql[i], i + 1, BackslashEscapes(d, sql, i);
    assert SpanEnd(d, sql, i) == DelimitedEnd(sql, from, delim, escapes);
    EndIsClosed(sql, from, delim, escapes);
    forall k: nat | ClosesAt(sql, from, k, delim, escapes) ensures SpanEnd(d, sql, i) == k {
      ClosedIsEnd(sql, from, k, delim, escapes);
    }
  }

  // ---- A backslash before the delimiter ----------------------------------------------

  predicate PlainBody(sql: string, from: nat, to: nat) {
    forall k | from <= k < to && k < |sql| :: sql[k] != '\'' && sql[k] != '"' && sql[k] != '`' && sql[k] != '\\'
  }

  lemma {:induction false} PlainBodyStaysOpen(d: Dialect, sql: string, i: nat, j: nat, delim: char, escapes: bool)
    requires i <= j <= |sql| && PlainBody(sql, i, j) && IsQuote(delim)
    requires After(d, sql, i).mode == Quoted(delim, escapes)
    ensures After(d, sql, j).mode == Quoted(delim, escapes)
    ensures NoCut(d, sql, i, j)
    decreases j
  {
    if i < j {
      PlainBodyStaysOpen(d, sql, i, j - 1, delim, escapes);
      assert After(d, sql, j) == Step(d, After(d, sql, j - 1), sql[j - 1]);
    }
  }

  /** A string opened outside every span, and then a backslash and its delimiter. */
  predicate BackslashedAt(d: Dialect, sql: string, i: nat, j: nat) {
    && i < j && j + 1 < |sql| && AtHead(d, sql, i) && OpensString(d, sql, i)
    && PlainBody(sql, i + 1, j) && sql[j] == '\\' && sql[j + 1] == sql[i]
  }

  lemma OpenedAs(d: Dialect, sql: string, i: nat)
    requires AtHead(d, sql, i) && OpensString(d, sql, i)
    ensures After(d, sql, i + 1).mode == Quoted(sql[i], BackslashEscapes(d, sql, i)) && !Cut(d, sql, i)
  {
    QuoteOpens(d, sql, i);
  }

  lemma BackslashRead(d: Dialect, sql: string, j: nat, delim: char, escapes: bool)
    requires j + 1 < |sql| && sql[j] == '\\' && sql[j + 1] == delim && IsQuote(delim)
    requires After(d, sql, j).mode == Quoted(delim, escapes)
    ensures After(d, sql, j + 2).mode == if escapes then Quoted(delim, true) else Closing(delim, false)
    ensures !Cut(d, sql, j) && !Cut(d, sql, j + 1)
  {
    assert After(d, sql, j + 1) == Step(d, After(d, sql, j), '\\');
    assert After(d, sql, j + 2) == Step(d, After(d, sql, j + 1), delim);
  }

  /** After them the string is still open exactly when backslashes escape in it. */
  lemma BackslashDecides(d: Dialect, sql: string, i: nat, j: nat)
    requires BackslashedAt(d, sql, i, j)
    ensures Outside(After(d, sql, j + 2).mode) <==> !BackslashEscapes(d, sql, i)
    ensures After(d, sql, j + 2).mode ==
            if BackslashEscapes(d, sql, i) then Quoted(sql[i], true) else Closing(sql[i], false)
    ensures NoCut(d, sql, i, j + 2)
  {
    var escapes := BackslashEscapes(d, sql, i);
    OpenedAs(d, sql, i);
    PlainBodyStaysOpen(d, sql, i + 1, j, sql[i], escapes);
    BackslashRead(d, sql, j, sql[i], escapes);
  }

  /** What follows the string in the counting theorem. */
  const AFTERWARDS := " ; x"

  lemma Afterwards(d: Dialect, sql: string, m: nat)
    requires m + 4 == |sql| && sql[m..] == AFTERWARDS
    ensures sql[m] == ' ' && sql[m + 1] == ';' && sql[m + 2] == ' ' && sql[m + 3] == 'x'
  {
    assert forall k :: m <= k < |sql| ==> sql[k] == sql[m..][k - m];
  }

  lemma ClosedGoesOn(d: Dialect, sql: string, m: nat, delim: char)
    requires m + 4 == |sql| && sql[m..] == AFTERWARDS && IsQuote(delim)
    requires After(d, sql, m).mode == Closing(delim, false)
    ensures Cut(d, sql, m + 1) && !Cut(d, sql, m) && NoCut(d, sql, m + 2, |sql|)
  {
    Afterwards(d, sql, m);
    assert After(d, sql, m + 1).mode == Plain;
    CutRestarts(d, sql, m + 1);
  }

  lemma OpenGoesOn(d: Dialect, sql: string, m: nat, delim: char)
    requires m + 4 == |sql| && sql[m..] == AFTERWARDS && IsQuote(delim)
    requires After(d, sql, m).mode == Quoted(delim, true)
    ensures NoCut(d, sql, m, |sql|)
  {
    Afterwards(d, sql, m);
    PlainBodyStaysOpen(d, sql, m, |sql|, delim, true);
  }

  lemma NoCutJoins(d: Dialect, sql: string, a: nat, b: nat, c: nat)
    requires NoCut(d, sql, a, b) && NoCut(d, sql, b, c)
    ensures NoCut(d, sql, a, c)
  {
  }

  lemma TwoPieces(d: Dialect, sql: string, k: nat)
    requires Cut(d, sql, k) && NoCut(d, sql, 0, k) && NoCut(d, sql, k + 1, |sql|)
    ensures Segments(d, sql, 0, 0) == [sql[..k], sql[k + 1..]]
  {
    ScannerRefinesAutomaton(d, sql);
    PiecesSkip(d, sql, 0, 0, k);
    UncutIsOnePieceFrom(d, sql, k + 1);
    assert sql[0..k] == sql[..k];
  }

  lemma UncutIsOnePieceFrom(d: Dialect, sql: string, start: nat)
    requires start <= |sql| && NoCut(d, sql, start, |sql|)
    ensures Pieces(d, sql, start, start) == [sql[start..]]
  {
    PiecesSkip(d, sql, start, start, |sql|);
  }

  /**
   The text that goes on with a semicolon and a word after the delimiter has two segments
   when the delimiter closed the string, and one when it was escaped.
   */
  lemma BackslashCounts(d: Dialect, sql: string, i: nat, j: nat)
    requires BackslashedAt(d, sql, i, j) && NoCut(d, sql, 0, i) && sql[j + 2..] == AFTERWARDS
    ensures Segments(d, sql, 0, 0) ==
            if BackslashEscapes(d, sql, i) then [sql] else [sql[..j + 3], sql[j + 4..]]
  {
    BackslashDecides(d, sql, i, j);
    NoCutJoins(d, sql, 0, i, j + 2);
    if BackslashEscapes(d, sql, i) {
      OpenGoesOn(d, sql, j + 2, sql[i]);
      NoCutJoins(d, sql, 0, j + 2, |sql|);
      UncutIsOneStatement(d, sql);
    } else {
      ClosedGoesOn(d, sql, j + 2, sql[i]);
      TwoPieces(d, sql, j + 3);
    }
  }

  lemma KeptTwo(a: string, b: string)
    requires HasContent(a) && HasContent(b)
    ensures Kept([a, b]) == [a, b]
  {
    KeptOne(a);
    KeptOne(b);
    KeptSplits([a], [b]);
    assert [a] + [b] == [a, b];
  }

  lemma StartsAWord(s: string)
    requires s != "" && (IsLetter(s[0]) || s[0] == '\'' || s[0] == '"' || s[0] == '`')
    ensures HasContent(s)
  {
  }

  lemma SpaceThenX(s: string)
    requires s == " x"
    ensures HasContent(s)
  {
    assert KeywordFrom(s, 1).Some?;
  }

  /** So does its number of statements, when the text begins with a word or with the string. */
  lemma BackslashCountsStatements(d: Dialect, sql: string, i: nat, j: nat)
    requires BackslashedAt(d, sql, i, j) && NoCut(d, sql, 0, i) && sql[j + 2..] == AFTERWARDS
    requires i == 0 || IsLetter(sql[0])
    ensures |Statements(d, sql)| == if BackslashEscapes(d, sql, i) then 1 else 2
  {
    BackslashCounts(d, sql, i, j);
    StartsAWord(sql);
    if BackslashEscapes(d, sql, i) {
      assert Kept([sql][1..]) == [];
    } else {
      StartsAWord(sql[..j + 3]);
      assert sql[j + 4..] == sql[j + 2..][2..] == " x";
      SpaceThenX(sql[j + 4..]);
      KeptTwo(sql[..j + 3], sql[j + 4..]);
    }
  }

  // ---- Blanks, comments and the leading word -----------------------------------------

  /** One blank, one line comment up to its newline, or one block comment: from `i` to just before `end`. */
  predicate IsFiller(seg: string, i: nat, end: nat) {
    && i < end <= |seg|
    && (|| (end == i + 1 && IsBlank(seg[i]))
        || (i + 2 <= end < |seg| && seg[i] == '-' && seg[i + 1] == '-' && seg[end] == '\n' && '\n' !in seg[i + 2..end])
        || (&& i + 4 <= end && seg[i] == '/' && seg[i + 1] == '*' && Terminates(seg, end - 2)
            && forall k | i + 2 <= k < end - 2 :: !Terminates(seg, k)))
  }

  /** Nothing but fillers from `i` to just before the last of `ends`. */
  predicate Fillers(seg: string, i: nat, ends: seq<nat>)
    decreases |ends|
  {
    ends == [] || (IsFiller(seg, i, ends[0]) && Fillers(seg, ends[0], ends[1..]))
  }

  function LastOf(i: nat, ends: seq<nat>): nat {
    if ends == [] then i else ends[|ends| - 1]
  }

  lemma FillerSkipped(seg: string, i: nat, end: nat)
    requires IsFiller(seg, i, end)
    ensures KeywordFrom(seg, i) == KeywordFrom(seg, end)
  {
    if end == i + 1 && IsBlank(seg[i]) {
    } else if seg[i] == '-' {
      FirstNewline(seg, i + 2, end);
    } else {
      BlockStopIsFirst(seg, i + 2);
    }
  }

  lemma {:induction false} FillersSkipped(seg: string, i: nat, ends: seq<nat>)
    requires Fillers(seg, i, ends)
    ensures KeywordFrom(seg, i) == KeywordFrom(seg, LastOf(i, ends))
    decreases |ends|
  {
    if ends != [] {
      FillerSkipped(seg, i, ends[0]);
      FillersSkipped(seg, ends[0], ends[1..]);
    }
  }

  /** An unclosed comment at `i`: a line without a newline, or a block without a terminator. */
  predicate Unclosed(seg: string, i: nat) {
    && i + 1 < |seg|
    && (|| (seg[i] == '-' && seg[i + 1] == '-' && '\n' !in seg[i + 2..])
        || (seg[i] == '/' && seg[i + 1] == '*' && forall k | i + 2 <= k < |seg| :: !Terminates(seg, k)))
  }

  lemma UnclosedIsBlank(seg: string, i: nat)
    requires i == |seg| || Unclosed(seg, i)
    ensures KeywordFrom(seg, i).None?
  {
    if i < |seg| && seg[i] == '-' {
      assert seg[i + 2..|seg|] == seg[i + 2..];
      FirstNewline(seg, i + 2, |seg|);
    } else if i < |seg| {
      BlockStopIsFirst(seg, i + 2);
    }
  }

  /** Neither a blank nor the opener of a comment stands at `i`. */
  predicate IsContent(seg: string, i: nat) {
    && i < |seg| && !IsBlank(seg[i])
    && !(i + 1 < |seg| && seg[i] == '-' && seg[i + 1] == '-')
    && !(i + 1 < |seg| && seg[i] == '/' && seg[i + 1] == '*')
  }

  lemma ContentIsFound(seg: string, i: nat)
    requires IsContent(seg, i)
    ensures KeywordFrom(seg, i) == if IsLetter(seg[i]) then Some(Upper(seg[i..WordEnd(seg, i)])) else Some("")
  {
  }

  /** `w` stands at `i` and no letter or digit follows it. */
  predicate WordAtEnds(seg: string, i: nat, end: nat) {
    && i < end <= |seg| && IsLetter(seg[i])
    && (forall k | i < k < end :: IsLetterOrDigit(seg[k]))
    && (end < |seg| ==> !IsLetterOrDigit(seg[end]))
  }

  /** Behind the fillers, the keyword is the whole word there, or empty at another character. */
  lemma LeadingWord(seg: string, ends: seq<nat>, i: nat)
    requires Fillers(seg, 0, ends) && i == LastOf(0, ends) && IsContent(seg, i)
    ensures KeywordFrom(seg, 0).Some? && (KeywordFrom(seg, 0) == Some("") <==> !IsLetter(seg[i]))
    ensures forall end: nat :: WordAtEnds(seg, i, end) ==> KeywordFrom(seg, 0) == Some(Upper(seg[i..end]))
  {
    FillersSkipped(seg, 0, ends);
    ContentIsFound(seg, i);
    forall end: nat | WordAtEnds(seg, i, end) ensures KeywordFrom(seg, i) == Some(Upper(seg[i..end])) {
      assert WordEnd(seg, i) == end;
    }
  }

  /** Every segment has fillers in front, maybe none, and then its end, an unclosed comment or content. */
  lemma {:induction false} EveryHead(seg: string, i: nat) returns (ends: seq<nat>, at: nat)
    requires i <= |seg|
    ensures Fillers(seg, i, ends) && at == LastOf(i, ends) && at <= |seg|
    ensures at == |seg| || Unclosed(seg, at) || IsContent(seg, at)
    decreases |seg| - i
  {
    var end := FillerEnd(seg, i);
    if end == i {
      ends, at := [], i;
    } else {
      var rest;
      rest, at := EveryHead(seg, end);
      ends := [end] + rest;
      assert ends[1..] == rest;
    }
  }

  lemma FillerEnd(seg: string, i: nat) returns (end: nat)
    requires i <= |seg|
    ensures end == i || IsFiller(seg, i, end)
    ensures end == i ==> i == |seg| || Unclosed(seg, i) || IsContent(seg, i)
  {
    end := i;
    if i < |seg| && IsBlank(seg[i]) {
      end := i + 1;
    } else if i + 1 < |seg| {
      if seg[i] == '-' && seg[i + 1] == '-' {
        LineEndIsFirst(seg, i + 2);
        var e := LineEnd(seg, i + 2);
        if e < |seg| {
          end := e;
        } else {
          assert seg[i + 2..] == seg[i + 2..e];
        }
      } else if OpensBlock(seg, i) {
        BlockStopIsFirst(seg, i + 2);
        var e := BlockStop(seg, i + 2);
        if e < |seg| {
          end := e + 2;
        }
      }
    }
  }

  /** Blanks and comments only; the last comment may be unclosed. */
  ghost predicate OnlyFiller(seg: string) {
    exists ends :: Fillers(seg, 0, ends) && (LastOf(0, ends) == |seg| || Unclosed(seg, LastOf(0, ends)))
  }

  /** A segment is dropped exactly when it holds nothing but blanks and comments. */
  lemma DroppedExactly(seg: string)
    ensures HasContent(seg) <==> !OnlyFiller(seg)
  {
    forall ends | Fillers(seg, 0, ends) && (LastOf(0, ends) == |seg| || Unclosed(seg, LastOf(0, ends)))
      ensures !HasContent(seg)
    {
      FillersSkipped(seg, 0, ends);
      UnclosedIsBlank(seg, LastOf(0, ends));
    }
    var ends, at := EveryHead(seg, 0);
    if IsContent(seg, at) {
      LeadingWord(seg, ends, at);
    }
  }

  // ---- Words -------------------------------------------------------------------------

  /** Outside spans every whole word is collected, upper-cased, and other characters are passed over. */
  lemma WordsAreRead(d: Dialect, sql: string, i: nat, end: nat)
    requires i < end <= |sql| && SpanEnd(d, sql, i) == i
    ensures WordAtEnds(sql, i, end) ==> WordsFrom(d, sql, i) == [Upper(sql[i..end])] + WordsFrom(d, sql, end)
    ensures !IsLetter(sql[i]) ==> WordsFrom(d, sql, i) == WordsFrom(d, sql, i + 1)
  {
    if WordAtEnds(sql, i, end) {
      assert WordEnd(sql, i) == end;
    }
  }

  // ---- Which segments are kept -------------------------------------------------------

  lemma KeptOne(seg: string)
    ensures Kept([seg]) == if HasContent(seg) then [seg] else []
  {
    assert [seg][1..] == [] && Kept([]) == [];
  }

  /** Filtering keeps the segments with content, each of them, in their order. */
  lemma {:induction false} KeptSplits(a: seq<string>, b: seq<string>)
    ensures Kept(a + b) == Kept(a) + Kept(b)
  {
    if a == [] {
      assert a + b == b;
    } else {
      KeptSplits(a[1..], b);
      KeptFirst(a);
      KeptFirstOfBoth(a, b);
      Chained(Kept(a + b), if HasContent(a[0]) then [a[0]] else [], Kept(a[1..] + b), Kept(a[1..]), Kept(b));
    }
  }

  lemma KeptFirstOfBoth(a: seq<string>, b: seq<string>)
    requires a != []
    ensures Kept(a + b) == (if HasContent(a[0]) then [a[0]] else []) + Kept(a[1..] + b)
  {
    KeptFirst(a + b);
    assert (a + b)[1..] == a[1..] + b;
  }

  lemma KeptFirst(a: seq<string>)
    requires a != []
    ensures Kept(a) == (if HasContent(a[0]) then [a[0]] else []) + Kept(a[1..])
  {
  }
}
