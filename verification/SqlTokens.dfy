/**
 A text as the scanner takes it apart: ordinary characters one by one, and every comment,
 string, quoted identifier and dollar-quote as one token. Statement count and top-level
 words are functions of the tokens, which is how appended and composed text is reasoned
 about.
 */
module SqlTokens {
  import opened Text
  import opened SqlScanner
  import opened SqlAutomaton

  datatype Token = Char(c: char) | Span(text: string)

  function Tokens(d: Dialect, sql: string, i: nat): seq<Token>
    requires i <= |sql|
    decreases |sql| - i
  {
    if i == |sql| then []
    else if SpanEnd(d, sql, i) > i then
      [Span(sql[i..SpanEnd(d, sql, i)])] + Tokens(d, sql, SpanEnd(d, sql, i))
    else [Char(sql[i])] + Tokens(d, sql, i + 1)
  }

  /** The text the tokens were read from. */
  function Flatten(toks: seq<Token>): string {
    if toks == [] then ""
    else (if toks[0].Char? then [toks[0].c] else toks[0].text) + Flatten(toks[1..])
  }

  /** Taking a text apart loses nothing. */
  lemma {:induction false} TokensAreLossless(d: Dialect, sql: string, i: nat)
    requires i <= |sql|
    ensures Flatten(Tokens(d, sql, i)) == sql[i..]
    decreases |sql| - i
  {
    if i < |sql| {
      var end := SpanEnd(d, sql, i);
      var next := if end > i then end else i + 1;
      TokensAreLossless(d, sql, next);
      FlattenAfter(sql, i, next, if end > i then Span(sql[i..end]) else Char(sql[i]), Tokens(d, sql, next));
    }
  }

  lemma FlattenAfter(sql: string, i: nat, next: nat, t: Token, rest: seq<Token>)
    requires i < next <= |sql| && Flatten(rest) == sql[next..]
    requires sql[i..next] == if t.Char? then [t.c] else t.text
    ensures Flatten([t] + rest) == sql[i..]
  {
    assert ([t] + rest)[1..] == rest;
    assert sql[i..] == sql[i..next] + sql[next..];
  }

  /** The characters of `s`, each a token of its own, and then `rest`. */
  function CharsThen(s: string, rest: seq<Token>): seq<Token> {
    if s == "" then rest else [Char(s[0])] + CharsThen(s[1..], rest)
  }

  // ---- Statement count ---------------------------------------------------------------

  function Semicolons(toks: seq<Token>): nat {
    if toks == [] then 0 else (if toks[0] == Char(';') then 1 else 0) + Semicolons(toks[1..])
  }

  /** There is one segment more than there are semicolon characters among the tokens. */
  lemma {:induction false} SegmentCount(d: Dialect, sql: string, start: nat, i: nat)
    requires start <= i <= |sql|
    ensures |Segments(d, sql, start, i)| == 1 + Semicolons(Tokens(d, sql, i))
    decreases |sql| - i
  {
    if i < |sql| {
      var end := SpanEnd(d, sql, i);
      if end > i {
        SegmentCount(d, sql, start, end);
      } else {
        SegmentCount(d, sql, if sql[i] == ';' then i + 1 else start, i + 1);
      }
    }
  }

  // ---- Plain text --------------------------------------------------------------------

  /** Opens no span, whatever surrounds it. */
  predicate IsInert(c: char) {
    c != '-' && c != '/' && c != '$' && c != '`' && c != '"' && c != '\''
  }

  lemma InertIsOrdinary(d: Dialect, sql: string, i: nat)
    requires i < |sql| && IsInert(sql[i])
    ensures Tokens(d, sql, i) == [Char(sql[i])] + Tokens(d, sql, i + 1)
  {
  }

  predicate Reads(sql: string, i: nat, text: string) {
    i + |text| <= |sql| && sql[i..i + |text|] == text
  }

  predicate Inert(text: string) {
    forall k | 0 <= k < |text| :: IsInert(text[k])
  }

  /** The tokens of a text that goes on with inert characters has them as they are. */
  lemma {:induction false} InertText(d: Dialect, sql: string, i: nat, text: string, end: nat)
    requires Reads(sql, i, text) && Inert(text) && end == i + |text|
    ensures Tokens(d, sql, i) == CharsThen(text, Tokens(d, sql, end))
    decreases |text|
  {
    if text != "" {
      assert sql[i] == sql[i..end][0];
      InertIsOrdinary(d, sql, i);
      assert sql[i + 1..end] == sql[i..end][1..] == text[1..];
      InertText(d, sql, i + 1, text[1..], end);
    }
  }

  // ---- Words -------------------------------------------------------------------------

  predicate IsWordToken(t: Token) {
    t.Char? && IsWordChar(t.c)
  }

  function RunLength(toks: seq<Token>): (n: nat)
    ensures n <= |toks|
    ensures forall k :: 0 <= k < n ==> IsWordToken(toks[k])
  {
    if toks != [] && IsWordToken(toks[0]) then 1 + RunLength(toks[1..]) else 0
  }

  function Spelling(toks: seq<Token>): (s: string)
    requires forall t :: t in toks ==> t.Char?
    ensures |s| == |toks|
  {
    if toks == [] then "" else [toks[0].c] + Spelling(toks[1..])
  }

  /** Maximal runs of word characters that begin with a letter or underscore. */
  function Words(toks: seq<Token>): seq<string> {
    if toks == [] then []
    else if toks[0].Char? && IsWordStart(toks[0].c) then
      [Upper(Spelling(toks[..RunLength(toks)]))] + Words(toks[RunLength(toks)..])
    else Words(toks[1..])
  }

  lemma {:induction false} CharsSpell(w: string, rest: seq<Token>)
    ensures var toks := CharsThen(w, rest);
            && |w| <= |toks| && toks[|w|..] == rest
            && (forall t :: t in toks[..|w|] ==> t.Char?) && Spelling(toks[..|w|]) == w
  {
    var toks := CharsThen(w, rest);
    if w == "" {
      assert toks[..0] == [] && toks[0..] == rest;
    } else {
      CharsSpell(w[1..], rest);
      var tail := CharsThen(w[1..], rest);
      assert toks[..|w|] == [Char(w[0])] + tail[..|w| - 1];
      assert toks[..|w|][1..] == tail[..|w| - 1];
      assert toks[|w|..] == tail[|w| - 1..];
    }
  }

  lemma {:induction false} CharsRun(w: string, rest: seq<Token>)
    requires forall k | 0 <= k < |w| :: IsWordChar(w[k])
    requires rest != [] ==> !IsWordToken(rest[0])
    ensures RunLength(CharsThen(w, rest)) == |w|
  {
    if w != "" {
      CharsRun(w[1..], rest);
      assert CharsThen(w, rest)[1..] == CharsThen(w[1..], rest);
    }
  }

  lemma RunOfChars(w: string, rest: seq<Token>)
    requires forall k | 0 <= k < |w| :: IsWordChar(w[k])
    requires rest != [] ==> !IsWordToken(rest[0])
    ensures var toks := CharsThen(w, rest);
            RunLength(toks) == |w| && Spelling(toks[..|w|]) == w && toks[|w|..] == rest
  {
    CharsRun(w, rest);
    CharsSpell(w, rest);
  }

  lemma WordRun(d: Dialect, sql: string, i: nat)
    requires i < |sql| && IsWordStart(sql[i])
    ensures Words(Tokens(d, sql, i)) ==
            [Upper(sql[i..WordEnd(sql, i)])] + Words(Tokens(d, sql, WordEnd(sql, i)))
  {
    var end := WordEnd(sql, i);
    assert end > i;
    var w, rest := sql[i..end], Tokens(d, sql, end);
    InertText(d, sql, i, w, end);
    RunOfChars(w, rest);
    assert Tokens(d, sql, i) == CharsThen(w, rest);
    assert CharsThen(w, rest)[0] == Char(sql[i]);
  }

  /** The collected words are those of the tokens. */
  lemma {:induction false} WordsOfTokens(d: Dialect, sql: string, i: nat)
    requires i <= |sql|
    ensures WordsFrom(d, sql, i) == Words(Tokens(d, sql, i))
    decreases |sql| - i
  {
    if i < |sql| {
      var end := SpanEnd(d, sql, i);
      if end > i {
        WordsOfTokens(d, sql, end);
      } else if IsWordStart(sql[i]) {
        assert WordEnd(sql, i) > i;
        WordRun(d, sql, i);
        WordsOfTokens(d, sql, WordEnd(sql, i));
      } else {
        WordsOfTokens(d, sql, i + 1);
      }
    }
  }

  lemma {:induction false} RunStopsAt(a: seq<Token>, t: Token, b: seq<Token>)
    requires !IsWordToken(t)
    ensures RunLength(a + [t] + b) == RunLength(a)
  {
    if a == [] {
      assert (a + [t] + b)[0] == t;
    } else {
      assert (a + [t] + b)[1..] == a[1..] + [t] + b;
      RunStopsAt(a[1..], t, b);
    }
  }

  lemma RunSplits(a: seq<Token>, t: Token, b: seq<Token>)
    requires !IsWordToken(t) && a != [] && IsWordToken(a[0])
    ensures var all, n := a + [t] + b, RunLength(a);
            n > 0 && RunLength(all) == n && all[..n] == a[..n] && all[n..] == a[n..] + [t] + b
  {
    RunStopsAt(a, t, b);
    SplitInFirst(a, [t], b, RunLength(a));
  }

  lemma SplitInFirst<T>(a: seq<T>, m: seq<T>, b: seq<T>, n: nat)
    requires n <= |a|
    ensures (a + m + b)[..n] == a[..n] && (a + m + b)[n..] == a[n..] + m + b
  {
  }

  /** A token that continues no word separates the words on its two sides. */
  lemma {:induction false} WordsSeparated(a: seq<Token>, t: Token, b: seq<Token>)
    requires !IsWordToken(t)
    ensures Words(a + [t] + b) == Words(a) + Words(b)
    decreases |a|
  {
    var all := a + [t] + b;
    if a == [] {
      assert all[0] == t && all[1..] == b;
    } else if a[0].Char? && IsWordStart(a[0].c) {
      RunSplits(a, t, b);
      WordsSeparated(a[RunLength(a)..], t, b);
    } else {
      assert all[1..] == a[1..] + [t] + b;
      WordsSeparated(a[1..], t, b);
    }
  }

  // ---- Appending after a newline -----------------------------------------------------

  /** The scan of the whole text ends outside every span other than a line comment. */
  predicate EndsOutside(d: Dialect, sql: string) {
    var m := After(d, sql, |sql|).mode;
    Outside(m) || m.Line?
  }

  /** `full` goes on after `sql` with a newline. */
  predicate NewlineAfter(sql: string, full: string) {
    |sql| < |full| && full[..|sql|] == sql && full[|sql|] == '\n'
  }

  lemma SliceSame(sql: string, full: string, a: nat, b: nat)
    requires NewlineAfter(sql, full) && a <= b <= |sql|
    ensures full[a..b] == sql[a..b]
  {
    assert forall k | 0 <= k < |sql| :: full[k] == full[..|sql|][k];
  }

  lemma {:induction false} DelimitedSame(
    d: Dialect, sql: string, full: string, j: nat, delim: char, backslash: bool)
    requires NewlineAfter(sql, full) && EndsOutside(d, sql)
    requires j <= |sql| && IsQuote(delim) && After(d, sql, j).mode == Quoted(delim, backslash)
    ensures DelimitedEnd(full, j, delim, backslash) == DelimitedEnd(sql, j, delim, backslash)
    decreases |sql| - j
  {
    assert full[j] == sql[j];
    assert After(d, sql, j + 1) == Step(d, After(d, sql, j), sql[j]);
    if backslash && sql[j] == '\\' {
      StaysQuoted(d, sql, j, delim, backslash);
      DelimitedSame(d, sql, full, j + 2, delim, backslash);
    } else if sql[j] == delim {
      if At(sql, j + 1, delim) {
        StaysQuoted(d, sql, j, delim, backslash);
        DelimitedSame(d, sql, full, j + 2, delim, backslash);
      }
    } else {
      DelimitedSame(d, sql, full, j + 1, delim, backslash);
    }
  }

  lemma {:induction false} LineSame(sql: string, full: string, j: nat)
    requires NewlineAfter(sql, full) && j <= |sql|
    ensures LineEnd(full, j) == LineEnd(sql, j)
    decreases |sql| - j
  {
    if j < |sql| && sql[j] != '\n' {
      LineSame(sql, full, j + 1);
    }
  }

  lemma {:induction false} BlockSame(d: Dialect, sql: string, full: string, j: nat)
    requires NewlineAfter(sql, full) && EndsOutside(d, sql)
    requires j <= |sql| && After(d, sql, j).mode.Block?
    requires After(d, sql, j).mode.star ==> !At(sql, j, '/')
    ensures BlockStop(full, j) == BlockStop(sql, j) && BlockStop(sql, j) + 2 <= |sql|
    decreases |sql| - j
  {
    assert full[j] == sql[j];
    assert After(d, sql, j + 1).mode == Block(sql[j] == '*');
    if !(sql[j] == '*' && At(sql, j + 1, '/')) {
      BlockSame(d, sql, full, j + 1);
    }
  }

  lemma {:induction false} WordEndSame(sql: string, full: string, j: nat)
    requires NewlineAfter(sql, full) && j <= |sql|
    ensures WordEnd(full, j) == WordEnd(sql, j)
    decreases |sql| - j
  {
    if j < |sql| && IsWordChar(sql[j]) {
      WordEndSame(sql, full, j + 1);
    }
  }

  lemma DollarTagSame(sql: string, full: string, i: nat)
    requires NewlineAfter(sql, full) && i < |sql|
    ensures DollarTag(full, i) == DollarTag(sql, i)
  {
    if sql[i] == '$' {
      WordEndSame(sql, full, i + 1);
      var j := WordEnd(sql, i + 1);
      if At(sql, j, '$') {
        SliceSame(sql, full, i, j + 1);
      }
    }
  }

  lemma DollarSame(d: Dialect, sql: string, full: string, i: nat, tag: string)
    requires NewlineAfter(sql, full) && EndsOutside(d, sql)
    requires i < |sql| && AtHead(d, sql, i) && d.engine.Postgres? && DollarTag(sql, i) == Some(tag)
    ensures DollarEnd(full, tag, i + |tag|) == DollarEnd(sql, tag, i + |tag|)
  {
    var from := i + |tag|;
    DollarTagRead(d, sql, i, tag);
    if IndexOf(sql, tag, from).None? {
      UnseenBefore(sql, tag, from, |sql|);
      DollarUntil(d, sql, from, |sql|, tag);
    } else {
      var k := IndexOf(sql, tag, from).value;
      assert k + |tag| <= |sql|;
      forall j | from <= j <= k ensures OccursAt(full, tag, j) <==> OccursAt(sql, tag, j) {
        SliceSame(sql, full, j, j + |tag|);
      }
      FirstOccurrence(full, tag, from, k);
    }
  }

  lemma QuoteSame(d: Dialect, sql: string, full: string, i: nat)
    requires NewlineAfter(sql, full) && EndsOutside(d, sql)
    requires i < |sql| && AtHead(d, sql, i)
    requires sql[i] == '\'' || sql[i] == '"' || (d.engine.Mysql? && sql[i] == '`')
    ensures SpanEnd(d, full, i) == SpanEnd(d, sql, i)
  {
    QuoteOpens(d, sql, i);
    DelimitedSame(d, sql, full, i + 1, sql[i], QuoteBackslash(d, sql, i));
    assert IsEscapePrefix(full, i) == IsEscapePrefix(sql, i);
  }

  lemma SpanSame(d: Dialect, sql: string, full: string, i: nat)
    requires NewlineAfter(sql, full) && EndsOutside(d, sql)
    requires i < |sql| && AtHead(d, sql, i)
    ensures SpanEnd(d, full, i) == SpanEnd(d, sql, i)
  {
    var c := sql[i];
    assert full[i] == c;
    if OpensLineComment(d, sql, i) {
      LineSame(sql, full, i + 2);
    } else if c == '/' && At(sql, i + 1, '*') {
      assert After(d, sql, i + 2).mode == Block(false);
      BlockSame(d, sql, full, i + 2);
    } else if d.engine.Postgres? && c == '$' {
      DollarTagSame(sql, full, i);
      if DollarTag(sql, i).Some? {
        DollarSame(d, sql, full, i, DollarTag(sql, i).value);
      }
    } else if c == '\'' || c == '"' || (d.engine.Mysql? && c == '`') {
      QuoteSame(d, sql, full, i);
    }
  }

  lemma TokensAdd(d: Dialect, sql: string, full: string, i: nat, next: nat, rest: seq<Token>)
    requires i < |sql| && i < next && i < |full|
    requires SpanEnd(d, full, i) == SpanEnd(d, sql, i)
    requires next == if SpanEnd(d, sql, i) > i then SpanEnd(d, sql, i) else i + 1
    requires next <= |full| && full[i..next] == sql[i..next]
    requires Tokens(d, full, next) == Tokens(d, sql, next) + rest
    ensures Tokens(d, full, i) == Tokens(d, sql, i) + rest
  {
    assert full[i] == full[i..next][0] == sql[i..next][0] == sql[i];
    var tok := if SpanEnd(d, sql, i) > i then Span(sql[i..next]) else Char(sql[i]);
    Chained(Tokens(d, full, i), [tok], Tokens(d, full, next), Tokens(d, sql, next), rest);
  }

  lemma {:induction false} TokensExtend(d: Dialect, sql: string, full: string, i: nat)
    requires NewlineAfter(sql, full) && EndsOutside(d, sql)
    requires i <= |sql| && AtHead(d, sql, i)
    ensures Tokens(d, full, i) == Tokens(d, sql, i) + Tokens(d, full, |sql|)
    decreases |sql| - i
  {
    if i < |sql| {
      SpanSame(d, sql, full, i);
      var end := SpanEnd(d, sql, i);
      var next := if end > i then end else i + 1;
      if end > i {
        SpanStep(d, sql, i);
      } else {
        OrdinaryStep(d, sql, i);
      }
      SliceSame(sql, full, i, next);
      TokensExtend(d, sql, full, next);
      TokensAdd(d, sql, full, i, next, Tokens(d, full, |sql|));
    }
  }
}
