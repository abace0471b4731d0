/**
 What the session's quoting modes can change about a text, and what becomes of the count of
 statements when the modes cannot be probed and backslashes are taken literally.
 */
module SqlModes {
  import opened Text
  import opened SqlScanner
  import opened SqlAutomaton
  import opened SqlTokens

  // ---- No backslash before a quote ---------------------------------------------------

  /** No backslash stands directly before a single or double quote. */
  predicate NoBackslashQuote(sql: string) {
    forall k | 0 <= k < |sql| - 1 && sql[k] == '\\' :: sql[k + 1] != '\'' && sql[k + 1] != '"'
  }

  lemma {:induction false} BackslashIrrelevant(sql: string, i: nat, delim: char)
    requires NoBackslashQuote(sql) && (delim == '\'' || delim == '"')
    ensures DelimitedEnd(sql, i, delim, true) == DelimitedEnd(sql, i, delim, false)
    decreases |sql| - i
  {
    if i < |sql| {
      if sql[i] == '\\' {
        BackslashIrrelevant(sql, i + 2, delim);
      } else if sql[i] == delim {
        BackslashIrrelevant(sql, i + 2, delim);
      } else {
        BackslashIrrelevant(sql, i + 1, delim);
      }
    }
  }

  lemma SpanIgnoresModes(engine: Engine, m1: SessionModes, m2: SessionModes, sql: string, i: nat)
    requires NoBackslashQuote(sql) && i < |sql|
    ensures SpanEnd(Dialect(engine, m1), sql, i) == SpanEnd(Dialect(engine, m2), sql, i)
  {
    if sql[i] == '\'' || sql[i] == '"' {
      BackslashIrrelevant(sql, i + 1, sql[i]);
    }
  }

  lemma {:induction false} ScanIgnoresModes(
    engine: Engine, m1: SessionModes, m2: SessionModes, sql: string, start: nat, i: nat)
    requires NoBackslashQuote(sql) && start <= i <= |sql|
    ensures Segments(Dialect(engine, m1), sql, start, i) == Segments(Dialect(engine, m2), sql, start, i)
    ensures Tokens(Dialect(engine, m1), sql, i) == Tokens(Dialect(engine, m2), sql, i)
    decreases |sql| - i
  {
    if i < |sql| {
      SpanIgnoresModes(engine, m1, m2, sql, i);
      var end := SpanEnd(Dialect(engine, m1), sql, i);
      if end > i {
        ScanIgnoresModes(engine, m1, m2, sql, start, end);
      } else {
        ScanIgnoresModes(engine, m1, m2, sql, if sql[i] == ';' then i + 1 else start, i + 1);
      }
    }
  }

  /** Without a backslash before a quote, the session modes change nothing. */
  lemma ModesIrrelevant(engine: Engine, m1: SessionModes, m2: SessionModes, sql: string)
    requires NoBackslashQuote(sql)
    ensures Statements(Dialect(engine, m1), sql) == Statements(Dialect(engine, m2), sql)
    ensures WordsFrom(Dialect(engine, m1), sql, 0) == WordsFrom(Dialect(engine, m2), sql, 0)
  {
    ScanIgnoresModes(engine, m1, m2, sql, 0, 0);
    WordsOfTokens(Dialect(engine, m1), sql, 0);
    WordsOfTokens(Dialect(engine, m2), sql, 0);
  }

  // ---- The literal reading beside the active one -------------------------------------

  function Active(engine: Engine, m: SessionModes): Dialect {
    Dialect(engine, m)
  }

  /** The reading chosen when the modes cannot be probed. */
  function Literal(engine: Engine): Dialect {
    Dialect(engine, SAFE_FALLBACK_MODES)
  }

  /**
   At `k` the active reading takes a delimiter as escaped and the literal one does not: the
   first such place is where the two readings part.
   */
  predicate PartsAt(engine: Engine, m: SessionModes, sql: string, k: nat) {
    && k < |sql|
    && After(Active(engine, m), sql, k).mode == Escaped(sql[k])
    && !After(Literal(engine), sql, k).mode.Escaped?
  }

  /** The two readings do not part before `n`. */
  predicate EscapeFree(engine: Engine, m: SessionModes, sql: string, n: nat) {
    forall k | 0 <= k < n :: !PartsAt(engine, m, sql, k)
  }

  /** Where the readings can stand while they have not parted. */
  predicate Alike(a: Mode, f: Mode) {
    || a == f
    || (f.Quoted? && !f.backslash && (a == Quoted(f.delim, true) || a == Escaped(f.delim)))
    || (f.Closing? && !f.backslash && a == Closing(f.delim, true))
  }

  lemma PlainAlike(engine: Engine, m: SessionModes, before: Before, c: char)
    ensures Alike(StepPlain(Active(engine, m), before, c), StepPlain(Literal(engine), before, c))
  {
  }

  predicate AlikeConfigs(a: Config, f: Config) {
    Alike(a.mode, f.mode) && a.before == f.before
  }

  lemma StepAlike(engine: Engine, m: SessionModes, a: Config, f: Config, c: char)
    requires AlikeConfigs(a, f)
    requires a.mode.Quoted? || a.mode.Escaped? || a.mode.Closing? ==> IsQuote(a.mode.delim)
    requires a.mode == Escaped(c) ==> f.mode.Escaped?
    ensures AlikeConfigs(Step(Active(engine, m), a, c), Step(Literal(engine), f, c))
  {
    PlainAlike(engine, m, a.before, c);
  }

  lemma StillAlike(engine: Engine, m: SessionModes, sql: string, k: nat)
    requires k < |sql| && !PartsAt(engine, m, sql, k)
    requires AlikeConfigs(After(Active(engine, m), sql, k), After(Literal(engine), sql, k))
    ensures AlikeConfigs(After(Active(engine, m), sql, k + 1), After(Literal(engine), sql, k + 1))
  {
    DelimsAreQuotes(Active(engine, m), sql, k);
    StepAlike(engine, m, After(Active(engine, m), sql, k), After(Literal(engine), sql, k), sql[k]);
  }

  lemma {:induction false} AlikeUntil(engine: Engine, m: SessionModes, sql: string, k: nat)
    requires k <= |sql| && EscapeFree(engine, m, sql, k)
    ensures AlikeConfigs(After(Active(engine, m), sql, k), After(Literal(engine), sql, k))
  {
    if k > 0 {
      AlikeUntil(engine, m, sql, k - 1);
      StillAlike(engine, m, sql, k - 1);
    }
  }

  lemma CutsAlike(engine: Engine, m: SessionModes, sql: string, k: nat)
    requires k <= |sql| && EscapeFree(engine, m, sql, k)
    ensures Cut(Active(engine, m), sql, k) <==> Cut(Literal(engine), sql, k)
  {
    AlikeUntil(engine, m, sql, k);
  }

  // ---- They never part: same spans, same statements, same words ----------------------

  /** In one string, where only the active reading knows escapes. */
  predicate BothQuoted(engine: Engine, m: SessionModes, sql: string, j: nat, delim: char) {
    && j <= |sql|
    && After(Active(engine, m), sql, j).mode == Quoted(delim, true)
    && After(Literal(engine), sql, j).mode == Quoted(delim, false)
  }

  lemma CharacterAlike(engine: Engine, m: SessionModes, sql: string, j: nat, delim: char)
    requires j < |sql| && BothQuoted(engine, m, sql, j, delim) && sql[j] != delim && sql[j] != '\\'
    ensures BothQuoted(engine, m, sql, j + 1, delim)
  {
    var a, f := Active(engine, m), Literal(engine);
    assert After(a, sql, j + 1) == Step(a, After(a, sql, j), sql[j]);
    assert After(f, sql, j + 1) == Step(f, After(f, sql, j), sql[j]);
  }

  /** A backslash in the string is followed by some other character than the delimiter. */
  lemma BackslashAlike(engine: Engine, m: SessionModes, sql: string, j: nat, delim: char)
    requires j + 1 < |sql| && BothQuoted(engine, m, sql, j, delim) && sql[j] == '\\' && IsQuote(delim)
    requires !PartsAt(engine, m, sql, j + 1)
    ensures sql[j + 1] != delim && BothQuoted(engine, m, sql, j + 2, delim)
  {
    var a, f := Active(engine, m), Literal(engine);
    assert After(a, sql, j + 1) == Step(a, After(a, sql, j), sql[j]);
    assert After(f, sql, j + 1) == Step(f, After(f, sql, j), sql[j]);
    assert After(a, sql, j + 2) == Step(a, After(a, sql, j + 1), sql[j + 1]);
    assert After(f, sql, j + 2) == Step(f, After(f, sql, j + 1), sql[j + 1]);
  }

  lemma {:induction false} DelimitedAlike(engine: Engine, m: SessionModes, sql: string, j: nat, delim: char)
    requires j <= |sql| && IsQuote(delim) && EscapeFree(engine, m, sql, |sql|)
    requires BothQuoted(engine, m, sql, j, delim)
    ensures DelimitedEnd(sql, j, delim, true) == DelimitedEnd(sql, j, delim, false)
    decreases |sql| - j
  {
    if j + 1 < |sql| {
      if sql[j] == '\\' {
        BackslashAlike(engine, m, sql, j, delim);
        DelimitedAlike(engine, m, sql, j + 2, delim);
      } else if sql[j] == delim && sql[j + 1] == delim {
        StaysQuoted(Active(engine, m), sql, j, delim, true);
        StaysQuoted(Literal(engine), sql, j, delim, false);
        DelimitedAlike(engine, m, sql, j + 2, delim);
      } else if sql[j] != delim {
        CharacterAlike(engine, m, sql, j, delim);
        DelimitedAlike(engine, m, sql, j + 1, delim);
      }
    }
  }

  lemma QuoteAlike(engine: Engine, m: SessionModes, sql: string, i: nat)
    requires i < |sql| && EscapeFree(engine, m, sql, |sql|) && (sql[i] == '\'' || sql[i] == '"')
    requires AtHead(Active(engine, m), sql, i) && AtHead(Literal(engine), sql, i)
    ensures SpanEnd(Active(engine, m), sql, i) == SpanEnd(Literal(engine), sql, i)
  {
    var a, f := Active(engine, m), Literal(engine);
    QuoteOpens(a, sql, i);
    QuoteOpens(f, sql, i);
    if QuoteBackslash(a, sql, i) != QuoteBackslash(f, sql, i) {
      DelimitedAlike(engine, m, sql, i + 1, sql[i]);
    }
  }

  lemma SpanAlike(engine: Engine, m: SessionModes, sql: string, i: nat)
    requires i < |sql| && EscapeFree(engine, m, sql, |sql|)
    requires AtHead(Active(engine, m), sql, i) && AtHead(Literal(engine), sql, i)
    ensures SpanEnd(Active(engine, m), sql, i) == SpanEnd(Literal(engine), sql, i)
  {
    if sql[i] == '\'' || sql[i] == '"' {
      QuoteAlike(engine, m, sql, i);
    }
  }

  lemma HeadMoves(d: Dialect, sql: string, i: nat)
    requires i < |sql| && AtHead(d, sql, i)
    ensures var end := SpanEnd(d, sql, i); AtHead(d, sql, if end > i then end else i + 1)
  {
    if SpanEnd(d, sql, i) > i {
      SpanStep(d, sql, i);
    } else {
      OrdinaryStep(d, sql, i);
    }
  }

  predicate SameScan(a: Dialect, f: Dialect, sql: string, start: nat, i: nat)
    requires start <= i <= |sql|
  {
    Segments(a, sql, start, i) == Segments(f, sql, start, i) && Tokens(a, sql, i) == Tokens(f, sql, i)
  }

  lemma SameScanBefore(a: Dialect, f: Dialect, sql: string, start: nat, i: nat)
    requires start <= i < |sql| && SpanEnd(a, sql, i) == SpanEnd(f, sql, i)
    requires var end := SpanEnd(a, sql, i);
             if end > i then SameScan(a, f, sql, start, end)
             else SameScan(a, f, sql, if sql[i] == ';' then i + 1 else start, i + 1)
    ensures SameScan(a, f, sql, start, i)
  {
  }

  lemma {:induction false} ScanAlike(engine: Engine, m: SessionModes, sql: string, start: nat, i: nat)
    requires start <= i <= |sql| && EscapeFree(engine, m, sql, |sql|)
    requires AtHead(Active(engine, m), sql, i) && AtHead(Literal(engine), sql, i)
    ensures SameScan(Active(engine, m), Literal(engine), sql, start, i)
    decreases |sql| - i
  {
    if i < |sql| {
      SpanAlike(engine, m, sql, i);
      HeadMoves(Active(engine, m), sql, i);
      HeadMoves(Literal(engine), sql, i);
      var end := SpanEnd(Active(engine, m), sql, i);
      if end > i {
        ScanAlike(engine, m, sql, start, end);
      } else {
        ScanAlike(engine, m, sql, if sql[i] == ';' then i + 1 else start, i + 1);
      }
      SameScanBefore(Active(engine, m), Literal(engine), sql, start, i);
    }
  }

  /** While the readings do not part, they agree on every segment, statement and word. */
  lemma EscapeFreeIsModeFree(engine: Engine, m: SessionModes, sql: string)
    requires EscapeFree(engine, m, sql, |sql|)
    ensures Segments(Active(engine, m), sql, 0, 0) == Segments(Literal(engine), sql, 0, 0)
    ensures Statements(Active(engine, m), sql) == Statements(Literal(engine), sql)
    ensures WordsFrom(Active(engine, m), sql, 0) == WordsFrom(Literal(engine), sql, 0)
  {
    ScanAlike(engine, m, sql, 0, 0);
    WordsOfTokens(Active(engine, m), sql, 0);
    WordsOfTokens(Literal(engine), sql, 0);
  }

  // ---- They part: a continuation the literal reading swallows ------------------------

  predicate NoBackslash(s: string) {
    forall k | 0 <= k < |s| :: s[k] != '\\'
  }

  lemma AfterPrefix(d: Dialect, u: string, w: string, k: nat)
    requires k <= |u|
    ensures After(d, u + w, k) == After(d, u, k)
  {
    AfterAgrees(d, u + w, u, 0, k, k);
  }

  lemma PartsInPrefix(engine: Engine, m: SessionModes, u: string, w: string, k: nat)
    requires k < |u|
    ensures PartsAt(engine, m, u + w, k) <==> PartsAt(engine, m, u, k)
  {
    AfterPrefix(Active(engine, m), u, w, k);
    AfterPrefix(Literal(engine), u, w, k);
  }

  lemma EscapeFreePrefix(engine: Engine, m: SessionModes, u: string, w: string, n: nat)
    requires n <= |u| && EscapeFree(engine, m, u, n)
    ensures EscapeFree(engine, m, u + w, n)
  {
    forall k | 0 <= k < n ensures !PartsAt(engine, m, u + w, k) {
      PartsInPrefix(engine, m, u, w, k);
      assert !PartsAt(engine, m, u, k);
    }
  }

  lemma {:induction false} ContentFromLine(s: string, j: nat)
    requires j <= |s| && LineEnd(s, j) == |s|
    ensures LineEnd(s + ";x", j) == |s| + 2
    decreases |s| - j
  {
    if j < |s| {
      ContentFromLine(s, j + 1);
    }
  }

  lemma {:induction false} LineInside(s: string, j: nat)
    requires j <= |s| && LineEnd(s, j) < |s|
    ensures LineEnd(s + ";x", j) == LineEnd(s, j)
    decreases |s| - j
  {
    if s[j] != '\n' {
      LineInside(s, j + 1);
    }
  }

  lemma {:induction false} BlockUnclosed(s: string, j: nat)
    requires j <= |s| && BlockStop(s, j) == |s|
    ensures BlockStop(s + ";x", j) == |s| + 2
    decreases |s| - j
  {
    if j < |s| {
      BlockUnclosed(s, j + 1);
    }
  }

  lemma {:induction false} BlockInside(s: string, j: nat)
    requires j <= |s| && BlockStop(s, j) < |s|
    ensures BlockStop(s + ";x", j) == BlockStop(s, j) && BlockStop(s, j) + 2 <= |s| && At(s, BlockStop(s, j) + 1, '/')
    decreases |s| - j
  {
    if !(s[j] == '*' && At(s, j + 1, '/')) {
      BlockInside(s, j + 1);
    }
  }

  /** A text that ends in a quote and is only comments stays so with ";x" after it. */
  lemma {:induction false} BlankExtends(s: string, i: nat)
    requires i < |s| && IsQuote(s[|s| - 1]) && KeywordFrom(s, i).None?
    ensures KeywordFrom(s + ";x", i).None?
    decreases |s| - i
  {
    if IsSpace(s[i]) {
      BlankExtends(s, i + 1);
    } else if s[i] == '-' && At(s, i + 1, '-') {
      var end := LineEnd(s, i + 2);
      if end == |s| {
        ContentFromLine(s, i + 2);
      } else {
        LineInside(s, i + 2);
        BlankExtends(s, end);
      }
    } else {
      var stop := BlockStop(s, i + 2);
      if stop == |s| {
        BlockUnclosed(s, i + 2);
      } else {
        BlockInside(s, i + 2);
        BlankExtends(s, stop + 2);
      }
    }
  }

  /** The two readings cut alike up to `n`; there the active one cuts and the literal one does not. */
  predicate PartBefore(a: Dialect, f: Dialect, sql: string, n: nat) {
    && 0 < n && n + 2 == |sql| && IsQuote(sql[n - 1]) && sql[n..] == ";x"
    && (forall k | 0 <= k < n :: Cut(a, sql, k) <==> Cut(f, sql, k))
    && Cut(a, sql, n) && !Cut(f, sql, n) && !Cut(a, sql, n + 1) && !Cut(f, sql, n + 1)
  }

  lemma LastPieces(a: Dialect, f: Dialect, sql: string, start: nat, n: nat)
    requires PartBefore(a, f, sql, n) && start < n
    ensures Pieces(a, sql, start, n) == [sql[start..n], "x"]
    ensures Pieces(f, sql, start, n) == [sql[start..n] + ";x"]
  {
    assert sql[n + 1..] == sql[n..][1..] == "x";
    assert Pieces(a, sql, n + 1, n + 2) == ["x"];
    assert Pieces(a, sql, n + 1, n + 1) == ["x"];
    assert sql[start..] == sql[start..n] + sql[n..];
    assert Pieces(f, sql, start, n + 1) == Pieces(f, sql, start, n + 2) == [sql[start..]];
  }

  lemma LastKept(head: string)
    requires head != "" && IsQuote(head[|head| - 1])
    ensures |Kept([head + ";x"])| < |Kept([head, "x"])|
  {
    assert KeywordFrom("x", 0).Some?;
    assert [head, "x"][1..] == ["x"] && ["x"][1..] == [] && [head + ";x"][1..] == [];
    assert Kept(["x"]) == ["x"];
    if !HasContent(head) {
      BlankExtends(head, 0);
    }
  }

  lemma KeptAfter(piece: string, rest: seq<string>)
    ensures Kept([piece] + rest) == (if HasContent(piece) then [piece] else []) + Kept(rest)
  {
    assert ([piece] + rest)[1..] == rest;
  }

  lemma FewerAfter(piece: string, few: seq<string>, many: seq<string>)
    requires |Kept(few)| < |Kept(many)|
    ensures |Kept([piece] + few)| < |Kept([piece] + many)|
  {
    KeptAfter(piece, few);
    KeptAfter(piece, many);
  }

  lemma LastFewer(a: Dialect, f: Dialect, sql: string, start: nat, n: nat)
    requires PartBefore(a, f, sql, n) && start < n
    ensures |Kept(Pieces(f, sql, start, n))| < |Kept(Pieces(a, sql, start, n))|
  {
    LastPieces(a, f, sql, start, n);
    assert sql[start..n][|sql[start..n]| - 1] == sql[n - 1];
    LastKept(sql[start..n]);
  }

  predicate Fewer(a: Dialect, f: Dialect, sql: string, start: nat, i: nat)
    requires start <= i <= |sql|
  {
    |Kept(Pieces(f, sql, start, i))| < |Kept(Pieces(a, sql, start, i))|
  }

  lemma FewerAt(a: Dialect, f: Dialect, sql: string, start: nat, i: nat)
    requires start <= i < |sql| && (Cut(a, sql, i) <==> Cut(f, sql, i))
    requires if Cut(a, sql, i) then Fewer(a, f, sql, i + 1, i + 1) else Fewer(a, f, sql, start, i + 1)
    ensures Fewer(a, f, sql, start, i)
  {
    if Cut(a, sql, i) {
      FewerAfter(sql[start..i], Pieces(f, sql, i + 1, i + 1), Pieces(a, sql, i + 1, i + 1));
    }
  }

  lemma {:induction false} OneStatementFewer(a: Dialect, f: Dialect, sql: string, start: nat, i: nat, n: nat)
    requires PartBefore(a, f, sql, n) && start <= i <= n && start < n
    ensures Fewer(a, f, sql, start, i)
    decreases n - i
  {
    if i == n {
      LastFewer(a, f, sql, start, n);
    } else {
      OneStatementFewer(a, f, sql, if Cut(a, sql, i) then i + 1 else start, i + 1, n);
      FewerAt(a, f, sql, start, i);
    }
  }

  /** What makes the literal reading swallow a semicolon, right after the readings part. */
  function Swallowed(delim: char): string {
    [delim] + ";x"
  }

  lemma AfterSwallowed(d: Dialect, u: string, q: char, backslash: bool)
    requires IsQuote(q)
    ensures var sql := u + Swallowed(q); var n := |u| + 1;
            && (After(d, u, |u|).mode == Quoted(q, true) ==> Cut(d, sql, n) && !Cut(d, sql, n + 1))
            && (After(d, u, |u|).mode == Closing(q, false) ==> !Cut(d, sql, n) && !Cut(d, sql, n + 1))
  {
    var sql, n := u + Swallowed(q), |u| + 1;
    AfterPrefix(d, u, Swallowed(q), |u|);
    assert sql[|u|] == q && sql[n] == ';' && sql[n + 1] == 'x';
    assert After(d, sql, n) == Step(d, After(d, sql, |u|), q);
    assert After(d, sql, n + 1) == Step(d, After(d, sql, n), ';');
  }

  lemma JustParted(engine: Engine, m: SessionModes, u: string)
    requires u != "" && EscapeFree(engine, m, u, |u| - 1) && PartsAt(engine, m, u, |u| - 1)
    ensures var q := u[|u| - 1];
            && IsQuote(q)
            && After(Active(engine, m), u, |u|).mode == Quoted(q, true)
            && After(Literal(engine), u, |u|).mode == Closing(q, false)
  {
    var k := |u| - 1;
    AlikeUntil(engine, m, u, k);
    DelimsAreQuotes(Active(engine, m), u, k);
  }

  lemma SwallowedParts(engine: Engine, m: SessionModes, u: string)
    requires u != "" && EscapeFree(engine, m, u, |u| - 1) && PartsAt(engine, m, u, |u| - 1)
    ensures PartBefore(Active(engine, m), Literal(engine), u + Swallowed(u[|u| - 1]), |u| + 1)
  {
    var a, f, q := Active(engine, m), Literal(engine), u[|u| - 1];
    var w := Swallowed(q);
    var sql, n := u + w, |u| + 1;
    JustParted(engine, m, u);
    AfterSwallowed(a, u, q, true);
    AfterSwallowed(f, u, q, false);
    EscapeFreePrefix(engine, m, u, w, |u| - 1);
    forall k | 0 <= k < n ensures Cut(a, sql, k) <==> Cut(f, sql, k) {
      if k < |u| {
        CutsAlike(engine, m, sql, k);
      } else {
        assert sql[k] == q;
      }
    }
    assert sql[n - 1] == q && sql[n..] == ";x";
  }

  /** Just after the readings part, a text without a backslash makes the literal count smaller. */
  lemma PartingUndercounts(engine: Engine, m: SessionModes, u: string)
    requires u != "" && EscapeFree(engine, m, u, |u| - 1) && PartsAt(engine, m, u, |u| - 1)
    ensures var sql := u + Swallowed(u[|u| - 1]);
            |Statements(Literal(engine), sql)| < |Statements(Active(engine, m), sql)|
    ensures NoBackslash(Swallowed(u[|u| - 1]))
  {
    var a, f, q := Active(engine, m), Literal(engine), u[|u| - 1];
    var sql, n := u + Swallowed(q), |u| + 1;
    JustParted(engine, m, u);
    SwallowedParts(engine, m, u);
    OneStatementFewer(a, f, sql, 0, 0, n);
    ScannerRefinesAutomaton(a, sql);
    ScannerRefinesAutomaton(f, sql);
  }

  // ---- The exact condition -----------------------------------------------------------

  /** The literal reading never counts fewer statements, however `u` goes on without a backslash. */
  ghost predicate OnlyOvercounts(engine: Engine, m: SessionModes, u: string) {
    forall w | NoBackslash(w) :: |Statements(Literal(engine), u + w)| >= |Statements(Active(engine, m), u + w)|
  }

  lemma NotEscaped(d: Dialect, sql: string, k: nat)
    requires 0 < k <= |sql| && sql[k - 1] != '\\'
    ensures !After(d, sql, k).mode.Escaped?
  {
    assert After(d, sql, k) == Step(d, After(d, sql, k - 1), sql[k - 1]);
  }

  lemma StaysEscapeFree(engine: Engine, m: SessionModes, u: string, w: string)
    requires u != "" && u[|u| - 1] != '\\' && NoBackslash(w) && EscapeFree(engine, m, u, |u|)
    ensures EscapeFree(engine, m, u + w, |u + w|)
  {
    var sql := u + w;
    forall k | 0 <= k < |sql| ensures !PartsAt(engine, m, sql, k) {
      if k < |u| {
        PartsInPrefix(engine, m, u, w, k);
        assert !PartsAt(engine, m, u, k);
      } else {
        assert sql[k - 1] != '\\';
        NotEscaped(Active(engine, m), sql, k);
      }
    }
  }

  /**
   When taking backslashes literally is the safe side. Read `u` up to a character that is no
   backslash, the readings not having parted before it: however the text goes on without a
   backslash, the literal count is never the smaller one, exactly when they do not part there.
   */
  lemma EscapesDecide(engine: Engine, m: SessionModes, u: string)
    requires u != "" && u[|u| - 1] != '\\' && EscapeFree(engine, m, u, |u| - 1)
    ensures OnlyOvercounts(engine, m, u) <==> EscapeFree(engine, m, u, |u|)
  {
    if PartsAt(engine, m, u, |u| - 1) {
      PartingUndercounts(engine, m, u);
    } else {
      forall w | NoBackslash(w)
        ensures |Statements(Literal(engine), u + w)| >= |Statements(Active(engine, m), u + w)|
      {
        StaysEscapeFree(engine, m, u, w);
        EscapeFreeIsModeFree(engine, m, u + w);
      }
    }
  }

  lemma PrefixIsAlike(engine: Engine, m: SessionModes, sql: string, n: nat, k: nat)
    requires k < n <= |sql|
    ensures PartsAt(engine, m, sql[..n], k) <==> PartsAt(engine, m, sql, k)
  {
    assert sql == sql[..n] + sql[n..];
    PartsInPrefix(engine, m, sql[..n], sql[n..], k);
  }

  lemma {:induction false} FirstParting(engine: Engine, m: SessionModes, sql: string, n: nat) returns (k: nat)
    requires n <= |sql| && !EscapeFree(engine, m, sql, n)
    ensures k < n && PartsAt(engine, m, sql, k) && EscapeFree(engine, m, sql, k)
  {
    k := n - 1;
    if !EscapeFree(engine, m, sql, k) {
      k := FirstParting(engine, m, sql, k);
    }
  }

  lemma PartingShows(engine: Engine, m: SessionModes, sql: string, k: nat)
    requires k < |sql| && PartsAt(engine, m, sql, k) && EscapeFree(engine, m, sql, k)
    ensures sql[k] != '\\' && !OnlyOvercounts(engine, m, sql[..k + 1])
  {
    var u := sql[..k + 1];
    forall j | 0 <= j < k ensures !PartsAt(engine, m, u, j) {
      PrefixIsAlike(engine, m, sql, k + 1, j);
      assert !PartsAt(engine, m, sql, j);
    }
    PrefixIsAlike(engine, m, sql, k + 1, k);
    JustParted(engine, m, u);
    EscapesDecide(engine, m, u);
  }

  /**
   For every text: the literal reading is the safe side wherever the text could have gone on
   differently, exactly when the active reading takes no delimiter in it as escaped.
   */
  lemma SafeEverywhere(engine: Engine, m: SessionModes, sql: string)
    ensures EscapeFree(engine, m, sql, |sql|)
       <==> (forall n | 0 < n <= |sql| && sql[n - 1] != '\\' :: OnlyOvercounts(engine, m, sql[..n]))
  {
    if EscapeFree(engine, m, sql, |sql|) {
      forall n | 0 < n <= |sql| && sql[n - 1] != '\\' ensures OnlyOvercounts(engine, m, sql[..n]) {
        forall j | 0 <= j < n ensures !PartsAt(engine, m, sql[..n], j) {
          PrefixIsAlike(engine, m, sql, n, j);
          assert !PartsAt(engine, m, sql, j);
        }
        EscapesDecide(engine, m, sql[..n]);
      }
    } else {
      var k := FirstParting(engine, m, sql, |sql|);
      PartingShows(engine, m, sql, k);
      assert sql[k + 1 - 1] != '\\';
    }
  }

  // ---- One string by itself ----------------------------------------------------------

  /** The first backslash directly before the delimiter, while the span is still open. */
  function FirstEscape(sql: string, i: nat, delim: char): (r: Option<nat>)
    ensures r.Some? ==> i <= r.value && r.value + 1 < |sql| && sql[r.value + 1] == delim
    decreases |sql| - i
  {
    if i >= |sql| then None
    else if sql[i] == '\\' then
      if At(sql, i + 1, delim) then Some(i) else FirstEscape(sql, i + 2, delim)
    else if sql[i] == delim then
      if At(sql, i + 1, delim) then FirstEscape(sql, i + 2, delim) else None
    else FirstEscape(sql, i + 1, delim)
  }

  function DelimRunEnd(sql: string, j: nat, delim: char): (r: nat)
    requires j <= |sql|
    ensures j <= r <= |sql|
    ensures r < |sql| ==> sql[r] != delim
    decreases |sql| - j
  {
    if At(sql, j, delim) then DelimRunEnd(sql, j + 1, delim) else j
  }

  /** Reading a run of delimiters: an odd run closes the span just past it, an even one does not. */
  lemma {:induction false} RunOfDelims(sql: string, j: nat, delim: char, backslash: bool)
    requires j <= |sql| && delim != '\\'
    ensures var end := DelimRunEnd(sql, j, delim);
            DelimitedEnd(sql, j, delim, backslash) ==
            if (end - j) % 2 == 1 then end else DelimitedEnd(sql, end, delim, backslash)
    decreases |sql| - j
  {
    if At(sql, j, delim) && At(sql, j + 1, delim) {
      RunOfDelims(sql, j + 2, delim, backslash);
    }
  }

  /** After the backslash at `p`, the delimiters are odd in number or run to the end. */
  predicate OddRunOrEnd(sql: string, p: nat, delim: char)
    requires p < |sql|
  {
    var end := DelimRunEnd(sql, p + 1, delim);
    (end - p) % 2 == 0 || end == |sql|
  }

  lemma LongerThan(sql: string, j: nat, delim: char, backslash: bool)
    requires j <= |sql| && !At(sql, j, delim)
    ensures j < |sql| ==> j < DelimitedEnd(sql, j, delim, backslash)
    ensures j == |sql| ==> DelimitedEnd(sql, j, delim, backslash) == |sql|
  {
  }

  /** Where an odd run of delimiters closes the span at its end, an even one reads on. */
  lemma RunCloses(sql: string, j: nat, delim: char, backslash: bool)
    requires j <= |sql| && delim != '\\'
    ensures var end, r := DelimRunEnd(sql, j, delim), DelimitedEnd(sql, j, delim, backslash);
            if (end - j) % 2 == 1 then r == end else if end < |sql| then r > end else r == |sql|
  {
    RunOfDelims(sql, j, delim, backslash);
    LongerThan(sql, DelimRunEnd(sql, j, delim), delim, backslash);
  }

  lemma EscapedDelim(sql: string, p: nat, delim: char)
    requires p + 1 < |sql| && sql[p] == '\\' && sql[p + 1] == delim && delim != '\\'
    ensures DelimitedEnd(sql, p, delim, false) <= DelimitedEnd(sql, p, delim, true)
            <==> OddRunOrEnd(sql, p, delim)
  {
    assert DelimitedEnd(sql, p, delim, false) == DelimitedEnd(sql, p + 1, delim, false);
    assert DelimitedEnd(sql, p, delim, true) == DelimitedEnd(sql, p + 2, delim, true);
    assert DelimRunEnd(sql, p + 2, delim) == DelimRunEnd(sql, p + 1, delim);
    RunCloses(sql, p + 1, delim, false);
    RunCloses(sql, p + 2, delim, true);
  }

  /**
   One string by itself: read with literal backslashes it ends no later than with active
   ones exactly when no escaped delimiter is met, or the delimiters after the first one
   are odd in number or run to the end of the text. This does not decide how many
   statements the text has; `EscapesDecide` does.
   */
  lemma {:induction false} LiteralClosesFirst(sql: string, i: nat, delim: char)
    requires delim != '\\'
    ensures var p := FirstEscape(sql, i, delim);
            DelimitedEnd(sql, i, delim, false) <= DelimitedEnd(sql, i, delim, true)
            <==> (p.Some? ==> OddRunOrEnd(sql, p.value, delim))
    decreases |sql| - i
  {
    if i < |sql| {
      if sql[i] == '\\' && At(sql, i + 1, delim) {
        EscapedDelim(sql, i, delim);
      } else if sql[i] == '\\' || (sql[i] == delim && At(sql, i + 1, delim)) {
        LiteralClosesFirst(sql, i + 2, delim);
      } else if sql[i] != delim {
        LiteralClosesFirst(sql, i + 1, delim);
      }
    }
  }

  /**
   Literal backslashes can under-count: this text is two statements when the backslash is
   active and one when it is literal.
   */
  lemma LiteralCanUndercount()
    ensures var sql := "'\\'' ; x";
            |Statements(Dialect(Mysql, DEFAULT_MODES), sql)| == 2
            && |Statements(Dialect(Mysql, SAFE_FALLBACK_MODES), sql)| == 1
  {
    var sql := "'\\'' ; x";
    var active, literal := Dialect(Mysql, DEFAULT_MODES), Dialect(Mysql, SAFE_FALLBACK_MODES);
    assert DelimitedEnd(sql, 3, '\'', true) == 4;
    assert SpanEnd(active, sql, 0) == 4;
    assert DelimitedEnd(sql, 6, '\'', false) == 8;
    assert SpanEnd(literal, sql, 0) == 8;
    assert Segments(literal, sql, 0, 0) == [sql];
    assert Segments(active, sql, 6, 7) == [sql[6..]];
    assert Segments(active, sql, 6, 6) == [sql[6..]];
    assert Segments(active, sql, 0, 5) == [sql[0..5]] + [sql[6..]];
    assert Segments(active, sql, 0, 0) == [sql[0..5], sql[6..]];
    QuoteIsContent(sql);
    QuoteIsContent(sql[0..5]);
    BlankThenWord(sql[6..]);
    KeptOne(sql);
    KeptTwo(sql[0..5], sql[6..]);
  }

  /**
   Nor is an even run needed: here one delimiter follows the backslash, the literal reading
   closes the string early, and the next quote opens one that swallows the semicolon.
   */
  lemma OddRunUndercounts()
    ensures var sql := "'\\' 'x ; y";
            && FirstEscape(sql, 1, '\'') == Some(1) && OddRunOrEnd(sql, 1, '\'')
            && |Statements(Dialect(Mysql, DEFAULT_MODES), sql)| == 2
            && |Statements(Dialect(Mysql, SAFE_FALLBACK_MODES), sql)| == 1
  {
    OneDelimiterFollows();
    var sql := "'\\' 'x ; y";
    OddRunActive();
    OddRunLiteral();
    QuoteIsContent(sql);
    QuoteIsContent(sql[0..7]);
    BlankThenWord(sql[8..]);
    KeptOne(sql);
    KeptTwo(sql[0..7], sql[8..]);
  }

  lemma OneDelimiterFollows()
    ensures var sql := "'\\' 'x ; y"; FirstEscape(sql, 1, '\'') == Some(1) && OddRunOrEnd(sql, 1, '\'')
  {
    var sql := "'\\' 'x ; y";
    assert DelimRunEnd(sql, 3, '\'') == 3;
  }

  lemma QuoteIsContent(seg: string)
    requires seg != "" && IsQuote(seg[0])
    ensures HasContent(seg)
  {
  }

  lemma KeptTwo(first: string, second: string)
    requires HasContent(first) && HasContent(second)
    ensures Kept([first, second]) == [first, second]
  {
    KeptOne(second);
    KeptAfter(first, [second]);
    assert [first] + [second] == [first, second];
  }

  lemma BlankThenWord(seg: string)
    requires |seg| > 1 && IsSpace(seg[0]) && IsWordStart(seg[1])
    ensures HasContent(seg)
  {
    assert KeywordFrom(seg, 1).Some?;
  }

  lemma KeptOne(seg: string)
    requires HasContent(seg)
    ensures Kept([seg]) == [seg]
  {
    assert [seg][1..] == [];
  }

  lemma OddRunActive()
    ensures var sql := "'\\' 'x ; y";
            Segments(Dialect(Mysql, DEFAULT_MODES), sql, 0, 0) == [sql[0..7], sql[8..]]
  {
    var sql := "'\\' 'x ; y";
    var active := Dialect(Mysql, DEFAULT_MODES);
    assert DelimitedEnd(sql, 3, '\'', true) == 5;
    assert SpanEnd(active, sql, 0) == 5;
    assert Segments(active, sql, 8, 8) == [sql[8..]];
    assert Segments(active, sql, 0, 7) == [sql[0..7]] + [sql[8..]];
    assert Segments(active, sql, 0, 5) == [sql[0..7], sql[8..]];
  }

  lemma OddRunLiteral()
    ensures var sql := "'\\' 'x ; y";
            Segments(Dialect(Mysql, SAFE_FALLBACK_MODES), sql, 0, 0) == [sql]
  {
    var sql := "'\\' 'x ; y";
    var literal := Dialect(Mysql, SAFE_FALLBACK_MODES);
    assert SpanEnd(literal, sql, 0) == 3;
    assert DelimitedEnd(sql, 7, '\'', false) == 10;
    assert SpanEnd(literal, sql, 4) == 10;
    assert Segments(literal, sql, 0, 3) == [sql];
  }
}
