/** The raw-SQL path: what runs, inside which transaction, and what is only asked about. */
module RawExecutor {
  import opened Text
  import opened SqlScanner
  import opened SqlAutomaton
  import opened SqlSpans
  import opened SqlTokens

  const MAX_RESULT_ROWS: nat := 1000

  datatype Risk = ModifiesData | DestroysData | ChangesSchema | NotARead

  datatype Plan =
    | Empty
    | Multiple
    | RunReadOnly(text: string)              // in a read-only transaction, rolled back
    | Confirm(sql: string, risk: Risk)
    | RunAndInvalidate(text: string)         // run, and once it has succeeded mark the schema stale

  predicate SuppressesBound(word: string) {
    word == "LIMIT" || word == "FETCH" || word == "UPDATE" || word == "SHARE" || word == "LOCK"
  }

  function BoundText(): string {
    "\nLIMIT " + Decimal(MAX_RESULT_ROWS + 1)
  }

  function BoundRawRead(stmt: string, verb: Option<string>, words: seq<string>): string {
    if verb != Some("SELECT") || exists w :: w in words && SuppressesBound(w) then stmt
    else stmt + BoundText()
  }

  function RiskFor(verb: string): Risk {
    if verb == "UPDATE" || verb == "INSERT" || verb == "DELETE" then ModifiesData
    else if verb == "DROP" || verb == "TRUNCATE" then DestroysData
    else if verb == "ALTER" || verb == "CREATE" then ChangesSchema
    else NotARead
  }

  function TopWords(d: Dialect, sql: string): seq<string> {
    WordsFrom(d, sql, 0)
  }

  function First(words: seq<string>): Option<string> {
    if words == [] then None else Some(words[0])
  }

  predicate IsRead(words: seq<string>) {
    (First(words) == Some("SELECT") || First(words) == Some("SHOW")) && "INTO" !in words
  }

  /** What is done with one statement, already trimmed. */
  function PlanOne(d: Dialect, stmt: string, confirmed: bool): Plan {
    var words := TopWords(d, stmt);
    if IsRead(words) then RunReadOnly(BoundRawRead(stmt, First(words), words))
    else if confirmed then RunAndInvalidate(stmt)
    else Confirm(stmt, RiskFor(if words == [] then "" else words[0]))
  }

  function PlanRaw(d: Dialect, sql: string, confirmed: bool): Plan {
    var statements := Statements(d, sql);
    if |statements| == 0 then Empty
    else if |statements| > 1 then Multiple
    else PlanOne(d, Trim(statements[0]), confirmed)
  }

  method ExecuteRaw(d: Dialect, sql: string, confirmed: bool) returns (r: Plan)
    ensures r == PlanRaw(d, sql, confirmed)
  {
    var statements := SplitStatements(d, sql);
    if |statements| == 0 {
      return Empty;
    }
    if |statements| > 1 {
      return Multiple;
    }
    var stmt := Trim(statements[0]);
    var words := TopLevelWords(d, stmt);
    var verb := First(words);
    var isRead := (verb == Some("SELECT") || verb == Some("SHOW")) && "INTO" !in words;
    if isRead {
      return RunReadOnly(BoundRawRead(stmt, verb, words));
    }
    if !confirmed {
      return Confirm(stmt, RiskFor(if verb.Some? then verb.value else ""));
    }
    return RunAndInvalidate(stmt);
  }

  // ---- What runs is one statement ----------------------------------------------------

  /** Text with something before the end still has it when more follows on a new line. */
  lemma {:induction false} ContentExtends(sql: string, full: string, i: nat)
    requires NewlineAfter(sql, full) && KeywordFrom(sql, i).Some?
    ensures KeywordFrom(full, i).Some?
    decreases |sql| - i
  {
    assert full[i] == sql[i];
    if IsSpace(sql[i]) {
      ContentExtends(sql, full, i + 1);
    } else if sql[i] == '-' && At(sql, i + 1, '-') {
      LineSame(sql, full, i + 2);
      ContentExtends(sql, full, LineEnd(sql, i + 2));
    } else if sql[i] == '/' && At(sql, i + 1, '*') {
      StopSame(sql, full, i + 2);
      ContentExtends(sql, full, BlockStop(sql, i + 2) + 2);
    }
  }

  lemma {:induction false} StopSame(sql: string, full: string, j: nat)
    requires NewlineAfter(sql, full) && j <= |sql| && BlockStop(sql, j) + 2 <= |sql|
    ensures BlockStop(full, j) == BlockStop(sql, j)
    decreases |sql| - j
  {
    assert full[j] == sql[j];
    if !(sql[j] == '*' && At(sql, j + 1, '/')) {
      StopSame(sql, full, j + 1);
    }
  }

  lemma UncutExtends(d: Dialect, sql: string, full: string)
    requires NewlineAfter(sql, full) && NoCut(d, sql, 0, |sql|)
    requires forall k | |sql| <= k < |full| :: full[k] != ';'
    ensures NoCut(d, full, 0, |full|)
  {
    assert full[0..|sql|] == sql;
    forall k | 0 <= k < |full| ensures !Cut(d, full, k) {
      if k < |sql| {
        AfterSlice(d, full, 0, |sql|, k);
        assert !Cut(d, sql, k);
      }
    }
  }

  lemma BoundIsPlain()
    ensures BoundText() == "\nLIMIT 1001"
  {
    assert Decimal(1) == "1" && Decimal(0) == "0";
    assert Decimal(10) == "10";
    assert Decimal(100) == "100";
  }

  lemma BoundFollows(stmt: string)
    ensures NewlineAfter(stmt, stmt + BoundText())
    ensures forall k | |stmt| <= k < |stmt + BoundText()| :: (stmt + BoundText())[k] != ';'
  {
    BoundIsPlain();
    var full, bound := stmt + BoundText(), "\nLIMIT 1001";
    assert forall k | 0 <= k < |bound| :: bound[k] != ';';
    assert forall k | |stmt| <= k < |full| :: full[k] == bound[k - |stmt|];
  }

  /** Appending the bound to one statement leaves it one statement, whatever it leaves open. */
  lemma BoundedIsOneStatement(d: Dialect, stmt: string)
    requires Statements(d, stmt) == [stmt] && |Segments(d, stmt, 0, 0)| == 1
    ensures Statements(d, stmt + BoundText()) == [stmt + BoundText()]
  {
    BoundFollows(stmt);
    OneSegmentIsUncut(d, stmt);
    UncutExtends(d, stmt, stmt + BoundText());
    assert stmt in Statements(d, stmt);
    ContentExtends(stmt, stmt + BoundText(), 0);
    UncutIsOneStatement(d, stmt + BoundText());
  }

  function TextOf(p: Plan): string {
    match p
    case RunReadOnly(text) => text
    case RunAndInvalidate(text) => text
    case Confirm(sql, _) => sql
    case _ => ""
  }

  lemma PlannedStatement(d: Dialect, sql: string) returns (stmt: string)
    requires |Statements(d, sql)| == 1
    ensures stmt == Trim(Statements(d, sql)[0])
    ensures Statements(d, stmt) == [stmt] && Segments(d, stmt, 0, 0) == [stmt]
  {
    stmt := Trim(Statements(d, sql)[0]);
    TrimmedIsOneStatement(d, sql, Statements(d, sql)[0]);
    assert stmt in Statements(d, stmt);
    StatementsAreStable(d, stmt, stmt);
  }

  /** Whatever reaches the engine, or is shown for confirmation, is one statement by itself. */
  lemma WhatRunsIsOneStatement(d: Dialect, sql: string, confirmed: bool)
    ensures var p := PlanRaw(d, sql, confirmed);
            !p.Empty? && !p.Multiple? ==> Statements(d, TextOf(p)) == [TextOf(p)]
  {
    if |Statements(d, sql)| == 1 {
      var stmt := PlannedStatement(d, sql);
      BoundedIsOneStatement(d, stmt);
    }
  }

  // ---- What is asked about is what runs ----------------------------------------------

  lemma {:induction false} TrimEndTwice(s: string)
    ensures TrimEnd(TrimEnd(s)) == TrimEnd(s)
  {
    if s != "" && IsSpace(s[|s| - 1]) {
      TrimEndTwice(s[..|s| - 1]);
    }
  }

  lemma {:induction false} TrimStartTwice(s: string)
    ensures TrimStart(TrimStart(s)) == TrimStart(s)
  {
    if s != "" && IsSpace(s[0]) {
      TrimStartTwice(s[1..]);
    }
  }

  lemma {:induction false} TrimEndKeepsStart(s: string)
    requires TrimStart(s) == s
    ensures TrimStart(TrimEnd(s)) == TrimEnd(s)
  {
    if s != "" && IsSpace(s[|s| - 1]) {
      var t := s[..|s| - 1];
      if t != "" {
        StartIsNotBlank(s);
        assert t[0] == s[0];
      }
      TrimEndKeepsStart(t);
    }
  }

  lemma {:induction false} StartShortens(s: string)
    ensures |TrimStart(s)| <= |s|
  {
    if s != "" && IsSpace(s[0]) {
      StartShortens(s[1..]);
    }
  }

  lemma StartIsNotBlank(s: string)
    requires s != "" && TrimStart(s) == s
    ensures !IsSpace(s[0])
  {
    StartShortens(s[1..]);
  }

  lemma TrimTwice(s: string)
    ensures Trim(Trim(s)) == Trim(s)
  {
    TrimStartTwice(s);
    TrimEndKeepsStart(TrimStart(s));
    TrimEndTwice(TrimStart(s));
  }

  /**
   The text shown for confirmation is what a confirmation runs: sending either the original
   or the previewed text back, confirmed, runs exactly the preview.
   */
  lemma PreviewIsWhatRuns(d: Dialect, sql: string)
    ensures var p := PlanRaw(d, sql, false);
            p.Confirm? ==>
            && PlanRaw(d, sql, true) == RunAndInvalidate(p.sql)
            && PlanRaw(d, p.sql, true) == RunAndInvalidate(p.sql)
            && PlanRaw(d, p.sql, false) == p
  {
    if |Statements(d, sql)| == 1 {
      var stmt := PlannedStatement(d, sql);
      TrimTwice(Statements(d, sql)[0]);
    }
  }

  /** A corollary of the decision: unconfirmed, only a SELECT or SHOW without a top-level INTO runs, read-only. */
  lemma OnlyReadsRunUnasked(d: Dialect, sql: string)
    ensures var p := PlanRaw(d, sql, false);
            && !p.RunAndInvalidate?
            && (p.RunReadOnly? <==> PlanRaw(d, sql, true).RunReadOnly?)
            && (p.RunReadOnly? ==> p == PlanRaw(d, sql, true) && |Statements(d, sql)| == 1)
            && (p.RunReadOnly? ==> exists stmt :: stmt == Trim(Statements(d, sql)[0])
                                                  && stmt <= p.text && IsRead(TopWords(d, stmt)))
  {
  }

  // ---- The fetch bound ---------------------------------------------------------------

  lemma BoundTokens(d: Dialect, stmt: string)
    ensures Tokens(d, stmt + BoundText(), |stmt|) == [Char('\n')] + CharsThen("LIMIT 1001", [])
  {
    BoundIsPlain();
    var full, bound := stmt + BoundText(), "\nLIMIT 1001";
    assert full[|stmt|..|full|] == bound;
    assert Inert(bound);
    InertText(d, full, |stmt|, bound, |full|);
    assert bound[1..] == "LIMIT 1001";
  }

  lemma DigitsAreNoWord()
    ensures Words(CharsThen(" 1001", [])) == []
  {
    assert " 1001"[1..] == "1001" && "1001"[1..] == "001" && "001"[1..] == "01" && "01"[1..] == "1";
    assert CharsThen("1", []) == [Char('1')];
    assert Words(CharsThen("1", [])) == [];
    assert Words(CharsThen("01", [])) == [];
    assert Words(CharsThen("001", [])) == [];
    assert Words(CharsThen("1001", [])) == [];
  }

  lemma {:induction false} CharsConcat(a: string, b: string, rest: seq<Token>)
    ensures CharsThen(a + b, rest) == CharsThen(a, CharsThen(b, rest))
  {
    if a == "" {
      assert a + b == b;
    } else {
      assert (a + b)[1..] == a[1..] + b;
      CharsConcat(a[1..], b, rest);
    }
  }

  lemma WordThen(w: string, rest: seq<Token>)
    requires w != "" && IsWordStart(w[0]) && forall k | 0 <= k < |w| :: IsWordChar(w[k])
    requires rest != [] ==> !IsWordToken(rest[0])
    ensures Words(CharsThen(w, rest)) == [Upper(w)] + Words(rest)
  {
    RunOfChars(w, rest);
  }

  lemma BoundWords()
    ensures Words(CharsThen("LIMIT 1001", [])) == ["LIMIT"]
  {
    assert "LIMIT" + " 1001" == "LIMIT 1001";
    CharsConcat("LIMIT", " 1001", []);
    DigitsAreNoWord();
    LimitThen(CharsThen(" 1001", []));
  }

  lemma LimitThen(rest: seq<Token>)
    requires rest != [] ==> !IsWordToken(rest[0])
    ensures Words(CharsThen("LIMIT", rest)) == ["LIMIT"] + Words(rest)
  {
    WordThen("LIMIT", rest);
    assert Upper("LIMIT") == "LIMIT";
  }

  lemma BoundedTokens(d: Dialect, stmt: string)
    requires EndsOutside(d, stmt)
    ensures Tokens(d, stmt + BoundText(), 0) ==
            Tokens(d, stmt, 0) + [Char('\n')] + CharsThen("LIMIT 1001", [])
  {
    var full := stmt + BoundText();
    BoundFollows(stmt);
    TokensExtend(d, stmt, full, 0);
    BoundTokens(d, stmt);
    Chained(Tokens(d, full, 0), Tokens(d, stmt, 0), Tokens(d, full, |stmt|), [Char('\n')], CharsThen("LIMIT 1001", []));
  }

  lemma WordsAcross(d: Dialect, sql: string, full: string, rest: seq<Token>)
    requires Tokens(d, full, 0) == Tokens(d, sql, 0) + [Char('\n')] + rest
    ensures TopWords(d, full) == TopWords(d, sql) + Words(rest)
  {
    WordsSeparated(Tokens(d, sql, 0), Char('\n'), rest);
    WordsOfTokens(d, sql, 0);
    WordsOfTokens(d, full, 0);
  }

  /**
   Where the scan ends outside every span, other than a line comment, the bound adds just
   the word LIMIT after the words there were.
   */
  lemma BoundAddsOneWord(d: Dialect, stmt: string)
    requires EndsOutside(d, stmt)
    ensures TopWords(d, stmt + BoundText()) == TopWords(d, stmt) + ["LIMIT"]
  {
    BoundedTokens(d, stmt);
    BoundWords();
    WordsAcross(d, stmt, stmt + BoundText(), CharsThen("LIMIT 1001", []));
  }

  // ---- The whole decision, written out -------------------------------------------------

  /** The first word is SELECT or SHOW, and no word is INTO. */
  predicate ReadsOnly(words: seq<string>) {
    words != [] && (words[0] == "SELECT" || words[0] == "SHOW") && "INTO" !in words
  }

  /** A row count or a row lock of its own, or a SHOW: no bound is appended. */
  predicate RunsVerbatim(words: seq<string>)
    requires words != []
  {
    || words[0] == "SHOW"
    || "LIMIT" in words || "FETCH" in words || "UPDATE" in words || "SHARE" in words || "LOCK" in words
  }

  /** The three kinds of warning, by the first word; any other word, or none, is just not a read. */
  predicate WarnedOf(words: seq<string>, risk: Risk) {
    var verb := if words == [] then "" else words[0];
    && (risk == ModifiesData <==> verb in ["INSERT", "UPDATE", "DELETE"])
    && (risk == DestroysData <==> verb in ["DROP", "TRUNCATE"])
    && (risk == ChangesSchema <==> verb in ["CREATE", "ALTER"])
  }

  lemma BoundOrVerbatim(stmt: string, words: seq<string>)
    requires ReadsOnly(words)
    ensures BoundRawRead(stmt, First(words), words) == if RunsVerbatim(words) then stmt else stmt + "\nLIMIT 1001"
  {
    BoundIsPlain();
    if RunsVerbatim(words) {
      var w := if "LIMIT" in words then "LIMIT" else if "FETCH" in words then "FETCH"
               else if "UPDATE" in words then "UPDATE" else if "SHARE" in words then "SHARE" else "LOCK";
      assert words[0] == "SHOW" || (w in words && SuppressesBound(w));
    }
  }

  /**
   What is done with a text, by its statements and the words of the one statement: nothing
   without a statement, a refusal of several, a read run verbatim or under the bound, and
   everything else asked about first.
   */
  lemma DecidedByWords(d: Dialect, sql: string, confirmed: bool, stmt: string, words: seq<string>)
    requires Statements(d, sql) != [] ==> stmt == Trim(Statements(d, sql)[0])
    requires words == WordsFrom(d, stmt, 0)
    ensures var p := PlanRaw(d, sql, confirmed);
            && (p == Empty <==> Statements(d, sql) == [])
            && (p == Multiple <==> |Statements(d, sql)| > 1)
            && (|Statements(d, sql)| == 1 ==>
                && (ReadsOnly(words) && RunsVerbatim(words) ==> p == RunReadOnly(stmt))
                && (ReadsOnly(words) && !RunsVerbatim(words) ==> p == RunReadOnly(stmt + "\nLIMIT 1001"))
                && (!ReadsOnly(words) && confirmed ==> p == RunAndInvalidate(stmt))
                && (!ReadsOnly(words) && !confirmed ==> p.Confirm? && p.sql == stmt && WarnedOf(words, p.risk)))
  {
    if ReadsOnly(words) {
      BoundOrVerbatim(stmt, words);
    }
  }

  /** A text with a backslash before a string's delimiter, then a semicolon and a word. */
  lemma BackslashIsRefused(d: Dialect, sql: string, confirmed: bool, i: nat, j: nat)
    requires BackslashedAt(d, sql, i, j) && NoCut(d, sql, 0, i) && sql[j + 2..] == " ; x"
    requires i == 0 || IsLetter(sql[0])
    ensures PlanRaw(d, sql, confirmed) == Multiple <==> !BackslashEscapes(d, sql, i)
  {
    BackslashCountsStatements(d, sql, i, j);
  }

  /**
   What is run as a read is still a read, and never has two bounds: its words are those of
   the statement, or those and one LIMIT where there was none.
   */
  lemma BoundedReadHasOneLimit(d: Dialect, sql: string, confirmed: bool)
    ensures var p := PlanRaw(d, sql, confirmed);
            p.RunReadOnly? && EndsOutside(d, Trim(Statements(d, sql)[0])) ==>
            var words := TopWords(d, Trim(Statements(d, sql)[0]));
            && ReadsOnly(TopWords(d, p.text))
            && TopWords(d, p.text) == (if RunsVerbatim(words) then words else words + ["LIMIT"])
            && (!RunsVerbatim(words) ==> "LIMIT" !in words)
  {
    if |Statements(d, sql)| == 1 {
      var stmt := Trim(Statements(d, sql)[0]);
      DecidedByWords(d, sql, confirmed, stmt, TopWords(d, stmt));
      if EndsOutside(d, stmt) {
        BoundIsPlain();
        BoundAddsOneWord(d, stmt);
      }
    }
  }

  // ---- The rows ----------------------------------------------------------------------

  datatype Rows<T> = Rows(data: seq<T>, truncated: bool)

  function ToRows<T>(fetched: seq<T>): Rows<T> {
    var truncated := |fetched| > MAX_RESULT_ROWS;
    Rows(if truncated then fetched[..MAX_RESULT_ROWS] else fetched, truncated)
  }

  /**
   The first thousand rows are answered, and whether there were more; fetching one row over
   that changes neither.
   */
  lemma BoundLosesNothing<T>(all: seq<T>)
    ensures ToRows(all).data == (if |all| > 1000 then all[..1000] else all) && (ToRows(all).truncated <==> |all| > 1000)
    ensures ToRows(if |all| > 1001 then all[..1001] else all) == ToRows(all)
  {
    if |all| > MAX_RESULT_ROWS + 1 {
      assert all[..MAX_RESULT_ROWS + 1][..MAX_RESULT_ROWS] == all[..MAX_RESULT_ROWS];
    }
  }
}
