/**
 A reference reading of SQL text, one character at a time and with no lookahead, and the
 proof that the index-jumping scanner cuts the text exactly where this automaton reads a
 semicolon outside every span.
 */
module SqlAutomaton {
  import opened Text
  import opened SqlScanner

  /** What the characters read so far leave open. */
  datatype Mode =
    | Plain
    | Dash                                   // one ordinary '-'
    | DashDash                               // MySQL: two, not yet known to be a comment
    | Slash                                  // one ordinary '/'
    | Line                                   // in a line comment
    | Block(star: bool)                      // in a block comment, just after '*' or not
    | Quoted(delim: char, backslash: bool)
    | Escaped(delim: char)                   // just after an active backslash
    | Closing(delim: char, backslash: bool)  // after a delimiter that may yet be doubled
    | Tag(name: string)                      // Postgres: '$' and word characters
    | Dollar(tag: string, body: string)      // in a dollar-quote

  /** What an opening quote needs to know of the characters before it. */
  datatype Before = Boundary | Letter | EscapeLetter

  datatype Config = Config(mode: Mode, before: Before)

  const START := Config(Plain, Boundary)

  predicate Outside(m: Mode) {
    m.Plain? || m.Dash? || m.DashDash? || m.Slash? || m.Closing? || m.Tag?
  }

  predicate Blank(c: char) {
    IsSpace(c) || c < ' '
  }

  function StepPlain(d: Dialect, before: Before, c: char): Mode {
    if c == '-' then Dash
    else if c == '/' then Slash
    else if c == '$' && d.engine.Postgres? then Tag("")
    else if c == '`' && d.engine.Mysql? then Quoted('`', false)
    else if c == '"' then Quoted('"', DoubleQuoteBackslash(d))
    else if c == '\'' then Quoted('\'', SingleQuoteBackslash(d, before.EscapeLetter?))
    else Plain
  }

  function EndsWith(s: string, tail: string): bool {
    |tail| <= |s| && s[|s| - |tail|..] == tail
  }

  function StepMode(d: Dialect, q: Config, c: char): Mode {
    match q.mode
    case Plain => StepPlain(d, q.before, c)
    case Dash =>
      if c != '-' then StepPlain(d, q.before, c)
      else if d.engine.Postgres? then Line
      else DashDash
    case DashDash =>
      if c == '\n' then Plain
      else if Blank(c) then Line
      else if c == '-' then DashDash
      else StepPlain(d, q.before, c)
    case Slash => if c == '*' then Block(false) else StepPlain(d, q.before, c)
    case Line => if c == '\n' then Plain else Line
    case Block(star) => if star && c == '/' then Plain else Block(c == '*')
    case Quoted(delim, backslash) =>
      if backslash && c == '\\' then Escaped(delim)
      else if c == delim then Closing(delim, backslash)
      else q.mode
    case Escaped(delim) => Quoted(delim, true)
    case Closing(delim, backslash) =>
      if c == delim then Quoted(delim, backslash) else StepPlain(d, q.before, c)
    case Tag(name) =>
      if c == '$' then Dollar("$" + name + "$", "")
      else if IsWordChar(c) then Tag(name + [c])
      else StepPlain(d, q.before, c)
    case Dollar(tag, body) =>
      if EndsWith(body + [c], tag) then Plain else Dollar(tag, body + [c])
  }

  function StepBefore(before: Before, c: char): Before {
    if (c == 'e' || c == 'E') && before.Boundary? then EscapeLetter
    else if IsIdentChar(c) then Letter
    else Boundary
  }

  function Step(d: Dialect, q: Config, c: char): Config {
    Config(StepMode(d, q, c), StepBefore(q.before, c))
  }

  /** The configuration after the first `k` characters. */
  function After(d: Dialect, sql: string, k: nat): Config
    requires k <= |sql|
  {
    if k == 0 then START else Step(d, After(d, sql, k - 1), sql[k - 1])
  }

  /** The automaton reads a semicolon at `k` outside every span. */
  predicate Cut(d: Dialect, sql: string, k: nat) {
    k < |sql| && sql[k] == ';' && Outside(After(d, sql, k).mode)
  }

  /** The pieces between the automaton's cuts, read one character at a time. */
  function Pieces(d: Dialect, sql: string, start: nat, k: nat): (r: seq<string>)
    requires start <= k <= |sql|
    ensures |r| > 0
    decreases |sql| - k
  {
    if k == |sql| then [sql[start..]]
    else if Cut(d, sql, k) then [sql[start..k]] + Pieces(d, sql, k + 1, k + 1)
    else Pieces(d, sql, start, k + 1)
  }

  // ---- The scanner's loop head, in terms of the automaton ----------------------------

  /**
   The automaton has just read up to where the scanner's loop stands. Whatever it is still
   waiting for does not come: the scanner has already looked ahead and seen that.
   */
  predicate Settled(d: Dialect, m: Mode, sql: string, i: nat)
    requires i < |sql|
  {
    match m
    case Plain => true
    case Dash => At(sql, i, '-') ==> d.engine.Mysql? && !BlankAt(sql, i + 1)
    case DashDash =>
      && d.engine.Mysql?
      && (sql[i] != '\n' ==> !Blank(sql[i]) && (sql[i] == '-' ==> !BlankAt(sql, i + 1)))
    case Slash => sql[i] != '*'
    case Line => sql[i] == '\n'
    case Closing(delim, _) => sql[i] != delim
    case Tag(_) => d.engine.Postgres? && !At(sql, WordEnd(sql, i), '$')
    case _ => false
  }

  predicate BlankAt(sql: string, i: nat) {
    i >= |sql| || Blank(sql[i])
  }

  /** The scanner's loop can stand at `i`. */
  predicate AtHead(d: Dialect, sql: string, i: nat) {
    i == |sql| || (i < |sql| && Settled(d, After(d, sql, i).mode, sql, i))
  }

  predicate NoCut(d: Dialect, sql: string, i: nat, j: nat) {
    forall k | i <= k < j :: !Cut(d, sql, k)
  }

  lemma BeforeQuote(d: Dialect, sql: string, i: nat)
    requires i <= |sql|
    ensures After(d, sql, i).before ==
            if IsEscapePrefix(sql, i) then EscapeLetter
            else if 0 < i && IsIdentChar(sql[i - 1]) then Letter
            else Boundary
  {
    if i > 0 {
      BeforeQuote(d, sql, i - 1);
    }
  }

  // ---- Inside each kind of span ------------------------------------------------------

  predicate IsQuote(c: char) {
    c == '\'' || c == '"' || c == '`'
  }

  /** An escaped character or a doubled delimiter leaves the string open two characters on. */
  lemma StaysQuoted(d: Dialect, sql: string, j: nat, delim: char, backslash: bool)
    requires j + 1 < |sql| && IsQuote(delim) && After(d, sql, j).mode == Quoted(delim, backslash)
    requires (backslash && sql[j] == '\\') || (sql[j] == delim && sql[j + 1] == delim)
    ensures After(d, sql, j + 2).mode == Quoted(delim, backslash)
    ensures !Cut(d, sql, j) && !Cut(d, sql, j + 1)
  {
    var q1 := After(d, sql, j + 1);
    assert q1 == Step(d, After(d, sql, j), sql[j]);
    assert After(d, sql, j + 2) == Step(d, q1, sql[j + 1]);
  }

  /** Any other character of the string: the closing delimiter, or one more of its body. */
  lemma InQuotes(d: Dialect, sql: string, j: nat, delim: char, backslash: bool)
    requires j < |sql| && IsQuote(delim) && After(d, sql, j).mode == Quoted(delim, backslash)
    requires !(backslash && sql[j] == '\\') && !(sql[j] == delim && At(sql, j + 1, delim))
    ensures !Cut(d, sql, j)
    ensures if sql[j] == delim then AtHead(d, sql, j + 1) else After(d, sql, j + 1).mode == Quoted(delim, backslash)
  {
    assert After(d, sql, j + 1) == Step(d, After(d, sql, j), sql[j]);
  }

  lemma {:induction false} ReadDelimited(d: Dialect, sql: string, j: nat, delim: char, backslash: bool)
    requires j <= |sql| && IsQuote(delim) && After(d, sql, j).mode == Quoted(delim, backslash)
    ensures var end := DelimitedEnd(sql, j, delim, backslash);
            NoCut(d, sql, j, end) && AtHead(d, sql, end)
    decreases |sql| - j
  {
    if j < |sql| {
      if (backslash && sql[j] == '\\') || (sql[j] == delim && At(sql, j + 1, delim)) {
        if j + 1 < |sql| {
          StaysQuoted(d, sql, j, delim, backslash);
          ReadDelimited(d, sql, j + 2, delim, backslash);
        }
      } else {
        InQuotes(d, sql, j, delim, backslash);
        if sql[j] != delim {
          ReadDelimited(d, sql, j + 1, delim, backslash);
        }
      }
    }
  }

  lemma ReadLine(d: Dialect, sql: string, j: nat)
    requires j <= |sql|
    requires After(d, sql, j).mode == Line
    ensures NoCut(d, sql, j, LineEnd(sql, j)) && AtHead(d, sql, LineEnd(sql, j))
    decreases |sql| - j
  {
    if j < |sql| && sql[j] != '\n' {
      ReadLine(d, sql, j + 1);
    }
  }

  lemma StepBlock(d: Dialect, sql: string, j: nat)
    requires j < |sql| && After(d, sql, j).mode.Block?
    ensures !Cut(d, sql, j)
    ensures After(d, sql, j + 1).mode ==
            if After(d, sql, j).mode.star && sql[j] == '/' then Plain else Block(sql[j] == '*')
  {
    assert After(d, sql, j + 1) == Step(d, After(d, sql, j), sql[j]);
  }

  lemma BlockCloses(d: Dialect, sql: string, j: nat)
    requires j + 1 < |sql| && After(d, sql, j).mode.Block? && sql[j] == '*' && sql[j + 1] == '/'
    ensures !Cut(d, sql, j) && !Cut(d, sql, j + 1) && After(d, sql, j + 2).mode == Plain
  {
    StepBlock(d, sql, j);
    StepBlock(d, sql, j + 1);
  }

  lemma {:induction false} ReadBlock(d: Dialect, sql: string, j: nat)
    requires j <= |sql|
    requires After(d, sql, j).mode.Block?
    requires After(d, sql, j).mode.star ==> !At(sql, j, '/')
    ensures var end := Min(|sql|, BlockStop(sql, j) + 2);
            NoCut(d, sql, j, end) && AtHead(d, sql, end)
    decreases |sql| - j
  {
    if j < |sql| {
      if sql[j] == '*' && At(sql, j + 1, '/') {
        BlockCloses(d, sql, j);
      } else {
        StepBlock(d, sql, j);
        ReadBlock(d, sql, j + 1);
      }
    }
  }

  /** A tag candidate: the word characters after '$' are read as such, and cut nothing. */
  lemma ReadTag(d: Dialect, sql: string, i: nat, j: nat)
    requires d.engine.Postgres?
    requires i < |sql| && i < j <= WordEnd(sql, i + 1)
    requires After(d, sql, i + 1).mode == Tag("")
    ensures After(d, sql, j).mode == Tag(sql[i + 1..j])
    ensures NoCut(d, sql, i + 1, j)
  {
    if j > i + 1 {
      ReadTag(d, sql, i, j - 1);
      assert sql[i + 1..j] == sql[i + 1..j - 1] + [sql[j - 1]];
    } else {
      assert sql[i + 1..j] == "";
    }
  }

  /** An occurrence of the tag in the body ends just before `end`. */
  predicate TagEndsAt(sql: string, tag: string, from: nat, end: nat) {
    from + |tag| <= end && OccursAt(sql, tag, end - |tag|)
  }

  lemma TailOccurs(sql: string, tag: string, from: nat, j: nat, end: nat)
    requires from <= j < |sql| && |tag| > 0 && end == j + 1
    ensures sql[from..j] + [sql[j]] == sql[from..end]
    ensures EndsWith(sql[from..end], tag) <==> TagEndsAt(sql, tag, from, end)
  {
    var body := sql[from..end];
    if |tag| <= |body| {
      assert body[|body| - |tag|..] == sql[end - |tag|..end];
    }
  }

  /** No occurrence of the tag ends at or before `j`. */
  predicate Unseen(sql: string, tag: string, from: nat, j: nat) {
    forall end | from < end <= j :: !TagEndsAt(sql, tag, from, end)
  }

  lemma BodyStep(d: Dialect, q: Config, c: char, tag: string, body: string)
    requires q.mode == Dollar(tag, body)
    ensures Step(d, q, c).mode == if EndsWith(body + [c], tag) then Plain else Dollar(tag, body + [c])
  {
  }

  lemma StepDollar(d: Dialect, sql: string, from: nat, j: nat, tag: string, end: nat)
    requires from <= j < |sql| && |tag| > 0 && end == j + 1
    requires After(d, sql, j).mode == Dollar(tag, sql[from..j])
    ensures After(d, sql, end).mode == if TagEndsAt(sql, tag, from, end) then Plain else Dollar(tag, sql[from..end])
  {
    TailOccurs(sql, tag, from, j, end);
    BodyStep(d, After(d, sql, j), sql[j], tag, sql[from..j]);
    assert After(d, sql, end) == Step(d, After(d, sql, j), sql[j]);
  }

  lemma {:induction false} DollarUntil(d: Dialect, sql: string, from: nat, j: nat, tag: string)
    requires from <= j <= |sql| && |tag| > 0
    requires After(d, sql, from).mode == Dollar(tag, "") && Unseen(sql, tag, from, j)
    ensures After(d, sql, j).mode == Dollar(tag, sql[from..j])
    decreases j
  {
    if j == from {
      assert sql[from..j] == "";
    } else {
      var before := j - 1;
      DollarUntil(d, sql, from, before, tag);
      StepDollar(d, sql, from, before, tag, j);
      assert !TagEndsAt(sql, tag, from, j);
    }
  }

  lemma FirstOccurrence(sql: string, tag: string, from: nat, k: nat)
    requires from <= k && OccursAt(sql, tag, k) && |tag| > 0
    requires forall k' :: from <= k' < k ==> !OccursAt(sql, tag, k')
    ensures DollarEnd(sql, tag, from) == k + |tag|
  {
  }

  lemma UnseenBefore(sql: string, tag: string, from: nat, k: nat)
    requires from <= |sql| && |tag| > 0 && k <= DollarEnd(sql, tag, from)
    requires IndexOf(sql, tag, from).Some? ==> k < DollarEnd(sql, tag, from)
    ensures Unseen(sql, tag, from, k)
  {
  }

  lemma DollarOpen(d: Dialect, sql: string, from: nat, k: nat, tag: string)
    requires from <= k < DollarEnd(sql, tag, from) && from <= |sql| && |tag| > 0
    requires After(d, sql, from).mode == Dollar(tag, "")
    ensures After(d, sql, k).mode == Dollar(tag, sql[from..k])
  {
    UnseenBefore(sql, tag, from, k);
    DollarUntil(d, sql, from, k, tag);
  }

  lemma DollarEndIsTagEnd(sql: string, tag: string, from: nat)
    requires |tag| > 0 && IndexOf(sql, tag, from).Some?
    ensures from < DollarEnd(sql, tag, from) && TagEndsAt(sql, tag, from, DollarEnd(sql, tag, from))
  {
  }

  lemma DollarCloses(d: Dialect, sql: string, from: nat, tag: string)
    requires from <= |sql| && |tag| > 0 && IndexOf(sql, tag, from).Some?
    requires After(d, sql, from).mode == Dollar(tag, "")
    ensures After(d, sql, DollarEnd(sql, tag, from)).mode == Plain
  {
    DollarEndIsTagEnd(sql, tag, from);
    var end := DollarEnd(sql, tag, from);
    var before := end - 1;
    DollarOpen(d, sql, from, before, tag);
    StepDollar(d, sql, from, before, tag, end);
  }

  lemma ReadDollar(d: Dialect, sql: string, from: nat, tag: string)
    requires from <= |sql| && |tag| > 0
    requires After(d, sql, from).mode == Dollar(tag, "")
    ensures NoCut(d, sql, from, DollarEnd(sql, tag, from)) && AtHead(d, sql, DollarEnd(sql, tag, from))
  {
    forall k | from <= k < DollarEnd(sql, tag, from) ensures !Cut(d, sql, k) {
      DollarOpen(d, sql, from, k, tag);
    }
    if IndexOf(sql, tag, from).Some? {
      DollarCloses(d, sql, from, tag);
    }
  }

  // ---- One step of the scanner's loop ------------------------------------------------

  lemma TwoDashes(d: Dialect, sql: string, i: nat)
    requires i < |sql| && AtHead(d, sql, i) && OpensLineComment(d, sql, i)
    ensures !Cut(d, sql, i) && !Cut(d, sql, i + 1)
    ensures After(d, sql, i + 2).mode == if d.engine.Postgres? then Line else DashDash
  {
    assert After(d, sql, i + 1).mode in {Dash, DashDash};
  }

  lemma LineCommentStep(d: Dialect, sql: string, i: nat)
    requires i < |sql| && AtHead(d, sql, i) && OpensLineComment(d, sql, i)
    ensures NoCut(d, sql, i, SpanEnd(d, sql, i)) && AtHead(d, sql, SpanEnd(d, sql, i))
  {
    TwoDashes(d, sql, i);
    if d.engine.Postgres? {
      ReadLine(d, sql, i + 2);
    } else if i + 2 < |sql| && sql[i + 2] != '\n' {
      assert After(d, sql, i + 3).mode == Line;
      ReadLine(d, sql, i + 3);
    }
  }

  lemma BlockCommentStep(d: Dialect, sql: string, i: nat)
    requires i < |sql| && AtHead(d, sql, i) && At(sql, i, '/') && At(sql, i + 1, '*')
    ensures NoCut(d, sql, i, SpanEnd(d, sql, i)) && AtHead(d, sql, SpanEnd(d, sql, i))
  {
    assert After(d, sql, i + 1).mode == Slash;
    assert After(d, sql, i + 2).mode == Block(false);
    ReadBlock(d, sql, i + 2);
    assert !Cut(d, sql, i) && !Cut(d, sql, i + 1);
  }

  lemma DollarOpens(d: Dialect, sql: string, i: nat)
    requires i < |sql| && AtHead(d, sql, i) && d.engine.Postgres? && sql[i] == '$'
    ensures After(d, sql, i + 1).mode == Tag("") && !Cut(d, sql, i)
  {
    assert WordEnd(sql, i) == i;
  }

  lemma TagCloses(d: Dialect, sql: string, i: nat, j: nat)
    requires i + 1 <= j < |sql| && sql[i] == '$' && sql[j] == '$'
    requires After(d, sql, j).mode == Tag(sql[i + 1..j])
    ensures After(d, sql, j + 1).mode == Dollar(sql[i..j + 1], "") && !Cut(d, sql, j)
  {
    assert "$" + sql[i + 1..j] + "$" == sql[i..j + 1];
    assert After(d, sql, j + 1) == Step(d, After(d, sql, j), '$');
  }

  lemma DollarTagRead(d: Dialect, sql: string, i: nat, tag: string)
    requires i < |sql| && AtHead(d, sql, i) && d.engine.Postgres?
    requires DollarTag(sql, i) == Some(tag)
    ensures After(d, sql, i + |tag|).mode == Dollar(tag, "") && NoCut(d, sql, i, i + |tag|)
  {
    var j := TagSpan(sql, i, tag);
    TagRead(d, sql, i, j);
  }

  lemma TagSpan(sql: string, i: nat, tag: string) returns (j: nat)
    requires i < |sql| && DollarTag(sql, i) == Some(tag)
    ensures sql[i] == '$' && j == WordEnd(sql, i + 1) && At(sql, j, '$')
    ensures i + |tag| == j + 1 && tag == sql[i..j + 1]
  {
    j := WordEnd(sql, i + 1);
  }

  lemma TagRead(d: Dialect, sql: string, i: nat, j: nat)
    requires i < |sql| && AtHead(d, sql, i) && d.engine.Postgres? && sql[i] == '$'
    requires j == WordEnd(sql, i + 1) && At(sql, j, '$')
    ensures After(d, sql, j + 1).mode == Dollar(sql[i..j + 1], "") && NoCut(d, sql, i, j + 1)
  {
    DollarOpens(d, sql, i);
    ReadTag(d, sql, i, j);
    TagCloses(d, sql, i, j);
    NoCutJoined(d, sql, i, j);
  }

  lemma NoCutJoined(d: Dialect, sql: string, i: nat, j: nat)
    requires !Cut(d, sql, i) && NoCut(d, sql, i + 1, j) && !Cut(d, sql, j)
    ensures NoCut(d, sql, i, j + 1)
  {
  }

  lemma TaggedStep(d: Dialect, sql: string, i: nat, tag: string)
    requires i < |sql| && AtHead(d, sql, i) && d.engine.Postgres? && DollarTag(sql, i) == Some(tag)
    ensures i < DollarEnd(sql, tag, i + |tag|)
    ensures NoCut(d, sql, i, DollarEnd(sql, tag, i + |tag|)) && AtHead(d, sql, DollarEnd(sql, tag, i + |tag|))
  {
    DollarTagRead(d, sql, i, tag);
    ReadDollar(d, sql, i + |tag|, tag);
  }

  lemma LoneDollarStep(d: Dialect, sql: string, i: nat)
    requires i < |sql| && AtHead(d, sql, i) && d.engine.Postgres? && sql[i] == '$' && DollarTag(sql, i).None?
    ensures AtHead(d, sql, i + 1) && !Cut(d, sql, i)
  {
    DollarOpens(d, sql, i);
  }

  lemma DollarStep(d: Dialect, sql: string, i: nat)
    requires i < |sql| && AtHead(d, sql, i) && d.engine.Postgres? && sql[i] == '$'
    ensures NoCut(d, sql, i, SpanEnd(d, sql, i))
    ensures SpanEnd(d, sql, i) > i ==> AtHead(d, sql, SpanEnd(d, sql, i))
    ensures SpanEnd(d, sql, i) == i ==> AtHead(d, sql, i + 1) && !Cut(d, sql, i)
  {
    if DollarTag(sql, i).Some? {
      TaggedStep(d, sql, i, DollarTag(sql, i).value);
    } else {
      LoneDollarStep(d, sql, i);
    }
  }

  /** Whether backslashes escape in the string or quoted identifier that opens at `i`. */
  function QuoteBackslash(d: Dialect, sql: string, i: nat): bool
    requires i < |sql|
  {
    if sql[i] == '`' then false
    else if sql[i] == '"' then DoubleQuoteBackslash(d)
    else SingleQuoteBackslash(d, IsEscapePrefix(sql, i))
  }

  predicate OpensQuote(d: Dialect, c: char) {
    c == '\'' || c == '"' || (d.engine.Mysql? && c == '`')
  }

  lemma QuoteOpens(d: Dialect, sql: string, i: nat)
    requires i < |sql| && AtHead(d, sql, i) && OpensQuote(d, sql[i])
    ensures After(d, sql, i + 1).mode == Quoted(sql[i], QuoteBackslash(d, sql, i)) && !Cut(d, sql, i)
    ensures SpanEnd(d, sql, i) == DelimitedEnd(sql, i + 1, sql[i], QuoteBackslash(d, sql, i))
  {
    BeforeQuote(d, sql, i);
  }

  lemma QuoteStep(d: Dialect, sql: string, i: nat)
    requires i < |sql| && AtHead(d, sql, i)
    requires sql[i] == '\'' || sql[i] == '"' || (d.engine.Mysql? && sql[i] == '`')
    ensures NoCut(d, sql, i, SpanEnd(d, sql, i)) && AtHead(d, sql, SpanEnd(d, sql, i))
  {
    QuoteOpens(d, sql, i);
    ReadDelimited(d, sql, i + 1, sql[i], QuoteBackslash(d, sql, i));
  }

  /** A character that opens no span leaves the automaton settled again. */
  lemma OrdinaryStep(d: Dialect, sql: string, i: nat)
    requires i < |sql| && AtHead(d, sql, i) && SpanEnd(d, sql, i) == i
    ensures AtHead(d, sql, i + 1)
    ensures Cut(d, sql, i) <==> sql[i] == ';'
    ensures sql[i] == ';' ==> After(d, sql, i + 1) == START
  {
    if d.engine.Postgres? && sql[i] == '$' {
      DollarStep(d, sql, i);
    } else if i + 1 < |sql| {
      var q := After(d, sql, i);
      if q.mode.Tag? && IsWordChar(sql[i]) {
        assert WordEnd(sql, i) == WordEnd(sql, i + 1);
      } else if sql[i] == '-' {
        assert After(d, sql, i + 1).mode in {Dash, DashDash};
      } else {
        assert After(d, sql, i + 1).mode in {Plain, Slash};
      }
    }
  }

  lemma SpanStep(d: Dialect, sql: string, i: nat)
    requires i < |sql| && AtHead(d, sql, i) && SpanEnd(d, sql, i) > i
    ensures NoCut(d, sql, i, SpanEnd(d, sql, i)) && AtHead(d, sql, SpanEnd(d, sql, i))
  {
    if OpensLineComment(d, sql, i) {
      LineCommentStep(d, sql, i);
    } else if sql[i] == '/' {
      BlockCommentStep(d, sql, i);
    } else if d.engine.Postgres? && sql[i] == '$' {
      DollarStep(d, sql, i);
    } else {
      QuoteStep(d, sql, i);
    }
  }

  lemma PiecesSkip(d: Dialect, sql: string, start: nat, i: nat, j: nat)
    requires start <= i <= j <= |sql| && NoCut(d, sql, i, j)
    ensures Pieces(d, sql, start, i) == Pieces(d, sql, start, j)
    decreases j - i
  {
    if i < j {
      assert !Cut(d, sql, i);
      PiecesSkip(d, sql, start, i + 1, j);
    }
  }

  lemma {:induction false} SegmentsArePieces(d: Dialect, sql: string, start: nat, i: nat)
    requires start <= i <= |sql| && AtHead(d, sql, i)
    ensures Segments(d, sql, start, i) == Pieces(d, sql, start, i)
    decreases |sql| - i
  {
    if i < |sql| {
      var end := SpanEnd(d, sql, i);
      if end > i {
        SpanStep(d, sql, i);
        SegmentsArePieces(d, sql, start, end);
        PiecesSkip(d, sql, start, i, end);
      } else {
        OrdinaryStep(d, sql, i);
        SegmentsArePieces(d, sql, if sql[i] == ';' then i + 1 else start, i + 1);
      }
    }
  }

  /**
   The scanner refines the automaton: on every text, engine and mode, jumping over spans
   cuts the text exactly where reading it one character at a time does.
   */
  lemma ScannerRefinesAutomaton(d: Dialect, sql: string)
    ensures Segments(d, sql, 0, 0) == Pieces(d, sql, 0, 0)
  {
    SegmentsArePieces(d, sql, 0, 0);
  }

  // ---- What follows for statements ---------------------------------------------------

  lemma StepAgrees(d: Dialect, a: string, b: string, k: nat, at: nat)
    requires k < |a| && at < |b| && a[k] == b[at] && After(d, a, k) == After(d, b, at)
    ensures After(d, a, k + 1) == After(d, b, at + 1)
  {
  }

  /** Equal characters read from equal configurations lead to equal configurations. */
  lemma {:induction false} AfterAgrees(d: Dialect, a: string, b: string, start: nat, k: nat, at: nat)
    requires at == start + k && at <= |b| && k <= |a| && After(d, b, start) == START
    requires forall j | 0 <= j < k :: a[j] == b[start + j]
    ensures After(d, a, k) == After(d, b, at)
  {
    if k > 0 {
      AfterAgrees(d, a, b, start, k - 1, at - 1);
      StepAgrees(d, a, b, k - 1, at - 1);
    }
  }

  /** Text read in isolation leaves the automaton where it was left in context. */
  lemma AfterSlice(d: Dialect, sql: string, start: nat, end: nat, k: nat)
    requires start + k <= end <= |sql| && After(d, sql, start) == START
    ensures After(d, sql[start..end], k) == After(d, sql, start + k)
  {
    AfterAgrees(d, sql[start..end], sql, start, k, start + k);
  }

  lemma UncutIsOnePiece(d: Dialect, sql: string, start: nat)
    requires start <= |sql| && NoCut(d, sql, start, |sql|)
    ensures Pieces(d, sql, start, start) == [sql[start..]]
  {
    PiecesSkip(d, sql, start, start, |sql|);
  }

  lemma DelimsAreQuotes(d: Dialect, sql: string, k: nat)
    requires k <= |sql|
    ensures var m := After(d, sql, k).mode;
            m.Quoted? || m.Escaped? || m.Closing? ==> IsQuote(m.delim)
  {
    if k > 0 {
      DelimsAreQuotes(d, sql, k - 1);
    }
  }

  /** A cut leaves nothing open: what follows is read as if the text began there. */
  lemma CutRestarts(d: Dialect, sql: string, k: nat)
    requires Cut(d, sql, k)
    ensures After(d, sql, k + 1) == START
  {
    DelimsAreQuotes(d, sql, k);
  }

  /** Every piece, read on its own, has no cut. */
  lemma {:induction false} PiecesAreUncut(d: Dialect, sql: string, start: nat, k: nat, piece: string)
    requires start <= k <= |sql| && After(d, sql, start) == START && NoCut(d, sql, start, k)
    requires piece in Pieces(d, sql, start, k)
    ensures NoCut(d, piece, 0, |piece|)
    decreases |sql| - k
  {
    if k < |sql| && !Cut(d, sql, k) {
      PiecesAreUncut(d, sql, start, k + 1, piece);
    } else if k < |sql| && piece != sql[start..k] {
      CutRestarts(d, sql, k);
      PiecesAreUncut(d, sql, k + 1, k + 1, piece);
    } else {
      assert piece == sql[start..k];
      forall j | 0 <= j < |piece| ensures !Cut(d, piece, j) {
        AfterSlice(d, sql, start, k, j);
        assert !Cut(d, sql, start + j);
      }
    }
  }

  lemma {:induction false} JoinPieces(d: Dialect, sql: string, start: nat, k: nat)
    requires start <= k <= |sql|
    ensures Join(Pieces(d, sql, start, k), ";") == sql[start..]
    decreases |sql| - k
  {
    if k < |sql| {
      if Cut(d, sql, k) {
        JoinPieces(d, sql, k + 1, k + 1);
        assert sql[start..] == sql[start..k] + ";" + sql[k + 1..];
      } else {
        JoinPieces(d, sql, start, k + 1);
      }
    }
  }

  /** Nothing is lost by splitting: the unfiltered segments, joined, are the input. */
  lemma SplitThenJoin(d: Dialect, sql: string)
    ensures Join(Segments(d, sql, 0, 0), ";") == sql
  {
    ScannerRefinesAutomaton(d, sql);
    JoinPieces(d, sql, 0, 0);
    assert sql[0..] == sql;
  }

  /** A text the automaton never cuts, with content, is exactly one statement. */
  lemma UncutIsOneStatement(d: Dialect, sql: string)
    requires NoCut(d, sql, 0, |sql|)
    ensures Segments(d, sql, 0, 0) == [sql]
    ensures Statements(d, sql) == if HasContent(sql) then [sql] else []
  {
    ScannerRefinesAutomaton(d, sql);
    UncutIsOnePiece(d, sql, 0);
    assert sql[0..] == sql;
    assert Kept([sql][1..]) == [];
  }

  lemma OneSegmentIsUncut(d: Dialect, sql: string)
    requires |Segments(d, sql, 0, 0)| == 1
    ensures NoCut(d, sql, 0, |sql|)
  {
    ScannerRefinesAutomaton(d, sql);
    OnePieceIsUncut(d, sql, 0, 0);
  }

  lemma {:induction false} OnePieceIsUncut(d: Dialect, sql: string, start: nat, k: nat)
    requires start <= k <= |sql| && |Pieces(d, sql, start, k)| == 1
    ensures NoCut(d, sql, k, |sql|)
    decreases |sql| - k
  {
    if k < |sql| {
      OnePieceIsUncut(d, sql, start, k + 1);
    }
  }

  /** Splitting is stable: each statement, split on its own, is that one statement. */
  lemma StatementsAreStable(d: Dialect, sql: string, statement: string)
    requires statement in Statements(d, sql)
    ensures Segments(d, statement, 0, 0) == [statement]
    ensures Statements(d, statement) == [statement]
  {
    ScannerRefinesAutomaton(d, sql);
    PiecesAreUncut(d, sql, 0, 0, statement);
    UncutIsOneStatement(d, statement);
  }

  // ---- Trimming ----------------------------------------------------------------------

  lemma {:induction false} LineEndShift(s: string, j: nat)
    requires 1 <= j <= |s|
    ensures LineEnd(s, j) == LineEnd(s[1..], j - 1) + 1
    decreases |s| - j
  {
    if j < |s| && s[j] != '\n' {
      LineEndShift(s, j + 1);
    }
  }

  lemma {:induction false} BlockStopShift(s: string, j: nat)
    requires 1 <= j <= |s|
    ensures BlockStop(s, j) == BlockStop(s[1..], j - 1) + 1
    decreases |s| - j
  {
    if j < |s| && !(s[j] == '*' && At(s, j + 1, '/')) {
      BlockStopShift(s, j + 1);
    }
  }

  /** Whether anything but blanks and comments follows does not depend on what precedes. */
  lemma {:induction false} ContentShift(s: string, i: nat)
    requires 1 <= i
    ensures s != "" ==> (KeywordFrom(s, i).Some? <==> KeywordFrom(s[1..], i - 1).Some?)
    decreases |s| - i
  {
    if i < |s| {
      var t := s[1..];
      if IsSpace(s[i]) {
        ContentShift(s, i + 1);
      } else if s[i] == '-' && At(s, i + 1, '-') {
        LineEndShift(s, i + 2);
        ContentShift(s, LineEnd(s, i + 2));
      } else if s[i] == '/' && At(s, i + 1, '*') {
        BlockStopShift(s, i + 2);
        ContentShift(s, BlockStop(s, i + 2) + 2);
      }
    }
  }

  lemma {:induction false} LineEndPrefix(s: string, j: nat)
    requires j < |s|
    ensures LineEnd(s, j) >= |s| - 1 || LineEnd(s[..|s| - 1], j) == LineEnd(s, j)
    decreases |s| - j
  {
    if s[j] != '\n' && j + 1 < |s| {
      LineEndPrefix(s, j + 1);
    }
  }

  lemma {:induction false} BlockStopPrefix(s: string, j: nat)
    requires j < |s| && s[|s| - 1] != '/'
    ensures BlockStop(s, j) >= |s| - 1 || BlockStop(s[..|s| - 1], j) == BlockStop(s, j)
    decreases |s| - j
  {
    if !(s[j] == '*' && At(s, j + 1, '/')) && j + 1 < |s| {
      BlockStopPrefix(s, j + 1);
    }
  }

  lemma {:induction false} ContentPrefix(s: string, i: nat)
    requires s != "" && IsSpace(s[|s| - 1]) && KeywordFrom(s, i).Some?
    ensures KeywordFrom(s[..|s| - 1], i).Some?
    decreases |s| - i
  {
    if IsSpace(s[i]) {
      ContentPrefix(s, i + 1);
    } else if s[i] == '-' && At(s, i + 1, '-') {
      LineEndPrefix(s, i + 2);
      ContentPrefix(s, LineEnd(s, i + 2));
    } else if s[i] == '/' && At(s, i + 1, '*') {
      BlockStopPrefix(s, i + 2);
      ContentPrefix(s, BlockStop(s, i + 2) + 2);
    }
  }

  lemma {:induction false} UncutSlice(d: Dialect, sql: string, start: nat, end: nat)
    requires start <= end <= |sql| && After(d, sql, start) == START && NoCut(d, sql, 0, |sql|)
    ensures NoCut(d, sql[start..end], 0, end - start)
  {
    forall k | 0 <= k < end - start ensures !Cut(d, sql[start..end], k) {
      AfterSlice(d, sql, start, end, k);
      assert !Cut(d, sql, start + k);
    }
  }

  lemma {:induction false} TrimStartKeeps(d: Dialect, s: string)
    requires NoCut(d, s, 0, |s|)
    ensures NoCut(d, TrimStart(s), 0, |TrimStart(s)|)
    ensures HasContent(s) ==> HasContent(TrimStart(s))
  {
    if s != "" && IsSpace(s[0]) {
      assert After(d, s, 1) == START;
      UncutSlice(d, s, 1, |s|);
      assert s[1..|s|] == s[1..];
      ContentShift(s, 1);
      TrimStartKeeps(d, s[1..]);
    }
  }

  lemma {:induction false} TrimEndKeeps(d: Dialect, s: string)
    requires NoCut(d, s, 0, |s|)
    ensures NoCut(d, TrimEnd(s), 0, |TrimEnd(s)|)
    ensures HasContent(s) ==> HasContent(TrimEnd(s))
  {
    if s != "" && IsSpace(s[|s| - 1]) {
      UncutSlice(d, s, 0, |s| - 1);
      assert s[0..|s| - 1] == s[..|s| - 1];
      if HasContent(s) {
        ContentPrefix(s, 0);
      }
      TrimEndKeeps(d, s[..|s| - 1]);
    }
  }

  /** Trimming a statement leaves it one statement. */
  lemma TrimmedIsOneStatement(d: Dialect, sql: string, statement: string)
    requires statement in Statements(d, sql)
    ensures Statements(d, Trim(statement)) == [Trim(statement)]
  {
    StatementsAreStable(d, sql, statement);
    OneSegmentIsUncut(d, statement);
    TrimStartKeeps(d, statement);
    TrimEndKeeps(d, TrimStart(statement));
    UncutIsOneStatement(d, Trim(statement));
  }
}
