/**
 Text composed from fixed words, quoted identifiers and positional placeholders. Whatever
 the identifiers hold, such text scans back to one statement with exactly those identifiers
 and placeholders in it.
 */
module SqlFragments {
  import opened Text
  import opened SqlScanner
  import opened SqlAutomaton
  import opened SqlTokens

  // ---- Identifiers and placeholders --------------------------------------------------

  function QuoteChar(engine: Engine): char {
    if engine.Postgres? then '"' else '`'
  }

  function Doubled(s: string, q: char): string {
    if s == "" then "" else (if s[0] == q then [q, q] else [s[0]]) + Doubled(s[1..], q)
  }

  function QuoteIdent(engine: Engine, ident: string): string {
    [QuoteChar(engine)] + Doubled(ident, QuoteChar(engine)) + [QuoteChar(engine)]
  }

  function Placeholder(engine: Engine, index: nat): string {
    if engine.Postgres? then "$" + Decimal(index) else "?"
  }

  function Undoubled(s: string, q: char): string {
    if s == "" then ""
    else if s[0] == q && |s| > 1 && s[1] == q then [q] + Undoubled(s[2..], q)
    else [s[0]] + Undoubled(s[1..], q)
  }

  /** Distinct identifiers are quoted differently: the quoting can be undone. */
  lemma {:induction false} QuotingIsReversible(ident: string, q: char)
    ensures Undoubled(Doubled(ident, q), q) == ident
  {
    if ident != "" {
      QuotingIsReversible(ident[1..], q);
      var rest := Doubled(ident[1..], q);
      if ident[0] == q {
        assert ([q, q] + rest)[2..] == rest;
      } else {
        assert ([ident[0]] + rest)[1..] == rest;
      }
    }
  }

  function QuoteAll(engine: Engine, names: seq<string>): seq<string> {
    if names == [] then [] else [QuoteIdent(engine, names[0])] + QuoteAll(engine, names[1..])
  }

  // ---- Fragments: what the text is meant to say --------------------------------------

  /** Fixed text: opens no span, ends no statement, holds no place. */
  predicate Fixed(text: string) {
    text != "" && Inert(text) && forall k | 0 <= k < |text| :: text[k] != ';' && text[k] != '?'
  }

  type FixedText = s: string | Fixed(s) witness "SELECT"

  datatype Fragment =
    | Nothing
    | Literal(text: FixedText)
    | Ident(name: string)
    | Param(index: nat)
    | Then(first: Fragment, rest: Fragment)

  function Render(engine: Engine, f: Fragment): string {
    match f
    case Nothing => ""
    case Literal(text) => text
    case Ident(name) => QuoteIdent(engine, name)
    case Param(index) => Placeholder(engine, index)
    case Then(a, b) => Render(engine, a) + Render(engine, b)
  }

  /** What a fragment stands for, and then `rest`: an identifier is one span. */
  function Meaning(engine: Engine, f: Fragment, rest: seq<Token>): seq<Token> {
    match f
    case Nothing => rest
    case Literal(text) => CharsThen(text, rest)
    case Ident(name) => [Span(QuoteIdent(engine, name))] + rest
    case Param(index) => CharsThen(Placeholder(engine, index), rest)
    case Then(a, b) => Meaning(engine, a, Meaning(engine, b, rest))
  }

  function Names(f: Fragment): seq<string> {
    match f
    case Ident(name) => [name]
    case Then(a, b) => Names(a) + Names(b)
    case _ => []
  }

  function Indexes(f: Fragment): seq<nat> {
    match f
    case Param(index) => [index]
    case Then(a, b) => Indexes(a) + Indexes(b)
    case _ => []
  }

  /** Nothing after an identifier or placeholder can be read as part of it. */
  predicate Separates(text: string) {
    text == "" || (text[0] != '"' && text[0] != '`' && text[0] != '$' && !IsWordChar(text[0]))
  }

  /** Whether the text is left open, just after an identifier or placeholder. */
  function Leaves(f: Fragment, open: bool): bool {
    match f
    case Nothing => open
    case Literal(_) => false
    case Ident(_) => true
    case Param(_) => true
    case Then(a, b) => Leaves(b, Leaves(a, open))
  }

  /** Where the text is open, a separator comes next. */
  predicate Spaced(f: Fragment, open: bool) {
    match f
    case Nothing => true
    case Literal(text) => open ==> Separates(text)
    case Ident(_) => !open
    case Param(_) => !open
    case Then(a, b) => Spaced(a, open) && Spaced(b, Leaves(a, open))
  }

  /** What stands at `j` cannot be read as part of an identifier or placeholder before it. */
  predicate SeparatorAt(sql: string, j: nat) {
    j < |sql| ==> Separates([sql[j]])
  }

  // ---- Reading one piece -------------------------------------------------------------

  lemma ReadsSplit(sql: string, i: nat, a: string, b: string)
    requires Reads(sql, i, a + b)
    ensures Reads(sql, i, a) && Reads(sql, i + |a|, b)
  {
    var j, end := i + |a|, i + |a| + |b|;
    var all := sql[i..end];
    assert all == a + b;
    forall k | 0 <= k < |a| ensures sql[i + k] == a[k] {
      assert sql[i + k] == all[k];
    }
    forall k | 0 <= k < |b| ensures sql[j + k] == b[k] {
      assert sql[j + k] == all[|a| + k];
    }
    assert sql[i..j] == a;
    assert sql[j..end] == b;
  }

  lemma ReadsFirst(sql: string, i: nat, text: string)
    requires Reads(sql, i, text) && text != ""
    ensures sql[i] == text[0]
  {
    assert sql[i] == sql[i..i + |text|][0];
  }

  lemma ReadsTwo(sql: string, i: nat, a: char, b: char)
    requires Reads(sql, i, [a, b])
    ensures sql[i] == a && sql[i + 1] == b
  {
    assert sql[i] == sql[i..i + 2][0] && sql[i + 1] == sql[i..i + 2][1];
  }

  lemma {:induction false} QuotedEnd(sql: string, j: nat, s: string, q: char)
    requires q != '\\'
    requires Reads(sql, j, Doubled(s, q)) && At(sql, j + |Doubled(s, q)|, q)
    requires !At(sql, j + |Doubled(s, q)| + 1, q)
    ensures DelimitedEnd(sql, j, q, false) == j + |Doubled(s, q)| + 1
    decreases |s|
  {
    if s != "" {
      var rest := Doubled(s[1..], q);
      if s[0] == q {
        ReadsSplit(sql, j, [q, q], rest);
        ReadsTwo(sql, j, q, q);
        QuotedEnd(sql, j + 2, s[1..], q);
      } else {
        ReadsSplit(sql, j, [s[0]], rest);
        ReadsFirst(sql, j, [s[0]]);
        QuotedEnd(sql, j + 1, s[1..], q);
      }
    }
  }

  /** The opening quote, the doubled name, and the closing quote. */
  lemma QuotedParts(sql: string, i: nat, name: string, q: char)
    requires Reads(sql, i, [q] + Doubled(name, q) + [q])
    ensures At(sql, i, q) && Reads(sql, i + 1, Doubled(name, q)) && At(sql, i + 1 + |Doubled(name, q)|, q)
  {
    var body := Doubled(name, q);
    ReadsSplit(sql, i, [q] + body, [q]);
    ReadsSplit(sql, i, [q], body);
    ReadsFirst(sql, i, [q]);
    ReadsFirst(sql, i + 1 + |body|, [q]);
  }

  lemma QuoteToken(d: Dialect, sql: string, i: nat, end: nat)
    requires At(sql, i, QuoteChar(d.engine)) && i < end
    requires end == DelimitedEnd(sql, i + 1, QuoteChar(d.engine), false)
    ensures Tokens(d, sql, i) == [Span(sql[i..end])] + Tokens(d, sql, end)
  {
    assert SpanEnd(d, sql, i) == end;
  }

  lemma IdentReads(d: Dialect, sql: string, i: nat, name: string, end: nat)
    requires Reads(sql, i, QuoteIdent(d.engine, name))
    requires end == i + |QuoteIdent(d.engine, name)| && SeparatorAt(sql, end)
    ensures Tokens(d, sql, i) == [Span(QuoteIdent(d.engine, name))] + Tokens(d, sql, end)
  {
    var q := QuoteChar(d.engine);
    QuotedParts(sql, i, name, q);
    QuotedEnd(sql, i + 1, name, q);
    QuoteToken(d, sql, i, end);
  }

  lemma {:induction false} DigitRun(sql: string, j: nat, digits: string)
    requires Reads(sql, j, digits) && AllDigits(digits) && SeparatorAt(sql, j + |digits|)
    ensures WordEnd(sql, j) == j + |digits|
    decreases |digits|
  {
    if digits != "" {
      ReadsFirst(sql, j, digits);
      assert digits == digits[..1] + digits[1..];
      ReadsSplit(sql, j, digits[..1], digits[1..]);
      DigitRun(sql, j + 1, digits[1..]);
    }
  }

  lemma LoneDollar(d: Dialect, sql: string, i: nat)
    requires d.engine.Postgres? && At(sql, i, '$') && DollarTag(sql, i) == None
    ensures Tokens(d, sql, i) == [Char('$')] + Tokens(d, sql, i + 1)
  {
  }

  lemma NoTag(sql: string, i: nat)
    requires At(sql, i, '$') && SeparatorAt(sql, WordEnd(sql, i + 1))
    ensures DollarTag(sql, i) == None
  {
  }

  lemma DollarReads(d: Dialect, sql: string, i: nat, digits: string, end: nat)
    requires d.engine.Postgres? && AllDigits(digits) && At(sql, i, '$')
    requires Reads(sql, i + 1, digits) && end == i + 1 + |digits| && SeparatorAt(sql, end)
    ensures Tokens(d, sql, i) == [Char('$')] + CharsThen(digits, Tokens(d, sql, end))
  {
    DigitRun(sql, i + 1, digits);
    NoTag(sql, i);
    LoneDollar(d, sql, i);
    InertText(d, sql, i + 1, digits, end);
  }

  lemma DollarChars(digits: string, rest: seq<Token>)
    ensures CharsThen("$" + digits, rest) == [Char('$')] + CharsThen(digits, rest)
  {
    assert ("$" + digits)[1..] == digits;
  }

  lemma ParamReads(d: Dialect, sql: string, i: nat, index: nat, end: nat)
    requires Reads(sql, i, Placeholder(d.engine, index))
    requires end == i + |Placeholder(d.engine, index)| && SeparatorAt(sql, end)
    ensures Tokens(d, sql, i) == CharsThen(Placeholder(d.engine, index), Tokens(d, sql, end))
  {
    if d.engine.Mysql? {
      InertText(d, sql, i, "?", end);
    } else {
      var digits := Decimal(index);
      ReadsSplit(sql, i, "$", digits);
      ReadsFirst(sql, i, "$");
      DollarReads(d, sql, i, digits, end);
      DollarChars(digits, Tokens(d, sql, end));
    }
  }

  // ---- Reading a fragment ------------------------------------------------------------

  /** A fragment that may stand where the text is open begins with a separator. */
  lemma {:induction false} OpenIsSeparated(engine: Engine, sql: string, i: nat, f: Fragment)
    requires Spaced(f, true) && Reads(sql, i, Render(engine, f))
    requires Leaves(f, true) ==> SeparatorAt(sql, i + |Render(engine, f)|)
    ensures SeparatorAt(sql, i)
    decreases f
  {
    match f
    case Literal(text) => ReadsFirst(sql, i, text);
    case Then(a, b) =>
      ReadsSplit(sql, i, Render(engine, a), Render(engine, b));
      if Leaves(a, true) {
        OpenIsSeparated(engine, sql, i + |Render(engine, a)|, b);
      }
      OpenIsSeparated(engine, sql, i, a);
    case _ =>
  }

  lemma PieceReads(d: Dialect, sql: string, i: nat, f: Fragment, end: nat)
    requires !f.Then? && Reads(sql, i, Render(d.engine, f)) && end == i + |Render(d.engine, f)|
    requires f.Ident? || f.Param? ==> SeparatorAt(sql, end)
    ensures Tokens(d, sql, i) == Meaning(d.engine, f, Tokens(d, sql, end))
  {
    match f
    case Nothing =>
    case Literal(text) => InertText(d, sql, i, text, end);
    case Ident(name) => IdentReads(d, sql, i, name, end);
    case Param(index) => ParamReads(d, sql, i, index, end);
  }

  lemma ThenSplits(engine: Engine, sql: string, i: nat, f: Fragment, end: nat, open: bool) returns (mid: nat)
    requires f.Then? && Spaced(f, open) && Reads(sql, i, Render(engine, f)) && end == i + |Render(engine, f)|
    requires Leaves(f, open) ==> SeparatorAt(sql, end)
    ensures Reads(sql, i, Render(engine, f.first)) && mid == i + |Render(engine, f.first)|
    ensures Reads(sql, mid, Render(engine, f.rest)) && end == mid + |Render(engine, f.rest)|
    ensures Leaves(f.first, open) ==> SeparatorAt(sql, mid)
  {
    mid := i + |Render(engine, f.first)|;
    ReadsSplit(sql, i, Render(engine, f.first), Render(engine, f.rest));
    if Leaves(f.first, open) {
      OpenIsSeparated(engine, sql, mid, f.rest);
    }
  }

  /** A well-spaced fragment is read as what it stands for, wherever it occurs. */
  lemma {:induction false} FragmentReads(d: Dialect, sql: string, i: nat, f: Fragment, end: nat, open: bool)
    requires Spaced(f, open) && Reads(sql, i, Render(d.engine, f)) && end == i + |Render(d.engine, f)|
    requires Leaves(f, open) ==> SeparatorAt(sql, end)
    ensures Tokens(d, sql, i) == Meaning(d.engine, f, Tokens(d, sql, end))
    decreases f
  {
    if f.Then? {
      var mid := ThenSplits(d.engine, sql, i, f, end, open);
      FragmentReads(d, sql, i, f.first, mid, open);
      FragmentReads(d, sql, mid, f.rest, end, Leaves(f.first, open));
    } else {
      PieceReads(d, sql, i, f, end);
    }
  }

  /** Text rendered from a well-spaced fragment scans back to it, whatever the names hold. */
  lemma RenderedTokens(d: Dialect, f: Fragment)
    requires Spaced(f, false)
    ensures Tokens(d, Render(d.engine, f), 0) == Meaning(d.engine, f, [])
  {
    var sql := Render(d.engine, f);
    assert sql[0..|sql|] == sql;
    FragmentReads(d, sql, 0, f, |sql|, false);
  }

  predicate NoSemicolon(text: string) {
    forall k | 0 <= k < |text| :: text[k] != ';'
  }

  lemma {:induction false} NoSemicolonChars(text: string, rest: seq<Token>)
    requires NoSemicolon(text)
    ensures Semicolons(CharsThen(text, rest)) == Semicolons(rest)
  {
    if text != "" {
      NoSemicolonChars(text[1..], rest);
    }
  }

  lemma PlaceholderHasNoSemicolon(engine: Engine, index: nat)
    ensures NoSemicolon(Placeholder(engine, index))
  {
    var ph := Placeholder(engine, index);
    if engine.Postgres? {
      assert forall k | 1 <= k < |ph| :: ph[k] == Decimal(index)[k - 1];
    }
  }

  lemma {:induction false} MeaningHasNoSemicolon(engine: Engine, f: Fragment, rest: seq<Token>)
    ensures Semicolons(Meaning(engine, f, rest)) == Semicolons(rest)
    decreases f
  {
    match f
    case Literal(text) => NoSemicolonChars(text, rest);
    case Param(index) =>
      PlaceholderHasNoSemicolon(engine, index);
      NoSemicolonChars(Placeholder(engine, index), rest);
    case Then(a, b) =>
      MeaningHasNoSemicolon(engine, b, rest);
      MeaningHasNoSemicolon(engine, a, Meaning(engine, b, rest));
    case _ =>
  }

  /** A statement composed of a fragment that begins with a keyword is one statement. */
  lemma RenderedIsOneStatement(d: Dialect, f: Fragment)
    requires Spaced(f, false)
    requires var sql := Render(d.engine, f); sql != "" && IsWordStart(sql[0])
    ensures Statements(d, Render(d.engine, f)) == [Render(d.engine, f)]
  {
    var sql := Render(d.engine, f);
    RenderedTokens(d, f);
    MeaningHasNoSemicolon(d.engine, f, []);
    SegmentCount(d, sql, 0, 0);
    OneSegmentIsUncut(d, sql);
    UncutIsOneStatement(d, sql);
    assert !IsSpace(sql[0]) && HasContent(sql);
  }

  // ---- What a scan of the statement finds: its spans and its placeholders ------------

  function SpanTexts(toks: seq<Token>): seq<string> {
    if toks == [] then []
    else (if toks[0].Span? then [toks[0].text] else []) + SpanTexts(toks[1..])
  }

  function DigitRunLength(toks: seq<Token>): (n: nat)
    ensures n <= |toks|
    ensures forall t :: t in toks[..n] ==> t.Char?
  {
    if toks != [] && toks[0].Char? && '0' <= toks[0].c <= '9' then 1 + DigitRunLength(toks[1..]) else 0
  }

  /**
   The parameter each placeholder takes, in text order. On MySQL the k-th `?` takes the k-th
   parameter; on Postgres `$n` names its own.
   */
  function Slots(engine: Engine, toks: seq<Token>, next: nat): seq<nat> {
    if toks == [] then []
    else if engine.Mysql? && toks[0] == Char('?') then [next] + Slots(engine, toks[1..], next + 1)
    else if engine.Postgres? && toks[0] == Char('$') then
      [Value(Spelling(toks[1..][..DigitRunLength(toks[1..])]))] + Slots(engine, toks[1..], next + 1)
    else Slots(engine, toks[1..], next)
  }

  /** `from`, `from + 1`, and so on: `n` of them. */
  function Counting(from: nat, n: nat): (r: seq<nat>)
    ensures |r| == n
    decreases n
  {
    if n == 0 then [] else [from] + Counting(from + 1, n - 1)
  }

  lemma {:induction false} SpansOfChars(text: string, rest: seq<Token>)
    ensures SpanTexts(CharsThen(text, rest)) == SpanTexts(rest)
  {
    if text != "" {
      SpansOfChars(text[1..], rest);
    }
  }

  lemma {:induction false} QuoteAllConcat(engine: Engine, a: seq<string>, b: seq<string>)
    ensures QuoteAll(engine, a + b) == QuoteAll(engine, a) + QuoteAll(engine, b)
  {
    if a == [] {
      assert a + b == b;
    } else {
      assert (a + b)[1..] == a[1..] + b;
      QuoteAllConcat(engine, a[1..], b);
    }
  }

  /** The spans found are exactly the identifiers, quoted, in order. */
  lemma {:induction false} SpansAreNames(engine: Engine, f: Fragment, rest: seq<Token>)
    ensures SpanTexts(Meaning(engine, f, rest)) == QuoteAll(engine, Names(f)) + SpanTexts(rest)
    decreases f
  {
    match f
    case Nothing =>
    case Literal(text) => SpansOfChars(text, rest);
    case Ident(name) =>
      assert QuoteAll(engine, [name][1..]) == [];
    case Param(index) => SpansOfChars(Placeholder(engine, index), rest);
    case Then(a, b) =>
      var after := Meaning(engine, b, rest);
      SpansAreNames(engine, b, rest);
      SpansAreNames(engine, a, after);
      QuoteAllConcat(engine, Names(a), Names(b));
      Chained(SpanTexts(Meaning(engine, a, after)), QuoteAll(engine, Names(a)), SpanTexts(after),
              QuoteAll(engine, Names(b)), SpanTexts(rest));
  }

  lemma {:induction false} SlotsOfPlain(engine: Engine, text: string, rest: seq<Token>, next: nat)
    requires forall k | 0 <= k < |text| :: text[k] != '?' && text[k] != '$'
    ensures Slots(engine, CharsThen(text, rest), next) == Slots(engine, rest, next)
  {
    if text != "" {
      SlotsOfPlain(engine, text[1..], rest, next);
    }
  }

  predicate NotInWord(rest: seq<Token>) {
    rest != [] && rest[0].Char? ==> !IsWordChar(rest[0].c)
  }

  lemma {:induction false} DigitsThenOther(digits: string, rest: seq<Token>)
    requires AllDigits(digits) && NotInWord(rest)
    ensures var toks := CharsThen(digits, rest);
            DigitRunLength(toks) == |digits| && Spelling(toks[..|digits|]) == digits
  {
    var toks := CharsThen(digits, rest);
    if digits == "" {
      assert toks[..0] == [];
    } else {
      DigitsThenOther(digits[1..], rest);
      var tail := CharsThen(digits[1..], rest);
      assert toks[1..] == tail;
      assert toks[..|digits|][1..] == tail[..|digits| - 1];
    }
  }

  lemma SlotOfDollar(digits: string, rest: seq<Token>, next: nat)
    requires AllDigits(digits) && NotInWord(rest)
    ensures Slots(Postgres, [Char('$')] + CharsThen(digits, rest), next) ==
            [Value(digits)] + Slots(Postgres, rest, next + 1)
  {
    DigitsThenOther(digits, rest);
    SlotsOfPlain(Postgres, digits, rest, next + 1);
    assert ([Char('$')] + CharsThen(digits, rest))[1..] == CharsThen(digits, rest);
  }

  lemma SlotOfPlaceholder(engine: Engine, index: nat, rest: seq<Token>, next: nat)
    requires engine.Mysql? ==> index == next
    requires NotInWord(rest)
    ensures Slots(engine, CharsThen(Placeholder(engine, index), rest), next) ==
            [index] + Slots(engine, rest, next + 1)
  {
    if engine.Mysql? {
      assert CharsThen("?", rest) == [Char('?')] + rest;
    } else {
      DollarChars(Decimal(index), rest);
      DecimalValue(index);
      SlotOfDollar(Decimal(index), rest, next);
    }
  }

  lemma {:induction false} FirstOfMeaning(engine: Engine, f: Fragment, rest: seq<Token>)
    requires Spaced(f, true)
    requires Leaves(f, true) ==> NotInWord(rest)
    ensures NotInWord(Meaning(engine, f, rest))
    decreases f
  {
    match f
    case Then(a, b) =>
      if Leaves(a, true) {
        FirstOfMeaning(engine, b, rest);
      }
      FirstOfMeaning(engine, a, Meaning(engine, b, rest));
    case _ =>
  }

  lemma CountingThen(f: Fragment, next: nat)
    requires f.Then? && Indexes(f) == Counting(next, |Indexes(f)|)
    ensures Indexes(f.first) == Counting(next, |Indexes(f.first)|)
    ensures Indexes(f.rest) == Counting(next + |Indexes(f.first)|, |Indexes(f.rest)|)
  {
    var n := |Indexes(f.first)|;
    CountingSplit(next, n, |Indexes(f.rest)|);
    assert Indexes(f)[..n] == Indexes(f.first) && Indexes(f)[n..] == Indexes(f.rest);
  }

  lemma CountingOne(next: nat)
    ensures Counting(next, 1) == [next]
  {
  }

  lemma SlotsOfPiece(engine: Engine, f: Fragment, rest: seq<Token>, next: nat)
    requires !f.Then? && (f.Param? ==> NotInWord(rest)) && Indexes(f) == Counting(next, |Indexes(f)|)
    ensures Slots(engine, Meaning(engine, f, rest), next) ==
            Indexes(f) + Slots(engine, rest, next + |Indexes(f)|)
  {
    match f
    case Nothing =>
    case Literal(text) => SlotsOfPlain(engine, text, rest, next);
    case Ident(name) =>
    case Param(index) =>
      CountingOne(next);
      SlotOfPlaceholder(engine, index, rest, next);
  }

  lemma RestIsSeparated(engine: Engine, f: Fragment, open: bool, rest: seq<Token>, next: nat)
    requires f.Then? && Spaced(f, open) && (Leaves(f, open) ==> NotInWord(rest))
    ensures Leaves(f.first, open) ==> NotInWord(Meaning(engine, f.rest, rest))
  {
    if Leaves(f.first, open) {
      FirstOfMeaning(engine, f.rest, rest);
    }
  }

  /** The placeholders found are exactly those meant, in order. */
  lemma {:induction false} SlotsAreIndexes(
    engine: Engine, f: Fragment, open: bool, rest: seq<Token>, next: nat)
    requires Spaced(f, open) && (Leaves(f, open) ==> NotInWord(rest))
    requires Indexes(f) == Counting(next, |Indexes(f)|)
    ensures Slots(engine, Meaning(engine, f, rest), next) ==
            Indexes(f) + Slots(engine, rest, next + |Indexes(f)|)
    decreases f
  {
    if f.Then? {
      var after, mid := Meaning(engine, f.rest, rest), next + |Indexes(f.first)|;
      CountingThen(f, next);
      RestIsSeparated(engine, f, open, rest, next);
      SlotsAreIndexes(engine, f.first, open, after, next);
      SlotsAreIndexes(engine, f.rest, Leaves(f.first, open), rest, mid);
      Chained(Slots(engine, Meaning(engine, f, rest), next), Indexes(f.first), Slots(engine, after, mid),
              Indexes(f.rest), Slots(engine, rest, mid + |Indexes(f.rest)|));
      assert mid + |Indexes(f.rest)| == next + |Indexes(f)|;
    } else {
      SlotsOfPiece(engine, f, rest, next);
    }
  }

  lemma {:induction false} CountingConcat(from: nat, m: nat, n: nat)
    ensures Counting(from, m) + Counting(from + m, n) == Counting(from, m + n)
    decreases m
  {
    if m > 0 {
      CountingConcat(from + 1, m - 1, n);
    }
  }

  lemma CountingSplit(from: nat, m: nat, n: nat)
    ensures Counting(from, m + n)[..m] == Counting(from, m)
    ensures Counting(from, m + n)[m..] == Counting(from + m, n)
  {
    CountingConcat(from, m, n);
  }

  /**
   Scanned under any session modes of the engine, `sql` is one statement whose spans are
   exactly the given identifiers in order, and whose placeholders take parameters 1 to `n`
   in order.
   */
  predicate ScansBackTo(d: Dialect, sql: string, names: seq<string>, n: nat) {
    && Statements(d, sql) == [sql]
    && SpanTexts(Tokens(d, sql, 0)) == QuoteAll(d.engine, names)
    && Slots(d.engine, Tokens(d, sql, 0), 1) == Counting(1, n)
  }

  lemma FragmentScansBack(d: Dialect, f: Fragment, n: nat)
    requires Spaced(f, false) && Indexes(f) == Counting(1, n)
    requires var sql := Render(d.engine, f); sql != "" && IsWordStart(sql[0])
    ensures ScansBackTo(d, Render(d.engine, f), Names(f), n)
  {
    RenderedIsOneStatement(d, f);
    RenderedTokens(d, f);
    SpansAreNames(d.engine, f, []);
    SlotsAreIndexes(d.engine, f, false, [], 1);
  }
}
