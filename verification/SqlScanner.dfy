/**
 The raw-SQL scanner: an index-jumping lexer that knows the engine and the session's
 quoting modes. Every loop is a method proved equal to a recursive function, and the
 theorems in the other modules are about those functions.
 */
module SqlScanner {
  import opened Text

  datatype Engine = Postgres | Mysql

  /** The session settings that move string boundaries. */
  datatype SessionModes = SessionModes(
    standardConformingStrings: bool,
    noBackslashEscapes: bool,
    ansiQuotes: bool)

  /** Everything a scan depends on besides the text. */
  datatype Dialect = Dialect(engine: Engine, modes: SessionModes)

  const DEFAULT_MODES := SessionModes(true, false, false)

  /** Chosen when the modes cannot be probed: backslash is literal everywhere. */
  const SAFE_FALLBACK_MODES := SessionModes(true, true, false)

  // ---- What the loops compute -------------------------------------------------------

  /** The character at `i`, or nothing past either end. */
  predicate At(sql: string, i: int, c: char) {
    0 <= i < |sql| && sql[i] == c
  }

  /** Just past the delimiter that closes a span whose body is being read at `i`. */
  function DelimitedEnd(sql: string, i: nat, delim: char, backslash: bool): (r: nat)
    ensures r <= |sql|
    ensures i <= |sql| ==> i <= r
    decreases |sql| - i
  {
    if i >= |sql| then |sql|
    else if backslash && sql[i] == '\\' then DelimitedEnd(sql, i + 2, delim, backslash)
    else if sql[i] == delim then
      if At(sql, i + 1, delim) then DelimitedEnd(sql, i + 2, delim, backslash) else i + 1
    else DelimitedEnd(sql, i + 1, delim, backslash)
  }

  /** The first newline at or after `j`, or the end of the text. */
  function LineEnd(sql: string, j: nat): (r: nat)
    requires j <= |sql|
    ensures j <= r <= |sql|
    ensures r < |sql| ==> sql[r] == '\n'
    decreases |sql| - j
  {
    if j < |sql| && sql[j] != '\n' then LineEnd(sql, j + 1) else j
  }

  /** The first block-comment terminator at or after `j`, or the end of the text. */
  function BlockStop(sql: string, j: nat): (r: nat)
    requires j <= |sql|
    ensures j <= r <= |sql|
    decreases |sql| - j
  {
    if j < |sql| && !(sql[j] == '*' && At(sql, j + 1, '/')) then BlockStop(sql, j + 1) else j
  }

  function Min(a: nat, b: nat): nat {
    if a < b then a else b
  }

  /** The end of the run of word characters starting at `j`. */
  function WordEnd(sql: string, j: nat): (r: nat)
    requires j <= |sql|
    ensures j <= r <= |sql|
    ensures forall k :: j <= k < r ==> IsWordChar(sql[k])
    ensures r < |sql| ==> !IsWordChar(sql[r])
    decreases |sql| - j
  {
    if j < |sql| && IsWordChar(sql[j]) then WordEnd(sql, j + 1) else j
  }

  /** The dollar-quote tag opening at `i`, if one does. */
  function DollarTag(sql: string, i: nat): (r: Option<string>)
    requires i < |sql|
    ensures r.Some? ==> |r.value| >= 2 && i + |r.value| <= |sql| && r.value == sql[i..i + |r.value|]
  {
    if sql[i] != '$' then None
    else
      var j := WordEnd(sql, i + 1);
      if At(sql, j, '$') then Some(sql[i..j + 1]) else None
  }

  predicate OccursAt(sql: string, tag: string, k: nat) {
    k + |tag| <= |sql| && sql[k..k + |tag|] == tag
  }

  /** The first occurrence of `tag` at or after `from`. */
  function IndexOf(sql: string, tag: string, from: nat): (r: Option<nat>)
    ensures r.Some? ==> from <= r.value && OccursAt(sql, tag, r.value)
    ensures forall k :: from <= k && (r.Some? ==> k < r.value) ==> !OccursAt(sql, tag, k)
    decreases |sql| - from
  {
    if from + |tag| > |sql| then None
    else if OccursAt(sql, tag, from) then Some(from)
    else IndexOf(sql, tag, from + 1)
  }

  /** Just past the closing tag of a dollar-quote whose body begins at `from`. */
  function DollarEnd(sql: string, tag: string, from: nat): (r: nat)
    ensures r <= |sql|
    ensures from <= |sql| ==> from <= r
  {
    match IndexOf(sql, tag, from)
    case None => |sql|
    case Some(k) => k + |tag|
  }

  /** Two dashes at `i` open a comment: always on Postgres, before blank or end on MySQL. */
  predicate OpensLineComment(d: Dialect, sql: string, i: nat) {
    && At(sql, i, '-')
    && At(sql, i + 1, '-')
    && (d.engine.Postgres? || i + 2 >= |sql| || IsSpace(sql[i + 2]) || sql[i + 2] < ' ')
  }

  predicate IsEscapePrefix(sql: string, i: nat) {
    && (At(sql, i - 1, 'e') || At(sql, i - 1, 'E'))
    && !(0 <= i - 2 < |sql| && IsIdentChar(sql[i - 2]))
  }

  predicate DoubleQuoteBackslash(d: Dialect) {
    d.engine.Mysql? && !d.modes.ansiQuotes && !d.modes.noBackslashEscapes
  }

  predicate SingleQuoteBackslash(d: Dialect, escapePrefix: bool) {
    || (d.engine.Postgres? && escapePrefix)
    || (d.engine.Postgres? && !d.modes.standardConformingStrings)
    || (d.engine.Mysql? && !d.modes.noBackslashEscapes)
  }

  /** Just past the span starting at `i`, or `i` itself when the character is ordinary. */
  function SpanEnd(d: Dialect, sql: string, i: nat): (r: nat)
    requires i < |sql|
    ensures i <= r <= |sql|
  {
    var c := sql[i];
    if OpensLineComment(d, sql, i) then LineEnd(sql, i + 2)
    else if c == '/' && At(sql, i + 1, '*') then Min(|sql|, BlockStop(sql, i + 2) + 2)
    else if d.engine.Postgres? && c == '$' then
      match DollarTag(sql, i)
      case None => i
      case Some(tag) => DollarEnd(sql, tag, i + |tag|)
    else if d.engine.Mysql? && c == '`' then DelimitedEnd(sql, i + 1, '`', false)
    else if c == '"' then DelimitedEnd(sql, i + 1, '"', DoubleQuoteBackslash(d))
    else if c == '\'' then
      DelimitedEnd(sql, i + 1, '\'', SingleQuoteBackslash(d, IsEscapePrefix(sql, i)))
    else i
  }

  /** The pieces between top-level semicolons, the current piece having begun at `start`. */
  function Segments(d: Dialect, sql: string, start: nat, i: nat): (r: seq<string>)
    requires start <= i <= |sql|
    ensures |r| > 0
    decreases |sql| - i
  {
    if i == |sql| then [sql[start..]]
    else
      var end := SpanEnd(d, sql, i);
      if end > i then Segments(d, sql, start, end)
      else if sql[i] == ';' then [sql[start..i]] + Segments(d, sql, i + 1, i + 1)
      else Segments(d, sql, start, i + 1)
  }

  /** The leading keyword at or after `i`: nothing for a blank rest, "" when it is not a word. */
  function KeywordFrom(seg: string, i: nat): (r: Option<string>)
    decreases |seg| - i
  {
    if i >= |seg| then None
    else if IsSpace(seg[i]) then KeywordFrom(seg, i + 1)
    else if seg[i] == '-' && At(seg, i + 1, '-') then KeywordFrom(seg, LineEnd(seg, i + 2))
    else if seg[i] == '/' && At(seg, i + 1, '*') then KeywordFrom(seg, BlockStop(seg, i + 2) + 2)
    else if IsWordStart(seg[i]) then Some(Upper(seg[i..WordEnd(seg, i)]))
    else Some("")
  }

  predicate HasContent(seg: string) {
    KeywordFrom(seg, 0).Some?
  }

  function Kept(segments: seq<string>): (r: seq<string>)
    ensures forall seg :: seg in r ==> seg in segments && HasContent(seg)
  {
    if segments == [] then []
    else (if HasContent(segments[0]) then [segments[0]] else []) + Kept(segments[1..])
  }

  function Statements(d: Dialect, sql: string): seq<string> {
    Kept(Segments(d, sql, 0, 0))
  }

  /** Words outside every span, from `i` on. */
  function WordsFrom(d: Dialect, sql: string, i: nat): seq<string>
    requires i <= |sql|
    decreases |sql| - i
  {
    if i == |sql| then []
    else
      var end := SpanEnd(d, sql, i);
      if end > i then WordsFrom(d, sql, end)
      else if IsWordStart(sql[i]) then
        [Upper(sql[i..WordEnd(sql, i)])] + WordsFrom(d, sql, WordEnd(sql, i))
      else WordsFrom(d, sql, i + 1)
  }

  // ---- The loops ---------------------------------------------------------------------

  method ConsumeDelimited(sql: string, start: nat, delim: char, backslash: bool) returns (r: nat)
    requires start < |sql|
    ensures r == DelimitedEnd(sql, start + 1, delim, backslash)
  {
    var i := start + 1;
    while i < |sql|
      invariant DelimitedEnd(sql, i, delim, backslash) == DelimitedEnd(sql, start + 1, delim, backslash)
    {
      var c := sql[i];
      if backslash && c == '\\' {
        i := i + 2;
        continue;
      }
      if c == delim {
        if i + 1 < |sql| && sql[i + 1] == delim {
          i := i + 2;
          continue;
        }
        return i + 1;
      }
      i := i + 1;
    }
    return |sql|;
  }

  method MatchDollarTag(sql: string, i: nat) returns (r: Option<string>)
    requires i < |sql|
    ensures r == DollarTag(sql, i)
  {
    if sql[i] != '$' {
      return None;
    }
    var j := i + 1;
    while j < |sql| && IsWordChar(sql[j])
      invariant i + 1 <= j <= |sql|
      invariant WordEnd(sql, j) == WordEnd(sql, i + 1)
    {
      j := j + 1;
    }
    if j < |sql| && sql[j] == '$' {
      return Some(sql[i..j + 1]);
    }
    return None;
  }

  method ConsumeSpan(d: Dialect, sql: string, i: nat) returns (r: nat)
    requires i < |sql|
    ensures r == SpanEnd(d, sql, i)
  {
    var c, n := sql[i], |sql|;
    if OpensLineComment(d, sql, i) {
      var j := i + 2;
      while j < n && sql[j] != '\n'
        invariant i + 2 <= j <= n
        invariant LineEnd(sql, j) == LineEnd(sql, i + 2)
      {
        j := j + 1;
      }
      return j;
    }
    if c == '/' && i + 1 < n && sql[i + 1] == '*' {
      var j := i + 2;
      while j < n && !(sql[j] == '*' && j + 1 < n && sql[j + 1] == '/')
        invariant i + 2 <= j <= n
        invariant BlockStop(sql, j) == BlockStop(sql, i + 2)
      {
        j := j + 1;
      }
      return Min(n, j + 2);
    }
    if d.engine.Postgres? && c == '$' {
      var tag := MatchDollarTag(sql, i);
      if tag.Some? {
        var end := IndexOf(sql, tag.value, i + |tag.value|);
        return if end.None? then n else end.value + |tag.value|;
      }
      return i;
    }
    if d.engine.Mysql? && c == '`' {
      r := ConsumeDelimited(sql, i, '`', false);
      return;
    }
    if c == '"' {
      r := ConsumeDelimited(sql, i, '"', DoubleQuoteBackslash(d));
      return;
    }
    if c == '\'' {
      r := ConsumeDelimited(sql, i, '\'', SingleQuoteBackslash(d, IsEscapePrefix(sql, i)));
      return;
    }
    return i;
  }

  /** The run of word characters at `i`, which both word readers collect one by one. */
  method WordAt(sql: string, i: nat) returns (w: string)
    requires i <= |sql|
    ensures w == sql[i..WordEnd(sql, i)]
  {
    w := "";
    var j := i;
    while j < |sql| && IsWordChar(sql[j])
      invariant i <= j <= |sql|
      invariant w == sql[i..j]
      invariant WordEnd(sql, j) == WordEnd(sql, i)
    {
      w := w + [sql[j]];
      j := j + 1;
    }
  }

  method FirstKeyword(seg: string) returns (r: Option<string>)
    ensures r == KeywordFrom(seg, 0)
  {
    var n, i := |seg|, 0;
    ghost var keyword := KeywordFrom(seg, 0);
    while i < n
      invariant KeywordFrom(seg, i) == keyword
      decreases n - i
    {
      var c := seg[i];
      if IsSpace(c) {
        i := i + 1;
        continue;
      }
      if c == '-' && i + 1 < n && seg[i + 1] == '-' {
        ghost var from := i + 2;
        i := i + 2;
        while i < n && seg[i] != '\n'
          invariant from <= i <= n
          invariant LineEnd(seg, i) == LineEnd(seg, from)
        {
          i := i + 1;
        }
        continue;
      }
      if c == '/' && i + 1 < n && seg[i + 1] == '*' {
        ghost var from := i + 2;
        i := i + 2;
        while i < n && !(seg[i] == '*' && i + 1 < n && seg[i + 1] == '/')
          invariant from <= i <= n
          invariant BlockStop(seg, i) == BlockStop(seg, from)
        {
          i := i + 1;
        }
        i := i + 2;
        continue;
      }
      if IsWordStart(c) {
        var w := WordAt(seg, i);
        return Some(Upper(w));
      }
      return Some("");
    }
    return None;
  }

  lemma KeptStep(segments: seq<string>, k: nat)
    requires k < |segments|
    ensures Kept(segments[k..]) ==
            (if HasContent(segments[k]) then [segments[k]] else []) + Kept(segments[k + 1..])
  {
    assert segments[k..][1..] == segments[k + 1..];
  }

  method DropBlank(segments: seq<string>) returns (r: seq<string>)
    ensures r == Kept(segments)
  {
    r := [];
    var k := 0;
    assert segments[0..] == segments;
    while k < |segments|
      invariant k <= |segments|
      invariant r + Kept(segments[k..]) == Kept(segments)
    {
      var keyword := FirstKeyword(segments[k]);
      KeptStep(segments, k);
      if keyword.Some? {
        r := r + [segments[k]];
      }
      k := k + 1;
    }
  }

  method SplitStatements(d: Dialect, sql: string) returns (r: seq<string>)
    ensures r == Statements(d, sql)
  {
    var segments: seq<string> := [];
    var n, start, i := |sql|, 0, 0;
    while i < n
      invariant start <= i <= n
      invariant segments + Segments(d, sql, start, i) == Segments(d, sql, 0, 0)
      decreases n - i
    {
      var end := ConsumeSpan(d, sql, i);
      if end > i {
        i := end;
        continue;
      }
      if sql[i] == ';' {
        assert segments + Segments(d, sql, start, i)
            == (segments + [sql[start..i]]) + Segments(d, sql, i + 1, i + 1);
        segments := segments + [sql[start..i]];
        start := i + 1;
        i := i + 1;
        continue;
      }
      i := i + 1;
    }
    segments := segments + [sql[start..]];
    r := DropBlank(segments);
  }

  method TopLevelWords(d: Dialect, sql: string) returns (words: seq<string>)
    ensures words == WordsFrom(d, sql, 0)
  {
    words := [];
    var n, i := |sql|, 0;
    ghost var all := WordsFrom(d, sql, 0);
    while i < n
      invariant i <= n
      invariant words + WordsFrom(d, sql, i) == all
      decreases n - i
    {
      var end := ConsumeSpan(d, sql, i);
      if end > i {
        i := end;
        continue;
      }
      if IsWordStart(sql[i]) {
        assert WordEnd(sql, i) > i;
        var w := WordAt(sql, i);
        assert words + WordsFrom(d, sql, i) == (words + [Upper(w)]) + WordsFrom(d, sql, i + |w|);
        words := words + [Upper(w)];
        i := i + |w|;
        continue;
      }
      i := i + 1;
    }
  }
}
