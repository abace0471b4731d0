/** Characters and strings as the scanner sees them, and the option type. */
module Text {

  datatype Option<+T> = None | Some(value: T)

  /** The `\s` class of the host language, which is also what its `trim` removes. */
  predicate IsSpace(c: char) {
    || '\t' <= c <= '\r'
    || c == ' '
    || c == '\U{A0}'
    || c == '\U{1680}'
    || '\U{2000}' <= c <= '\U{200A}'
    || c == '\U{2028}'
    || c == '\U{2029}'
    || c == '\U{202F}'
    || c == '\U{205F}'
    || c == '\U{3000}'
    || c == '\U{FEFF}'
  }

  /** `[A-Za-z_]` */
  predicate IsWordStart(c: char) {
    'A' <= c <= 'Z' || 'a' <= c <= 'z' || c == '_'
  }

  /** `[A-Za-z0-9_]` */
  predicate IsWordChar(c: char) {
    IsWordStart(c) || '0' <= c <= '9'
  }

  /** `[A-Za-z0-9_$]` */
  predicate IsIdentChar(c: char) {
    IsWordChar(c) || c == '$'
  }

  /** Upper-casing, exact on the word characters it is applied to. */
  function Upper(s: string): (r: string)
    ensures |r| == |s|
  {
    seq(|s|, i requires 0 <= i < |s| => if 'a' <= s[i] <= 'z' then s[i] - 'a' + 'A' else s[i])
  }

  function TrimStart(s: string): string {
    if s != "" && IsSpace(s[0]) then TrimStart(s[1..]) else s
  }

  function TrimEnd(s: string): string {
    if s != "" && IsSpace(s[|s| - 1]) then TrimEnd(s[..|s| - 1]) else s
  }

  function Trim(s: string): string {
    TrimEnd(TrimStart(s))
  }

  /** The pieces with the separator between each two. */
  function Join(pieces: seq<string>, separator: string): string {
    if |pieces| == 0 then ""
    else if |pieces| == 1 then pieces[0]
    else pieces[0] + (separator + Join(pieces[1..], separator))
  }

  lemma Chained<T>(x: seq<T>, a: seq<T>, y: seq<T>, b: seq<T>, z: seq<T>)
    requires x == a + y && y == b + z
    ensures x == (a + b) + z
  {
  }

  predicate AllDigits(s: string) {
    forall k | 0 <= k < |s| :: '0' <= s[k] <= '9'
  }

  /** Decimal rendering of a natural number. */
  function Decimal(n: nat): (r: string)
    ensures |r| > 0 && AllDigits(r)
  {
    if n < 10 then [('0' as int + n) as char] else Decimal(n / 10) + Decimal(n % 10)
  }

  function Value(digits: string): nat {
    if digits == "" then 0
    else Value(digits[..|digits| - 1]) * 10
         + (if '0' <= digits[|digits| - 1] <= '9' then (digits[|digits| - 1] - '0') as nat else 0)
  }

  lemma {:induction false} DecimalValue(n: nat)
    ensures Value(Decimal(n)) == n
  {
    if n >= 10 {
      DecimalValue(n / 10);
      DecimalValue(n % 10);
      var r, lead := Decimal(n), Decimal(n / 10);
      assert Decimal(n % 10) == [('0' as int + n % 10) as char];
      assert r[..|r| - 1] == lead;
      assert r[|r| - 1] == ('0' as int + n % 10) as char;
    }
  }
}
