/**
 The number a key literal spells, and what `DECIMAL(65, scale)` can hold of it: for which
 accepted literals the cast the executor composes loses nothing.
 */
module KeyCast {
  import opened Text
  import opened SqlScanner
  import Schema
  import StructuredOps

  const DECIMAL_DIGITS: nat := 65

  function Pow10(n: nat): (r: nat)
    ensures r >= 1
  {
    if n == 0 then 1 else 10 * Pow10(n - 1)
  }

  // ---- Digits and values -------------------------------------------------------------

  predicate AllZeros(s: string) {
    forall k | 0 <= k < |s| :: s[k] == '0'
  }

  /** Without its leading zeros. */
  function Significant(digits: string): (r: string)
    ensures |r| <= |digits| && (r != "" ==> r[0] != '0')
    ensures AllDigits(digits) ==> AllDigits(r)
  {
    if digits != "" && digits[0] == '0' then Significant(digits[1..]) else digits
  }

  lemma {:induction false} PowSum(a: nat, b: nat)
    ensures Pow10(a + b) == Pow10(a) * Pow10(b)
  {
    if a > 0 {
      PowSum(a - 1, b);
      assert Pow10(a + b) == 10 * (Pow10(a - 1) * Pow10(b)) == (10 * Pow10(a - 1)) * Pow10(b);
    }
  }

  lemma TimesTen(x: nat, p: nat, y: nat)
    ensures (x * p + y) * 10 == x * (10 * p) + y * 10
  {
  }

  function DigitOf(c: char): nat {
    if '0' <= c <= '9' then (c - '0') as nat else 0
  }

  lemma LastDigit(a: string, b: string)
    requires b != ""
    ensures Value(a + b) == Value(a + b[..|b| - 1]) * 10 + DigitOf(b[|b| - 1])
    ensures Value(b) == Value(b[..|b| - 1]) * 10 + DigitOf(b[|b| - 1])
  {
    assert (a + b)[..|a + b| - 1] == a + b[..|b| - 1];
  }

  lemma {:induction false} ValueConcat(a: string, b: string)
    ensures Value(a + b) == Value(a) * Pow10(|b|) + Value(b)
    decreases |b|
  {
    if b == "" {
      assert a + b == a;
    } else {
      var front, p := b[..|b| - 1], Pow10(|b| - 1);
      ValueConcat(a, front);
      TimesTen(Value(a), p, Value(front));
      LastDigit(a, b);
    }
  }

  lemma {:induction false} ValueBelow(digits: string)
    ensures Value(digits) < Pow10(|digits|)
  {
    if digits != "" {
      ValueBelow(digits[..|digits| - 1]);
    }
  }

  lemma {:induction false} ZeroValue(digits: string)
    requires AllDigits(digits)
    ensures Value(digits) == 0 <==> AllZeros(digits)
  {
    if digits != "" {
      ZeroValue(digits[..|digits| - 1]);
    }
  }

  lemma {:induction false} SignificantValue(digits: string)
    ensures Value(Significant(digits)) == Value(digits)
  {
    if digits != "" && digits[0] == '0' {
      SignificantValue(digits[1..]);
      assert digits == "0" + digits[1..];
      ValueConcat("0", digits[1..]);
      assert Value("0") == 0;
    }
  }

  lemma LeadingDigit(digits: string)
    requires digits != "" && AllDigits(digits) && digits[0] != '0'
    ensures Value(digits) >= Pow10(|digits| - 1)
  {
    var lead, rest := digits[..1], digits[1..];
    assert digits == lead + rest;
    ValueConcat(lead, rest);
    assert lead[..0] == "" && Value(lead) >= 1;
    TimesAtLeast(Value(lead), Pow10(|rest|));
  }

  lemma TimesAtLeast(a: nat, b: nat)
    requires a >= 1
    ensures a * b >= b
  {
  }

  lemma {:induction false} PowGrows(a: nat, b: nat)
    requires a <= b
    ensures Pow10(a) <= Pow10(b)
  {
    if a < b {
      PowGrows(a, b - 1);
    }
  }

  /** A number is below a power of ten exactly when it has no more significant digits. */
  lemma DigitsBound(digits: string, n: nat)
    requires AllDigits(digits)
    ensures Value(digits) < Pow10(n) <==> |Significant(digits)| <= n
  {
    var s := Significant(digits);
    SignificantValue(digits);
    if |s| <= n {
      ValueBelow(s);
      PowGrows(|s|, n);
    } else {
      LeadingDigit(s);
      PowGrows(n, |s| - 1);
    }
  }

  // ---- What the cast holds -----------------------------------------------------------

  /**
   `DECIMAL(65, scale)` holds the numbers that are a whole number of at most 65 digits over
   ten to the scale. This one is `mantissa` over ten to `places`, up to its sign.
   */
  ghost predicate Held(mantissa: nat, places: nat, scale: nat) {
    exists m: nat :: HeldAs(mantissa, places, scale, m)
  }

  predicate HeldAs(mantissa: nat, places: nat, scale: nat, m: nat) {
    m < Pow10(DECIMAL_DIGITS) && m * Pow10(places) == mantissa * Pow10(scale)
  }

  lemma Gap(a: nat, b: nat, c: nat)
    requires a < b
    ensures a * c + c <= b * c
  {
    var d := b - a - 1;
    assert b * c == (a + 1 + d) * c == a * c + c + d * c;
    TimesAtLeast(d + 1, c);
  }

  lemma CancelRight(a: nat, b: nat, c: nat)
    requires c >= 1 && a * c == b * c
    ensures a == b
  {
    if a < b {
      Gap(a, b, c);
    } else if b < a {
      Gap(b, a, c);
    }
  }

  lemma QuotientIsUnique(m: nat, kept: nat, dropped: nat, p: nat)
    requires dropped < p && m * p == kept * p + dropped
    ensures m == kept && dropped == 0
  {
    if m < kept {
      Gap(m, kept, p);
    } else if m > kept {
      Gap(kept, m, p);
    }
  }

  lemma MovePower(m: nat, s: nat, p: nat)
    ensures m * (s * p) == (m * p) * s
  {
  }

  lemma SamePlaces(mantissa: nat, kept: nat, dropped: nat, p: nat, s: nat, m: nat)
    requires dropped < p && s >= 1 && mantissa == kept * p + dropped
    ensures m * (s * p) == mantissa * s <==> dropped == 0 && m == kept
  {
    MovePower(m, s, p);
    if m * (s * p) == mantissa * s {
      ProductIsNat(m, p);
      CancelRight(m * p, mantissa, s);
      QuotientIsUnique(m, kept, dropped, p);
    }
  }

  lemma ProductIsNat(a: nat, b: nat)
    ensures a * b >= 0
  {
  }

  /** Dropping the last `past` places: held exactly when what is dropped is zero. */
  lemma HeldWhenDropped(
    mantissa: nat, kept: nat, dropped: nat, past: nat, places: nat, scale: nat, m: nat)
    requires dropped < Pow10(past) && mantissa == kept * Pow10(past) + dropped && places == scale + past
    ensures HeldAs(mantissa, places, scale, m) <==> dropped == 0 && m == kept && kept < Pow10(DECIMAL_DIGITS)
  {
    PowSum(scale, past);
    SamePlaces(mantissa, kept, dropped, Pow10(past), Pow10(scale), m);
  }

  lemma HeldExactly(mantissa: nat, kept: nat, dropped: nat, past: nat, places: nat, scale: nat)
    requires dropped < Pow10(past) && mantissa == kept * Pow10(past) + dropped && places == scale + past
    ensures Held(mantissa, places, scale) <==> dropped == 0 && kept < Pow10(DECIMAL_DIGITS)
  {
    HeldWhenDropped(mantissa, kept, dropped, past, places, scale, kept);
    if Held(mantissa, places, scale) {
      var m: nat :| HeldAs(mantissa, places, scale, m);
      HeldWhenDropped(mantissa, kept, dropped, past, places, scale, m);
    }
  }

  lemma SplitIsExact(whole: string, fraction: string, scale: nat)
    requires AllDigits(whole) && AllDigits(fraction) && scale <= |fraction|
    ensures Held(Value(whole + fraction), |fraction|, scale) <==>
            AllZeros(fraction[scale..]) && |Significant(whole + fraction[..scale])| <= DECIMAL_DIGITS
  {
    var head, tail := whole + fraction[..scale], fraction[scale..];
    assert whole + fraction == head + tail;
    ValueConcat(head, tail);
    ValueBelow(tail);
    ZeroValue(tail);
    DigitsBound(head, DECIMAL_DIGITS);
    HeldExactly(Value(whole + fraction), Value(head), Value(tail), |tail|, |fraction|, scale);
  }

  /**
   For which keys the composed cast is exact: it holds the number the key's literal spells if
   and only if the fraction digits past the scale, which is at most thirty, are all zero and
   the other digits, leading zeros aside, are at most 65.
   */
  lemma CastIsExact(t: Schema.TableInfo, pk: StructuredOps.Pk)
    returns (sign: string, whole: string, fraction: string)
    requires StructuredOps.PkCast(t, pk).Scale?
    ensures StructuredOps.Spells(StructuredOps.Stringified(pk.value), sign, whole, fraction)
    ensures var scale := StructuredOps.PkCast(t, pk).digits;
            && scale == Min(|fraction|, 30)
            && (Held(Value(whole + fraction), |fraction|, scale) <==>
                AllZeros(fraction[scale..]) && |Significant(whole + fraction[..scale])| <= 65)
  {
    sign, whole, fraction := StructuredOps.AcceptedSpells(StructuredOps.Stringified(pk.value));
    SplitIsExact(whole, fraction, StructuredOps.PkCast(t, pk).digits);
  }

  /** So with at most thirty fraction digits a key is held exactly unless it has over 65 digits. */
  lemma ThirtyDigitsAreKept(t: Schema.TableInfo, pk: StructuredOps.Pk)
    returns (sign: string, whole: string, fraction: string)
    requires StructuredOps.PkCast(t, pk).Scale?
    ensures StructuredOps.Spells(StructuredOps.Stringified(pk.value), sign, whole, fraction)
    ensures |fraction| <= 30 ==>
              (Held(Value(whole + fraction), |fraction|, StructuredOps.PkCast(t, pk).digits) <==>
               |Significant(whole + fraction)| <= 65)
  {
    sign, whole, fraction := CastIsExact(t, pk);
    assert fraction[..|fraction|] == fraction && fraction[|fraction|..] == "";
  }
}
