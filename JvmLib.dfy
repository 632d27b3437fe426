/** The few Kotlin and JVM library behaviours the app relies on, written out
    on unbounded integers: the 64-bit `Long` range, division that truncates
    toward zero, `coerceIn`, `String.format("%d")` / `"%02d"` (in a locale
    whose digits are the ASCII ones) and `String.toLongOrNull()`. */
module JvmLib {
  import opened Domain

  const LONG_MIN: int := -0x8000_0000_0000_0000
  const LONG_MAX: int := 0x7FFF_FFFF_FFFF_FFFF

  predicate InLongRange(n: int) { LONG_MIN <= n <= LONG_MAX }

  // ---------------------------------------------------------------------
  // Integer arithmetic as Kotlin does it

  /** `a / b` on Kotlin integers: the quotient truncated toward zero, so
      `q * b` is the multiple of `b` nearest `a` on the side of zero. */
  function TruncDiv(a: int, b: int): (q: int)
    requires b > 0
    ensures 0 <= a ==> q * b <= a < (q + 1) * b
    ensures a < 0 ==> (q - 1) * b < a <= q * b
  {
    if a >= 0 then a / b else -((-a) / b)
  }

  /** `a % b` on Kotlin integers: the remainder takes the sign of `a`. */
  function TruncRem(a: int, b: int): (r: int)
    requires b > 0
    ensures TruncDiv(a, b) * b + r == a
    ensures a >= 0 ==> 0 <= r < b
    ensures a < 0 ==> -b < r <= 0
  {
    if a >= 0 then a % b else -((-a) % b)
  }

  /** `Float.toLong()` for a finite value: truncation toward zero. */
  function TruncReal(x: real): (n: int)
    ensures x >= 0.0 ==> n as real <= x < n as real + 1.0
    ensures x < 0.0 ==> n as real - 1.0 < x <= n as real
  {
    if x >= 0.0 then x.Floor else -((-x).Floor)
  }

  /** `x.coerceIn(lo, hi)` for a non-empty range. */
  function CoerceIn(x: int, lo: int, hi: int): (r: int)
    requires lo <= hi
    ensures lo <= r <= hi
    ensures lo <= x <= hi ==> r == x
    ensures x < lo ==> r == lo
    ensures x > hi ==> r == hi
  {
    if x < lo then lo else if x > hi then hi else x
  }

  /** `x.coerceIn(lo, hi)` on any range: Kotlin throws
      `IllegalArgumentException` when `hi < lo`, shown here as `None`. */
  function CoerceInChecked(x: int, lo: int, hi: int): (r: Option<int>)
    ensures r.None? <==> hi < lo
    ensures r.Some? ==> r.value == CoerceIn(x, lo, hi)
  {
    if hi < lo then None else Some(CoerceIn(x, lo, hi))
  }

  /** `x.coerceIn(lo, hi)` on reals, for a non-empty range. */
  function CoerceInReal(x: real, lo: real, hi: real): (r: real)
    requires lo <= hi
    ensures lo <= r <= hi
    ensures lo <= x <= hi ==> r == x
    ensures x < lo ==> r == lo
    ensures x > hi ==> r == hi
  {
    if x < lo then lo else if x > hi then hi else x
  }

  // ---------------------------------------------------------------------
  // Decimal text

  predicate IsDigit(c: char) { '0' <= c <= '9' }

  predicate AllDigits(s: string) { forall i :: 0 <= i < |s| ==> IsDigit(s[i]) }

  function DigitChar(d: int): (c: char)
    requires 0 <= d < 10
    ensures IsDigit(c) && (c as int) - ('0' as int) == d
  {
    ((('0' as int) + d) as char)
  }

  function DigitValue(c: char): (d: nat)
    requires IsDigit(c)
    ensures d < 10
  {
    (c as int) - ('0' as int)
  }

  /** The value of a string of decimal digits, most significant first. */
  function DigitsValue(s: string): (n: nat)
    requires AllDigits(s)
  {
    if s == [] then 0 else DigitsValue(s[..|s| - 1]) * 10 + DigitValue(s[|s| - 1])
  }

  /** The decimal digits of `n`, without leading zeros ("0" for zero). */
  function NatToString(n: nat): (s: string)
    ensures |s| >= 1 && AllDigits(s)
    ensures n < 10 <==> |s| == 1
    ensures |s| > 1 ==> s[0] != '0'
  {
    if n < 10 then [DigitChar(n)] else NatToString(n / 10) + [DigitChar(n % 10)]
  }

  /** `"%d".format(n)`. */
  function IntToString(n: int): string
  {
    if n < 0 then "-" + NatToString(-n) else NatToString(n)
  }

  /** `"%02d".format(n)`: at least two characters, zero-padded after any sign
      (a negative value already fills the width with its sign). */
  function Pad2(n: int): string
  {
    if 0 <= n < 10 then "0" + NatToString(n) else IntToString(n)
  }

  lemma {:induction false} NatToStringRoundTrip(n: nat)
    ensures DigitsValue(NatToString(n)) == n
  {
    var s := NatToString(n);
    if n >= 10 {
      NatToStringRoundTrip(n / 10);
      assert s[..|s| - 1] == NatToString(n / 10);
    }
  }

  /** Two-digit padding of a field in [0, 99] is exactly two digits that
      read back as the field. */
  lemma Pad2TwoDigits(n: int)
    requires 0 <= n < 100
    ensures |Pad2(n)| == 2 && AllDigits(Pad2(n))
    ensures DigitsValue(Pad2(n)) == n
  {
    var s := Pad2(n);
    if n < 10 {
      assert s == ['0', DigitChar(n)];
      assert s[..1] == ['0'] && DigitsValue(['0']) == 0;
    } else {
      assert s == NatToString(n);
      NatToStringRoundTrip(n);
    }
  }

  // ---------------------------------------------------------------------
  // String.toLongOrNull()

  /** Kotlin's `toLongOrNull()` in radix 10: an optional leading `-` or `+`,
      then at least one digit; `None` for anything else and for a value
      outside the 64-bit range. */
  function ParseLong(s: string): (r: Option<int>)
    ensures r.Some? ==> InLongRange(r.value)
  {
    if s == [] then None
    else
      var negative := s[0] == '-';
      var digits := if s[0] == '-' || s[0] == '+' then s[1..] else s;
      if digits == [] || !AllDigits(digits) then None
      else
        var magnitude: int := DigitsValue(digits);
        var v := if negative then -magnitude else magnitude;
        if InLongRange(v) then Some(v) else None
  }

  /** `ParseLong` reads back every `Long` that `%d` writes. */
  lemma ParseLongRoundTrip(n: int)
    requires InLongRange(n)
    ensures ParseLong(IntToString(n)) == Some(n)
  {
    var s := IntToString(n);
    if n < 0 {
      assert s[1..] == NatToString(-n);
      NatToStringRoundTrip(-n);
    } else {
      NatToStringRoundTrip(n);
    }
  }

  /** Any optional sign followed by digits, leading zeros and `+` included,
      parses to its signed value exactly when that value is a `Long`. */
  lemma ParseLongSignedDigits(sign: string, digits: string)
    requires sign == "" || sign == "-" || sign == "+"
    requires |digits| >= 1 && AllDigits(digits)
    ensures var v := if sign == "-" then -(DigitsValue(digits) as int) else DigitsValue(digits) as int;
      ParseLong(sign + digits) == if InLongRange(v) then Some(v) else None
  {
    var s := sign + digits;
    if sign == "" {
      assert s == digits && IsDigit(s[0]);
    } else {
      assert s[0] == sign[0] && s[1..] == digits;
    }
  }

  /** Whatever `ParseLong` accepts is one optional sign followed by digits. */
  lemma ParseLongAccepts(s: string)
    requires ParseLong(s).Some?
    ensures |s| >= 1
    ensures AllDigits(s) || ((s[0] == '-' || s[0] == '+') && |s| >= 2 && AllDigits(s[1..]))
  {
  }
}
