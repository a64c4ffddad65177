/**
 * Values of JavaScript that the application's helpers depend on: optional
 * (absent / `undefined`) values, numbers that may be NaN, `Math.round`, and
 * the decimal text of integers produced by template literals and `String(n)`.
 */
module JsValues {

  /** An optional value; `None` stands for `undefined` or `null`. */
  datatype Option<+T> = None | Some(value: T)

  /**
   * A property of an object where `undefined` and `null` behave differently:
   * missing, present with the value `null`, or present with a value.
   */
  datatype Field<+T> = Absent | Null | Present(value: T)

  /** A JavaScript number: a finite value or NaN (what `parseFloat` returns for non-numeric text). */
  datatype Number = Finite(value: real) | NaN

  /** `n >= bound` in JavaScript: every comparison with NaN is false. */
  predicate AtLeast(n: Number, bound: real)
  {
    n.Finite? && n.value >= bound
  }

  function Min(a: int, b: int): (r: int)
    ensures r <= a && r <= b && (r == a || r == b)
  {
    if a <= b then a else b
  }

  function Max(a: int, b: int): (r: int)
    ensures r >= a && r >= b && (r == a || r == b)
  {
    if a >= b then a else b
  }

  /** `Math.round(x)`: the nearest integer, halves rounded towards +infinity. */
  function MathRound(x: real): (r: int)
    ensures x - 1.0 / 2.0 < r as real <= x + 1.0 / 2.0
  {
    (x + 1.0 / 2.0).Floor
  }

  function Pow10(n: nat): (p: nat)
    ensures p >= 1
  {
    if n == 0 then 1 else 10 * Pow10(n - 1)
  }

  /** `Math.round` applied to a magnitude: halves go up. */
  function RoundHalfUp(x: real): int
  {
    (x + 1.0 / 2.0).Floor
  }

  /**
   * The number of `1 / scale` steps `toFixed` keeps: the magnitude of
   * `x * scale` rounded, an exact half going away from zero, with the sign of `x`.
   */
  function FixedUnits(x: real, scale: real): (n: int)
    requires scale >= 1.0
    ensures x * scale - 1.0 / 2.0 <= n as real <= x * scale + 1.0 / 2.0
    ensures x >= 0.0 ==> n >= 0
  {
    if x >= 0.0 then RoundHalfUp(x * scale) else -RoundHalfUp(-x * scale)
  }

  lemma {:induction false} DivideThenScale(n: real, scale: real)
    requires scale >= 1.0
    ensures (n / scale) * scale == n
  {
  }

  /** `Number(x.toFixed(places))`: a whole number of `10^-places` steps. */
  function ToFixed(x: real, places: nat): real
  {
    FixedUnits(x, Pow10(places) as real) as real / Pow10(places) as real
  }

  /** `toFixed` is symmetric about zero: only the magnitude is rounded. */
  lemma {:induction false} ToFixedOdd(x: real, places: nat)
    requires x != 0.0
    ensures ToFixed(-x, places) == -ToFixed(x, places)
  {
  }

  /** A value already written with `places` decimals is kept as it is. */
  lemma {:induction false} ToFixedExact(k: int, places: nat)
    ensures ToFixed(k as real / Pow10(places) as real, places) == k as real / Pow10(places) as real
  {
    var s := Pow10(places) as real;
    var x := k as real / s;
    DivideThenScale(k as real, s);
    assert x * s == k as real;
    assert -x * s == -k as real;
    assert FixedUnits(x, s) == k;
  }

  // ------------------------------------------------------------------
  // Decimal text of integers
  // ------------------------------------------------------------------

  predicate IsDigit(c: char)
  {
    '0' <= c <= '9'
  }

  predicate AllDigits(s: string)
  {
    forall i :: 0 <= i < |s| ==> IsDigit(s[i])
  }

  function DigitChar(d: nat): (c: char)
    requires d < 10
    ensures IsDigit(c) && (c as int) - ('0' as int) == d
  {
    ('0' as int + d) as char
  }

  function DigitValue(c: char): (d: nat)
    requires IsDigit(c)
    ensures d < 10 && DigitChar(d) == c
  {
    (c as int) - ('0' as int)
  }

  /** The decimal text of a natural number, without leading zeros (what `${n}` prints). */
  function NatToString(n: nat): (s: string)
    ensures |s| >= 1 && AllDigits(s)
    ensures n >= 10 <==> |s| >= 2
    ensures |s| >= 2 ==> s[0] != '0'
    decreases n
  {
    if n < 10 then [DigitChar(n)] else NatToString(n / 10) + [DigitChar(n % 10)]
  }

  /** The decimal text of an integer, with a leading '-' when negative. */
  function IntToString(i: int): (s: string)
    ensures |s| >= 1
    ensures (i < 0) <==> s[0] == '-'
  {
    if i < 0 then "-" + NatToString(-i) else NatToString(i)
  }

  /** The value of a string of decimal digits (leading zeros allowed). */
  function ParseDigits(s: string): (n: nat)
    requires AllDigits(s)
    decreases |s|
  {
    if s == [] then 0 else ParseDigits(s[..|s| - 1]) * 10 + DigitValue(s[|s| - 1])
  }

  /** Reading back the decimal text of `n` gives `n`. */
  lemma {:induction false} ParseNatToString(n: nat)
    ensures ParseDigits(NatToString(n)) == n
    decreases n
  {
    var s := NatToString(n);
    if n < 10 {
      assert s[..|s| - 1] == [];
    } else {
      assert s[..|s| - 1] == NatToString(n / 10);
      ParseNatToString(n / 10);
    }
  }

  /** A leading zero does not change the value of a digit string. */
  lemma {:induction false} ParseLeadingZero(s: string)
    requires AllDigits(s)
    ensures AllDigits("0" + s) && ParseDigits("0" + s) == ParseDigits(s)
    decreases |s|
  {
    var t := "0" + s;
    assert AllDigits(t) by {
      forall i | 0 <= i < |t| ensures IsDigit(t[i]) {
        if i > 0 { assert t[i] == s[i - 1]; }
      }
    }
    if s == [] {
      assert t[..|t| - 1] == [];
    } else {
      assert t[..|t| - 1] == "0" + s[..|s| - 1];
      ParseLeadingZero(s[..|s| - 1]);
    }
  }

  /** Different naturals have different decimal texts. */
  lemma {:induction false} NatToStringInjective(m: nat, n: nat)
    requires NatToString(m) == NatToString(n)
    ensures m == n
  {
    ParseNatToString(m);
    ParseNatToString(n);
  }
}
