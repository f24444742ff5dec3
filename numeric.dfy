/**
 * The JavaScript number operations the analyzer uses, over exact reals.
 * `Math.round` rounds to the nearest integer with halves going up, which is
 * `Floor(x + 1/2)`; the analyzer's one- and two-decimal roundings are
 * `Math.round(x * 10) / 10` and `Math.round(x * 100) / 100`.
 */
module Numeric {

  function Min(a: real, b: real): real { if a <= b then a else b }

  function Max(a: real, b: real): real { if a >= b then a else b }

  function Abs(a: real): real { if a < 0.0 then -a else a }

  function MinInt(a: int, b: int): int { if a <= b then a else b }

  function MaxInt(a: int, b: int): int { if a >= b then a else b }

  /** `Math.round`: the integer nearest to `x`, halves rounded up. */
  function Round(x: real): (r: int)
    ensures x - 0.5 < r as real <= x + 0.5
  {
    (x + 0.5).Floor
  }

  /** Rounding to one decimal, `Math.round(x * 10) / 10`. */
  function Round1(x: real): (r: real)
    ensures x - 0.05 < r <= x + 0.05
  {
    Round(x * 10.0) as real / 10.0
  }

  /** Rounding to two decimals, `Math.round(x * 100) / 100`. */
  function Round2(x: real): (r: real)
    ensures x - 0.005 < r <= x + 0.005
  {
    Round(x * 100.0) as real / 100.0
  }

  /** Sign and size of a quotient of a non-negative number by a positive one. */
  lemma Ratio(a: real, b: real)
    requires 0.0 <= a && 0.0 < b
    ensures a / b >= 0.0
    ensures a <= b ==> a / b <= 1.0
    ensures a >= b ==> a / b >= 1.0
  {
    var q := a / b;
    assert q * b == a;
  }

  lemma RoundOfInt(k: int)
    ensures Round(k as real) == k
  {
  }

  lemma RoundMonotonic(x: real, y: real)
    requires x <= y
    ensures Round(x) <= Round(y)
  {
  }

  lemma Round1Monotonic(x: real, y: real)
    requires x <= y
    ensures Round1(x) <= Round1(y)
  {
    RoundMonotonic(x * 10.0, y * 10.0);
  }

  /**
   * One-decimal rounding keeps a value inside any interval whose ends are
   * themselves multiples of one tenth.
   */
  lemma Round1Within(x: real, lo: int, hi: int)
    requires lo as real / 10.0 <= x <= hi as real / 10.0
    ensures lo as real / 10.0 <= Round1(x) <= hi as real / 10.0
  {
    RoundMonotonic(lo as real, x * 10.0);
    RoundMonotonic(x * 10.0, hi as real);
    RoundOfInt(lo);
    RoundOfInt(hi);
  }

  /** Same for two-decimal rounding and multiples of one hundredth. */
  lemma Round2Within(x: real, lo: int, hi: int)
    requires lo as real / 100.0 <= x <= hi as real / 100.0
    ensures lo as real / 100.0 <= Round2(x) <= hi as real / 100.0
  {
    RoundMonotonic(lo as real, x * 100.0);
    RoundMonotonic(x * 100.0, hi as real);
    RoundOfInt(lo);
    RoundOfInt(hi);
  }
}
