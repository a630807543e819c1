/**
 * JavaScript's `Math.round` applied to an exact quotient `p / q` with `q > 0`.
 *
 * `Math.round(x)` is `floor(x + 1/2)`: it rounds to the nearest integer and a
 * tie goes towards +Infinity (`Math.round(-2.5) == -2`).  For `x == p / q`
 * that is `floor((2p + q) / (2q))`, which Dafny's division (flooring for a
 * positive divisor) computes on integers without any floating point.
 */
module Rounding {

  /** `Math.round(p / q)`: the integer `r` with `r - 1/2 <= p/q < r + 1/2`. */
  function RoundDiv(p: int, q: int): (r: int)
    requires q > 0
    ensures q * (2 * r - 1) <= 2 * p < q * (2 * r + 1)
  {
    var n, d := 2 * p + q, 2 * q;
    var r := n / d;
    assert n == d * r + n % d && 0 <= n % d < d;
    assert 2 * p == q * (2 * r - 1) + n % d;
    r
  }

  /** The rounding condition has exactly one solution, so it defines `RoundDiv`. */
  lemma RoundDivUnique(p: int, q: int, r: int)
    requires q > 0
    requires q * (2 * r - 1) <= 2 * p < q * (2 * r + 1)
    ensures RoundDiv(p, q) == r
  {
    var s := RoundDiv(p, q);
    MulCancelLess(q, 2 * s - 1, 2 * r + 1);
    MulCancelLess(q, 2 * r - 1, 2 * s + 1);
  }

  /** Rounding an exact multiple gives the multiplier back. */
  lemma RoundDivExact(k: int, q: int)
    requires q > 0
    ensures RoundDiv(k * q, q) == k
  {
    assert q * (2 * k - 1) == 2 * (k * q) - q;
    assert q * (2 * k + 1) == 2 * (k * q) + q;
    RoundDivUnique(k * q, q, k);
  }

  /** Rounding never reverses the order of two quotients with one divisor. */
  lemma RoundDivMonotone(p1: int, p2: int, q: int)
    requires q > 0 && p1 <= p2
    ensures RoundDiv(p1, q) <= RoundDiv(p2, q)
  {
    var r1, r2 := RoundDiv(p1, q), RoundDiv(p2, q);
    MulCancelLess(q, 2 * r1 - 1, 2 * r2 + 1);
  }

  /** A quotient whose numerator lies between `lo * q` and `hi * q` rounds into `[lo, hi]`. */
  lemma RoundDivBetween(p: int, q: int, lo: int, hi: int)
    requires q > 0
    requires lo * q <= p <= hi * q
    ensures lo <= RoundDiv(p, q) <= hi
  {
    RoundDivMonotone(lo * q, p, q);
    RoundDivMonotone(p, hi * q, q);
    RoundDivExact(lo, q);
    RoundDivExact(hi, q);
  }

  /**
   * Blending a value `a` 50/50 with a mean `s / m` and rounding stays in any
   * `[lo, hi]` holding both `a` and the mean.
   */
  lemma BlendBetween(m: int, a: int, s: int, lo: int, hi: int)
    requires m > 0
    requires lo <= a <= hi
    requires lo * m <= s <= hi * m
    ensures lo <= RoundDiv(m * a + s, 2 * m) <= hi
  {
    MulMonotone(m, lo, a);
    MulMonotone(m, a, hi);
    assert lo * (2 * m) == lo * m + m * lo;
    assert hi * (2 * m) == hi * m + m * hi;
    RoundDivBetween(m * a + s, 2 * m, lo, hi);
  }

  /** A positive factor can be cancelled from a strict inequality. */
  lemma MulCancelLess(q: int, a: int, b: int)
    requires q > 0 && q * a < q * b
    ensures a < b
  {
    MulMonotone(q, b, a);
  }

  lemma MulMonotone(q: int, a: int, b: int)
    requires q >= 0
    ensures a <= b ==> q * a <= q * b
  {
    if a <= b {
      assert q * b - q * a == q * (b - a);
      MulNonNegative(q, b - a);
    }
  }

  lemma MulNonNegative(a: int, b: int)
    requires a >= 0 && b >= 0
    ensures a * b >= 0
  {
  }
}
