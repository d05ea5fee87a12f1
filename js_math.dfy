/**
 * The JavaScript numeric helpers the calculators rely on, over exact reals.
 * Floating-point representation error is not modelled.
 */
module JsMath {

  /**
   * `Math.round`: the nearest integer, halves rounded towards +infinity,
   * i.e. the integer `r` with `r - 1/2 <= x < r + 1/2`.
   */
  function Round(x: real): (r: int)
    ensures r as real - 0.5 <= x < r as real + 0.5
  {
    (x + 0.5).Floor
  }

  /** `Math.round(x * 100) / 100`: rounding to two decimal places. */
  function RoundCents(x: real): (r: real)
    ensures x - 0.005 < r <= x + 0.005
    ensures (r * 100.0).Floor as real == r * 100.0
  {
    var n := Round(x * 100.0);
    var r := n as real / 100.0;
    assert r * 100.0 == n as real;
    r
  }

  /** `Math.max(a, b)`. */
  function Max(a: real, b: real): (r: real)
    ensures r >= a && r >= b
    ensures r == a || r == b
  {
    if a >= b then a else b
  }

  /** `Math.min(a, b)`. */
  function Min(a: real, b: real): (r: real)
    ensures r <= a && r <= b
    ensures r == a || r == b
  {
    if a <= b then a else b
  }

  /** Rounding an integer leaves it unchanged. */
  lemma RoundOfInteger(n: int)
    ensures Round(n as real) == n
  {
  }

  /** Rounding preserves order. */
  lemma RoundMonotone(x: real, y: real)
    requires x <= y
    ensures Round(x) <= Round(y)
  {
  }

  /** A value between two integers rounds to a value between them. */
  lemma RoundBetween(lo: int, x: real, hi: int)
    requires lo as real <= x <= hi as real
    ensures lo <= Round(x) <= hi
  {
    RoundOfInteger(lo);
    RoundOfInteger(hi);
    RoundMonotone(lo as real, x);
    RoundMonotone(x, hi as real);
  }
}
