/** Rounding as the dashboard does it: `Math.round` and rounding to a number of decimals. */
module Numbers {

  /** `Math.round`: the nearest integer, halves rounded up. */
  function RoundHalfUp(x: real): (r: int)
    ensures x - 0.5 < r as real <= x + 0.5
  {
    (x + 0.5).Floor
  }

  /** Rounding never reverses an order. */
  lemma RoundMonotone(x: real, y: real)
    requires x <= y
    ensures RoundHalfUp(x) <= RoundHalfUp(y)
  {
  }

  /** `r` is a whole number of steps of `1 / scale`: what a value rounded to decimals is. */
  predicate OnGrid(r: real, scale: nat)
  {
    (r * scale as real).Floor as real == r * scale as real
  }

  /**
   * `Math.round(x * scale) / scale`, as exact arithmetic: a whole number of steps of
   * `1 / scale`, within half a step of `x`.
   */
  function RoundTo(x: real, scale: nat): (r: real)
    requires scale > 0
    ensures OnGrid(r, scale)
    ensures x - 0.5 / scale as real < r <= x + 0.5 / scale as real
  {
    var n := RoundHalfUp(x * scale as real);
    WholeSteps(n, scale);
    assert (x - 0.5 / scale as real) * scale as real == x * scale as real - 0.5;
    assert (x + 0.5 / scale as real) * scale as real == x * scale as real + 0.5;
    n as real / scale as real
  }

  /** `n` steps of `1 / scale` lie on the grid of that step. */
  lemma WholeSteps(n: int, scale: nat)
    requires scale > 0
    ensures OnGrid(n as real / scale as real, scale)
  {
    var t := n as real / scale as real * scale as real;
    assert t == n as real;
    assert t.Floor == n;
  }

  /** A share of a positive whole that is at most the whole lies in [0, 1]. */
  lemma ShareBounds(part: real, whole: real)
    requires whole > 0.0 && 0.0 <= part <= whole
    ensures 0.0 <= part / whole <= 1.0
  {
    var q := part / whole;
    assert q * whole == part;
    assert (1.0 - q) * whole == whole - part;
  }

  /** Multiplying by a positive number keeps the sign. */
  lemma SignOfProduct(x: real, n: real)
    requires n > 0.0
    ensures x > 0.0 <==> x * n > 0.0
    ensures x >= 0.0 <==> x * n >= 0.0
  {
  }
}
