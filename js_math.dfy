/** The JavaScript `Math` functions the core applies to exact reals. */
module JsMath {

  /** `Math.round`: the nearest integer, halves rounded up (toward +infinity, also for negative numbers). */
  function Round(x: real): (r: int)
    ensures r as real - 0.5 <= x < r as real + 0.5
  {
    (x + 0.5).Floor
  }

  /** Rounding never reverses the order of two numbers. */
  lemma {:induction false} RoundMonotone(x: real, y: real)
    requires x <= y
    ensures Round(x) <= Round(y)
  {
  }

  /** A whole number rounds to itself. */
  lemma {:induction false} RoundWhole(n: int)
    ensures Round(n as real) == n
  {
  }
}
