/**
 * Exact arithmetic shared by every strategy variant. Resources are exact
 * reals, and Python's `math.trunc` rounds toward zero, which differs from
 * flooring as soon as its argument is negative (v1 truncates `MP - 7`).
 */
module Numeric {

  /** Python's `math.trunc`: the integer part of `r`, rounded toward zero. */
  function Trunc(r: real): (n: int)
    ensures 0.0 <= r ==> 0 <= n && n as real <= r < n as real + 1.0
    ensures r < 0.0 ==> n <= 0 && n as real - 1.0 < r <= n as real
  {
    if 0.0 <= r then r.Floor else -((-r).Floor)
  }

  /** How many times the body of `for _ in range(k)` runs: never when `k` is negative. */
  function Iterations(k: int): nat
  {
    if k < 0 then 0 else k
  }

  /** Truncation never decreases when its argument grows. */
  lemma TruncMonotone(a: real, b: real)
    requires a <= b
    ensures Trunc(a) <= Trunc(b)
  {
  }

  /** Subtracting a whole number no larger than `r` commutes with truncation. */
  lemma TruncShift(r: real, k: int)
    requires 0 <= k && k as real <= r
    ensures Trunc(r - k as real) == Trunc(r) - k
  {
  }

  /** On a negative argument that is not whole, truncation is one above flooring. */
  lemma TruncIsNotFloor(r: real)
    requires r < 0.0 && r != r.Floor as real
    ensures Trunc(r) == r.Floor + 1
  {
  }

  /** A ratio test against a positive denominator is a cross-multiplied comparison. */
  lemma RatioAtLeast(x: real, d: real, c: real)
    requires 0.0 < d
    ensures x / d >= c <==> x >= c * d
  {
    assert x / d * d == x;
    if x / d >= c {
      assert x / d * d >= c * d;
    } else {
      assert x / d * d < c * d;
    }
  }
}
