/**
 * The two C++ conversions the pipeline relies on, written out because
 * Dafny's `real` and `int` are exact and unbounded.
 */
module Numeric {

  /** Assignment of a float to an `int`: the value truncated toward zero. */
  function Trunc(r: real): (t: int)
    ensures 0.0 <= r ==> 0 <= t && t as real <= r < t as real + 1.0
    ensures r < 0.0 ==> t <= 0 && t as real - 1.0 < r <= t as real
  {
    if r >= 0.0 then r.Floor else -((-r).Floor)
  }

  /** Truncation toward zero never reverses the order of two values. */
  lemma TruncMonotonic(r: real, s: real)
    requires r <= s
    ensures Trunc(r) <= Trunc(s)
  {
  }

  /** C++ `int / 5`: the quotient truncated toward zero. */
  function CDiv5(a: int): (q: int)
    ensures 0 <= a ==> 0 <= q && 5 * q <= a < 5 * q + 5
    ensures a < 0 ==> q <= 0 && 5 * q - 5 < a <= 5 * q
  {
    if a >= 0 then a / 5 else -((-a) / 5)
  }
}
