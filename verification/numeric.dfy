/**
 Scalar helpers standing in for the Java and libGDX arithmetic the physics step
 relies on: the `(int)` cast of a float, `Math.abs` and `MathUtils.clamp`.
 Floats are modelled as exact `real`s.
 */
module Numeric {

  /** `n` is `r` truncated toward zero: the floor of a non-negative `r`, the ceiling of a negative one. */
  predicate TruncatesTo(r: real, n: int)
  {
    && (0.0 <= r ==> 0 <= n && n as real <= r < n as real + 1.0)
    && (r < 0.0 ==> n <= 0 && n as real - 1.0 < r <= n as real)
  }

  /** Java's `(int)` cast: truncation toward zero (not floor). */
  function Trunc(r: real): (n: int)
    ensures TruncatesTo(r, n)
  {
    if r >= 0.0 then r.Floor else -((-r).Floor)
  }

  /** `Math.abs` on a float. */
  function Abs(r: real): (a: real)
    ensures 0.0 <= a
    ensures a == r || a == -r
  {
    if r < 0.0 then -r else r
  }

  /** `MathUtils.clamp(value, min, max)`: below `min` gives `min`, above `max` gives `max`. */
  function Clamp(value: real, min: real, max: real): (r: real)
    ensures min <= max ==> min <= r <= max
    ensures min <= value <= max ==> r == value
    ensures value < min ==> r == min
    ensures min <= max < value ==> r == max
  {
    if value < min then min else if value > max then max else value
  }

  /** At most one integer is the truncation of a real, so `TruncatesTo` pins down the cast. */
  lemma TruncatesToUnique(r: real, n: int, m: int)
    requires TruncatesTo(r, n) && TruncatesTo(r, m)
    ensures n == m
  {
  }

  /** A cast of an integer-valued float gives back that integer. */
  lemma TruncOfInt(n: int)
    ensures Trunc(n as real) == n
  {
  }

  /** Truncation is monotone, so a range computed from a lower and an upper edge is never inverted. */
  lemma TruncMonotone(a: real, b: real)
    requires a <= b
    ensures Trunc(a) <= Trunc(b)
  {
  }

  /** Truncation and floor disagree on every negative non-integer. */
  lemma TruncIsNotFloor(r: real)
    requires r < 0.0 && r != r.Floor as real
    ensures Trunc(r) == r.Floor + 1
  {
  }
}
