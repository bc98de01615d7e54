/**
 * Java's conversions from double (and float) to int, written out on reals:
 * the `(int)` cast truncates toward zero and saturates at the 32-bit range,
 * and Math.round(float) is floor(x + 1/2), saturated the same way.
 */
module Numerics {

  const MinInt := -0x8000_0000
  const MaxInt := 0x7FFF_FFFF

  predicate IsInt32(n: int) {
    MinInt <= n <= MaxInt
  }

  /** r rounded toward zero. */
  function Trunc(r: real): (n: int)
    ensures 0.0 <= r ==> 0 <= n && n as real <= r < n as real + 1.0
    ensures r < 0.0 ==> n <= 0 && n as real - 1.0 < r <= n as real
  {
    if 0.0 <= r then r.Floor else -((-r).Floor)
  }

  /** The `(int)` cast of a double (also the implicit narrowing of `int += double`). */
  function DoubleToInt(r: real): (n: int)
    ensures IsInt32(n)
    ensures MaxInt as real <= r ==> n == MaxInt
    ensures r <= MinInt as real ==> n == MinInt
    ensures MinInt as real < r < MaxInt as real ==> n == Trunc(r)
  {
    if MaxInt as real <= r then MaxInt
    else if r <= MinInt as real then MinInt
    else Trunc(r)
  }

  /** Math.round: the nearest int, halves rounded up, saturated to the 32-bit range. */
  function JavaRound(r: real): (n: int)
    ensures IsInt32(n)
    ensures MinInt as real <= r < MaxInt as real ==> n as real - 0.5 <= r < n as real + 0.5
  {
    var f := (r + 0.5).Floor;
    if f < MinInt then MinInt else if f > MaxInt then MaxInt else f
  }

  /** An int that already fits is unchanged by the cast. */
  lemma {:induction false} DoubleToIntOfInt(n: int)
    requires IsInt32(n)
    ensures DoubleToInt(n as real) == n
  {
  }
}
