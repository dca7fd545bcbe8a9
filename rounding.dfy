/**
 * The three rounding operations of the estimator, on exact reals:
 * JavaScript's Math.round and Math.ceil, and the two-decimal helper
 * `round(n) = Math.round(n * 100) / 100`.
 */
module Rounding {

  /** x is a whole number. */
  predicate IsWhole(x: real) {
    x.Floor as real == x
  }

  /** x is a whole number of hundredths. */
  predicate IsCents(x: real) {
    IsWhole(x * 100.0)
  }

  /** Math.round: the nearest integer, a half rounded toward +infinity. */
  function RoundHalfUp(x: real): (r: int)
    ensures x - 0.5 < r as real <= x + 0.5
  {
    (x + 0.5).Floor
  }

  /** Math.ceil: the least integer that is not below x. */
  function Ceil(x: real): (r: int)
    ensures x <= r as real < x + 1.0
  {
    -((-x).Floor)
  }

  /** round(n): n to two decimals, a half-cent rounded up. */
  function Round2(n: real): (r: real)
    ensures IsCents(r)
    ensures n - 0.005 < r <= n + 0.005
    ensures 0.0 <= n ==> 0.0 <= r
  {
    RoundHalfUp(n * 100.0) as real / 100.0
  }

  lemma RoundHalfUpOfWhole(x: real)
    requires IsWhole(x)
    ensures RoundHalfUp(x) as real == x
  {
    var k := x.Floor;
    var r := RoundHalfUp(x);
    assert k as real - 0.5 < r as real <= k as real + 0.5;
    assert k - 1 < r < k + 1;
  }

  lemma RoundHalfUpMonotone(x: real, y: real)
    requires x <= y
    ensures RoundHalfUp(x) <= RoundHalfUp(y)
  {
  }

  /** A value already at two decimals is left alone. */
  lemma Round2OfCents(x: real)
    requires IsCents(x)
    ensures Round2(x) == x
  {
    RoundHalfUpOfWhole(x * 100.0);
  }

  lemma Round2Idempotent(n: real)
    ensures Round2(Round2(n)) == Round2(n)
  {
    Round2OfCents(Round2(n));
  }

  lemma IntIsWhole(n: int)
    ensures IsWhole(n as real)
  {
  }

  lemma WholeIsCents(x: real)
    requires IsWhole(x)
    ensures IsCents(x)
  {
    var m := x.Floor;
    assert x == m as real;
    assert x * 100.0 == (m * 100) as real;
    IntIsWhole(m * 100);
  }

  lemma Round2OfWhole(x: real)
    requires IsWhole(x)
    ensures Round2(x) == x
  {
    WholeIsCents(x);
    Round2OfCents(x);
  }

  lemma Round2Monotone(x: real, y: real)
    requires x <= y
    ensures Round2(x) <= Round2(y)
  {
    RoundHalfUpMonotone(x * 100.0, y * 100.0);
  }

  /** Rounding a non-negative value never goes below zero. */
  lemma Round2NonNegative(x: real)
    requires 0.0 <= x
    ensures 0.0 <= Round2(x)
  {
    RoundHalfUpMonotone(0.0, x * 100.0);
    RoundHalfUpOfWhole(0.0);
  }

  lemma Round2Zero()
    ensures Round2(0.0) == 0.0
  {
    Round2OfWhole(0.0);
  }

  lemma CeilMonotone(x: real, y: real)
    requires x <= y
    ensures Ceil(x) <= Ceil(y)
  {
  }

  lemma CeilOfWhole(x: real)
    requires IsWhole(x)
    ensures Ceil(x) as real == x
  {
    var k := x.Floor;
    var r := Ceil(x);
    assert k as real <= r as real < k as real + 1.0;
    assert k <= r < k + 1;
  }
}
