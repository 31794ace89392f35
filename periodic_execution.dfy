/**
 * When a periodic task runs next (widesim/computation/PeriodicExecutionModel.java):
 * the clock rounded up to a whole number of periods.
 */
module PeriodicExecution {

  /** Java's Math.ceil on exact reals. */
  function Ceil(x: real): (r: int)
    ensures x <= r as real < x + 1.0
  {
    -((-x).Floor)
  }

  lemma CeilOfInt(k: int)
    ensures Ceil(k as real) == k
  {
  }

  /** `Math.ceil(clock / t) * t`; a zero period is a floating-point division the model leaves out. */
  function NextExecutionTime(t: real, clock: real): (r: real)
    requires t != 0.0
    ensures (r / t).Floor as real == r / t
    ensures t > 0.0 ==> clock <= r < clock + t
    ensures t < 0.0 ==> clock + t < r <= clock
  {
    var k := Ceil(clock / t);
    RoundedUpBounds(t, clock, k);
    k as real * t
  }

  lemma RoundedUpBounds(t: real, clock: real, k: int)
    requires t != 0.0
    requires clock / t <= k as real < clock / t + 1.0
    ensures (k as real * t) / t == k as real
    ensures t > 0.0 ==> clock <= k as real * t < clock + t
    ensures t < 0.0 ==> clock + t < k as real * t <= clock
  {
    var q := clock / t;
    var d := k as real - q;
    assert 0.0 <= d < 1.0;
    assert q * t == clock;
    assert k as real * t == clock + d * t;
    var e := 1.0 - d;
    assert e > 0.0;
    assert d * t + e * t == t;
    if t > 0.0 {
      assert d * t >= 0.0;
      assert e * t > 0.0;
    } else {
      assert d * t <= 0.0;
      assert e * t < 0.0;
    }
  }

  /** A time that is already a whole number of periods is its own next execution time. */
  lemma NextExecutionTimeIsIdempotent(t: real, clock: real)
    requires t != 0.0
    ensures NextExecutionTime(t, NextExecutionTime(t, clock)) == NextExecutionTime(t, clock)
  {
    var k := Ceil(clock / t);
    RoundedUpBounds(t, clock, k);
    var r := k as real * t;
    assert r == NextExecutionTime(t, clock);
    assert r / t == k as real;
    CeilOfInt(k);
    assert Ceil(r / t) == k;
    assert NextExecutionTime(t, r) == Ceil(r / t) as real * t;
  }
}
