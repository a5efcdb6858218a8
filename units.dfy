/**
 * The conversions shared by the motion controller and both bench scripts: a distance to a
 * whole number of step pulses, a feed to a pulse rate, and a pulse rate to the time each
 * STEP level is held.
 */
module Units {
  import opened Config

  function Abs(x: real): (a: real)
    ensures a >= 0.0 && (a == x || a == -x)
  {
    if x < 0.0 then -x else x
  }

  /**
   * `int(abs(mm) * STEPS_PER_MM)`: the whole number of pulses in a distance, truncated
   * (never rounded up).
   */
  function StepsFor(mm: real): (n: nat)
    ensures n as real <= Abs(mm) * StepsPerMm as real < n as real + 1.0
  {
    (Abs(mm) * StepsPerMm as real).Floor
  }

  /** The pulse count depends on the distance only, not on the direction of travel. */
  lemma StepsForSignFree(mm: real)
    ensures StepsFor(-mm) == StepsFor(mm)
  {
    assert Abs(-mm) == Abs(mm);
  }

  /**
   * Truncation, not rounding: 0.000624 mm is 0.9984 of a step and gives no pulse, 0.0009375 mm is
   * 1.5 steps and gives one pulse; rounding would give one and two.
   */
  lemma StepsForTruncates()
    ensures StepsFor(1.0) == 1600
    ensures StepsFor(0.000624) == 0
    ensures StepsFor(0.0009375) == 1
    ensures StepsFor(-0.5) == 800
  {
    StepsForSignFree(0.5);
  }

  /** Pulses per second at a feed in mm/s. */
  function StepHz(feed: real): real
  {
    feed * StepsPerMm as real
  }

  /** `1 / (2 * step_hz)`: each STEP level is held for half a pulse period. */
  function HalfPeriod(stepHz: real): (half: real)
    requires stepHz > 0.0
    ensures half > 0.0
    ensures 2.0 * half * stepHz == 1.0
  {
    1.0 / (2.0 * stepHz)
  }

  /** A faster pulse rate holds each level for strictly less time. */
  lemma HalfPeriodDecreasing(hz1: real, hz2: real)
    requires 0.0 < hz1 < hz2
    ensures HalfPeriod(hz2) < HalfPeriod(hz1)
  {
    var h1, h2 := HalfPeriod(hz1), HalfPeriod(hz2);
    assert h2 * hz2 == h1 * hz1;
    assert h2 * hz1 < h2 * hz2;
    assert (h1 - h2) * hz1 == h1 * hz1 - h2 * hz1;
    assert h1 - h2 == ((h1 - h2) * hz1) / hz1;
  }

  /** Halving the pulse rate doubles the half-period. */
  lemma HalfPeriodOfHalfRate(hz: real)
    requires hz > 0.0
    ensures HalfPeriod(hz / 2.0) == 2.0 * HalfPeriod(hz)
  {
  }
}
