/**
 * The rig's GPIO outputs and the passage of time, as one hardware context shared by every
 * component: the current level of each output line, the pump PWM duty, and the ordered log of
 * everything written to the outputs (including the sleeps that time the step pulses).
 */
module Hardware {

  /** A digital line level. */
  datatype Level = Low | High

  /**
   * The two limit-switch inputs as seen by one polling loop: the pin level read at the
   * loop's i-th check of each switch.
   */
  datatype Limits = Limits(top: nat -> Level, bot: nat -> Level)

  /** One thing done to the outputs, in the order it was done. */
  datatype Event =
    | En(level: Level)       // driver EN line written
    | Dir(level: Level)      // DIR line written
    | Pulse(half: real)      // STEP HIGH, sleep `half`, STEP LOW, sleep `half`
    | Relay(level: Level)    // relay coil line written
    | Duty(percent: real)    // pump PWM duty changed (or started)
    | Wait(seconds: real)    // a sleep outside a step pulse
    | Released               // all GPIO channels released

  /** The line level for a direction: HIGH means up. */
  function DirLevel(up: bool): (l: Level)
    ensures (l == High) == up
  {
    if up then High else Low
  }

  /** `n` step pulses, each level held for `half` seconds. */
  function Pulses(n: nat, half: real): (s: seq<Event>)
    ensures |s| == n
    ensures forall k :: 0 <= k < n ==> s[k] == Pulse(half)
  {
    if n == 0 then [] else Pulses(n - 1, half) + [Pulse(half)]
  }

  /** Time an event keeps the calling thread busy. */
  function Duration(e: Event): real
  {
    match e
    case Pulse(half) => 2.0 * half
    case Wait(seconds) => seconds
    case _ => 0.0
  }

  /** Total time spent sleeping while producing `log`. */
  function Elapsed(log: seq<Event>): real
  {
    if log == [] then 0.0 else Elapsed(log[..|log| - 1]) + Duration(log[|log| - 1])
  }

  /** Time adds up over consecutive stretches of the log. */
  lemma {:induction false} ElapsedConcat(a: seq<Event>, b: seq<Event>)
    ensures Elapsed(a + b) == Elapsed(a) + Elapsed(b)
    decreases |b|
  {
    if b != [] {
      var b' := b[..|b| - 1];
      var ab := a + b;
      assert ab[..|ab| - 1] == a + b';
      assert ab[|ab| - 1] == b[|b| - 1];
      ElapsedConcat(a, b');
      assert Elapsed(ab) == Elapsed(a + b') + Duration(b[|b| - 1]);
      assert Elapsed(b) == Elapsed(b') + Duration(b[|b| - 1]);
    } else {
      assert a + b == a;
    }
  }

  /** A single event takes its own duration. */
  lemma ElapsedSingle(e: Event)
    ensures Elapsed([e]) == Duration(e)
  {
    assert [e][..0] == [];
  }

  /** Stretches appended to a log one at a time: the log followed by all of them. */
  lemma AppendFour(before: seq<Event>, s1: seq<Event>, s2: seq<Event>, s3: seq<Event>, s4: seq<Event>)
    ensures before + s1 + s2 + s3 + s4 == before + (s1 + s2 + s3 + s4)
  {
  }

  lemma AppendFive(before: seq<Event>, s1: seq<Event>, s2: seq<Event>, s3: seq<Event>, s4: seq<Event>,
                   s5: seq<Event>)
    ensures before + s1 + s2 + s3 + s4 + s5 == before + (s1 + s2 + s3 + s4 + s5)
  {
  }

  lemma AppendSix(before: seq<Event>, s1: seq<Event>, s2: seq<Event>, s3: seq<Event>, s4: seq<Event>,
                  s5: seq<Event>, s6: seq<Event>)
    ensures before + s1 + s2 + s3 + s4 + s5 + s6 == before + (s1 + s2 + s3 + s4 + s5 + s6)
  {
  }

  /** A train of `n` pulses of half-period `half` takes 2 * half * n seconds. */
  lemma {:induction false} ElapsedPulses(n: nat, half: real)
    ensures Elapsed(Pulses(n, half)) == 2.0 * half * n as real
  {
    if n > 0 {
      var before := Pulses(n - 1, half);
      ElapsedPulses(n - 1, half);
      ElapsedConcat(before, [Pulse(half)]);
      assert [Pulse(half)][..0] == [];
      assert Elapsed([Pulse(half)]) == 2.0 * half;
      calc {
        Elapsed(Pulses(n, half));
        Elapsed(before) + 2.0 * half;
        2.0 * half * (n - 1) as real + 2.0 * half;
        2.0 * half * n as real;
      }
    }
  }

  /** The GPIO outputs of the rig; every write lands in `log`. */
  class Rig {
    var en: Level
    var dir: Level
    var relay: Level
    var pwm: real
    var log: seq<Event>

    /** Power-on: every output line LOW, PWM idle, nothing written yet. */
    constructor ()
      ensures en == Low && dir == Low && relay == Low && pwm == 0.0 && log == []
    {
      en, dir, relay, pwm, log := Low, Low, Low, 0.0, [];
    }

    method WriteEn(l: Level)
      modifies this`en, this`log
      ensures en == l && log == old(log) + [En(l)]
    {
      en := l;
      log := log + [En(l)];
    }

    method WriteDir(l: Level)
      modifies this`dir, this`log
      ensures dir == l && log == old(log) + [Dir(l)]
    {
      dir := l;
      log := log + [Dir(l)];
    }

    method WriteRelay(l: Level)
      modifies this`relay, this`log
      ensures relay == l && log == old(log) + [Relay(l)]
    {
      relay := l;
      log := log + [Relay(l)];
    }

    method WritePwm(percent: real)
      modifies this`pwm, this`log
      ensures pwm == percent && log == old(log) + [Duty(percent)]
    {
      pwm := percent;
      log := log + [Duty(percent)];
    }

    /** One STEP pulse: HIGH for `half` seconds, then LOW for `half` seconds. */
    method StepPulse(half: real)
      modifies this`log
      ensures log == old(log) + [Pulse(half)]
    {
      log := log + [Pulse(half)];
    }

    method Sleep(seconds: real)
      modifies this`log
      ensures log == old(log) + [Wait(seconds)]
    {
      log := log + [Wait(seconds)];
    }

    /** GPIO.cleanup(): hand every channel back. */
    method Release()
      modifies this`log
      ensures log == old(log) + [Released]
    {
      log := log + [Released];
    }
  }
}
