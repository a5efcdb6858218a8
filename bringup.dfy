/**
 * The system bring-up test: arm the relay and start the pump, give the operator time to press
 * the limit switches, enable the driver, jog a short stroke up and back down with a limit and
 * power-cut guard before every pulse, then shut down and clean up. It reads the limits with
 * NC wiring (triggered = HIGH) and detects a cut supply through the ECM bus voltage when the
 * INA219 instrumentation is available.
 */
module Bringup {
  import opened Config
  import opened Hardware
  import opened Scan
  import opened Units
  import opened Safety
  import opened Pump
  import Motion
  import LimitsWithMotor

  // ---- bring-up tunables ----
  const ExpectNcLimits: bool := true
  const MmStroke: real := 2.0
  const FeedMmS: real := 0.5
  const PumpStabilizeS: real := 2.0
  /** A bus voltage below this is taken as E-STOP or a cut supply. */
  const EcmVCutV: real := 2.0
  const UseInaCheck: bool := true

  /** The pause after arming the relay, the operator's limit-check window and the pause between jogs. */
  const ArmSettleS: real := 0.2
  const LimitCheckS: real := 2.0
  const BetweenJogsS: real := 0.5
  /** The sleep of one round of the priming and limit-check loops. */
  const PollS: real := 0.05

  // ---- limit readings ----

  /** `lim_state(pin)`: the label and whether the switch reads triggered under the wiring setting. */
  function LimState(level: Level): (r: (string, bool))
    ensures r.0 == "TRIGGERED"
    ensures r.1 == LimitsWithMotor.Triggered(ExpectNcLimits, level)
    ensures r.1 <==> level == High
  {
    if ExpectNcLimits then ("TRIGGERED", level == High) else ("TRIGGERED", level == Low)
  }

  /** The two bench scripts read a switch the same way. */
  lemma LimStateAgreesWithBench(level: Level)
    ensures LimState(level).1 == LimitsWithMotor.ReadLimit(level)
  {
  }

  /** `limit_blocked(up)`: moving toward a switch that reads triggered. */
  function LimitBlocked(up: bool, top: Level, bot: Level): (blocked: bool)
    ensures blocked <==> (up && top == High) || (!up && bot == High)
  {
    var (_, topTrig) := LimState(top);
    var (_, botTrig) := LimState(bot);
    (up && topTrig) || (!up && botTrig)
  }

  /**
   * On the same pin levels, the jog's limit guard and the motion controller's stop in opposite
   * cases: a facing switch one calls triggered, the other calls clear.
   */
  lemma JogGuardDisagreesWithMotion(up: bool, lim: Limits, i: nat)
    ensures LimitBlocked(up, lim.top(i), lim.bot(i)) == !Motion.MoveBlocked(up, lim)(i)
  {
  }

  // ---- power-cut detection ----

  /** What one `instr.snapshot()` call gives: it raises, or returns named readings. */
  datatype Snapshot = Raised | Readings(values: map<string, real>)

  const BusKey: string := "ecm_bus_V"

  /** `s.get("ecm_bus_V", 0.0)`. */
  function BusVolts(values: map<string, real>): real
  {
    if BusKey in values then values[BusKey] else 0.0
  }

  /**
   * Whether the instrumentation is in use: the check is switched on, the sensors module
   * imported and constructing `Instrumentation` did not raise.
   */
  function InstrPresent(importOk: bool, ctorOk: bool): (present: bool)
    ensures present <==> importOk && ctorOk
  {
    UseInaCheck && importOk && ctorOk
  }

  /**
   * `estop_cut_detected()`: never without instrumentation or when the snapshot raises;
   * otherwise the bus voltage is below the cut threshold, a missing reading counting as 0 V.
   */
  function EstopCutDetected(hasInstr: bool, snap: Snapshot): (cut: bool)
    ensures !hasInstr || snap.Raised? ==> !cut
    ensures hasInstr && snap.Readings? && BusKey !in snap.values ==> cut
    ensures hasInstr && snap.Readings? && BusKey in snap.values ==>
              (cut <==> snap.values[BusKey] < EcmVCutV)
  {
    if !hasInstr then false
    else match snap
      case Raised => false
      case Readings(values) => BusVolts(values) < EcmVCutV
  }

  // ---- the jog ----

  /** The inputs one jog sees at its i-th check: both limit levels and the i-th snapshot. */
  datatype JogInputs = JogInputs(lim: Limits, snaps: nat -> Snapshot)

  /** The limit part of the jog's guard. */
  function BlockedAt(up: bool, lim: Limits): nat -> bool
  {
    (i: nat) => LimitBlocked(up, lim.top(i), lim.bot(i))
  }

  /** What ends a jog before its i-th pulse: the facing limit, then a detected power cut. */
  function JogStop(up: bool, j: JogInputs, hasInstr: bool): nat -> bool
  {
    (i: nat) => LimitBlocked(up, j.lim.top(i), j.lim.bot(i)) || EstopCutDetected(hasInstr, j.snaps(i))
  }

  /** The number of pulses a jog of at most `pulses` steps emits. */
  function JogPulses(pulses: nat, up: bool, j: JogInputs, hasInstr: bool): nat
  {
    FirstTrue(JogStop(up, j, hasInstr), pulses)
  }

  /**
   * A jog never exceeds its step count, emits no pulse once the facing limit reads triggered
   * or a cut is detected, and falls short only because one of them was.
   */
  lemma JogStopsWhenGuarded(pulses: nat, up: bool, j: JogInputs, hasInstr: bool)
    ensures JogPulses(pulses, up, j, hasInstr) <= pulses
    ensures forall k :: 0 <= k < JogPulses(pulses, up, j, hasInstr) ==>
              !LimitBlocked(up, j.lim.top(k), j.lim.bot(k)) && !EstopCutDetected(hasInstr, j.snaps(k))
    ensures var n := JogPulses(pulses, up, j, hasInstr);
            n < pulses ==> LimitBlocked(up, j.lim.top(n), j.lim.bot(n)) || EstopCutDetected(hasInstr, j.snaps(n))
  {
    var n := JogPulses(pulses, up, j, hasInstr);
    forall k | 0 <= k < n
      ensures !LimitBlocked(up, j.lim.top(k), j.lim.bot(k)) && !EstopCutDetected(hasInstr, j.snaps(k))
    {
      assert !JogStop(up, j, hasInstr)(k);
    }
  }

  /** Without instrumentation the snapshots play no part: only the limits stop a jog. */
  lemma JogWithoutInstrument(pulses: nat, up: bool, j: JogInputs)
    ensures JogPulses(pulses, up, j, false) == FirstTrue(BlockedAt(up, j.lim), pulses)
  {
    forall i: nat | i < pulses
      ensures JogStop(up, j, false)(i) == BlockedAt(up, j.lim)(i)
    {
      assert !EstopCutDetected(false, j.snaps(i));
    }
    FirstTrueAgree(JogStop(up, j, false), BlockedAt(up, j.lim), pulses);
  }

  /** `max(feed, MIN_FEED_MM_S) * STEPS_PER_MM`: the jog's rate, floored but never capped. */
  function JogStepHz(feed: real): (hz: real)
    ensures hz > 0.0
    ensures hz == StepHz(feed) || hz == StepHz(MinFeedMmS)
    ensures hz >= StepHz(MinFeedMmS) && hz >= StepHz(feed)
  {
    (if feed >= MinFeedMmS then feed else MinFeedMmS) * StepsPerMm as real
  }

  /**
   * Unlike `move_mm`, the jog does not cap the feed: within the feed window both give the same
   * rate, above it the jog runs faster than the motion controller would.
   */
  lemma JogFeedFlooredNotCapped(feed: real)
    ensures MinFeedMmS <= feed <= MaxFeedMmS ==> JogStepHz(feed) == StepHz(Motion.ClampFeed(feed))
    ensures feed > MaxFeedMmS ==> JogStepHz(feed) == StepHz(feed) > StepHz(Motion.ClampFeed(feed))
    ensures feed < MinFeedMmS ==> JogStepHz(feed) == StepHz(Motion.ClampFeed(feed))
  {
  }

  /**
   * The bring-up numbers: the jog's step count `int(MM_STROKE * STEPS_PER_MM)`, which is
   * StepsFor(MM_STROKE) for the positive stroke, is 3200 pulses at 800 pulses/s, each level held
   * 0.625 ms, as `move_mm` would at 0.5 mm/s.
   */
  lemma JogNumbers()
    ensures StepsFor(MmStroke) == 3200
    ensures JogStepHz(FeedMmS) == 800.0
    ensures HalfPeriod(JogStepHz(FeedMmS)) == 0.000625 == Motion.FeedHalf(FeedMmS)
  {
  }

  /**
   * `jog(up)`: set DIR, then up to `pulses` steps; before each, stop if the facing limit reads
   * triggered or a power cut is detected. The STEP line it drives is pin 17, the driver's STEP.
   */
  method Jog(motion: Motion.MotionController, half: real, pulses: nat, up: bool, j: JogInputs,
             hasInstr: bool)
    modifies motion.rig`dir, motion.rig`log
    ensures motion.rig.dir == DirLevel(up)
    ensures motion.rig.log ==
              old(motion.rig.log) + [Dir(DirLevel(up))] + Pulses(JogPulses(pulses, up, j, hasInstr), half)
  {
    motion.DirUp(up);
    ghost var start := motion.rig.log;
    var moved := 0;
    for i := 0 to pulses
      invariant forall k :: 0 <= k < i ==> !JogStop(up, j, hasInstr)(k)
      invariant motion.rig.log == start + Pulses(i, half)
      invariant motion.rig.dir == DirLevel(up)
      invariant moved == i
    {
      if LimitBlocked(up, j.lim.top(i), j.lim.bot(i)) {
        FirstTrueIs(JogStop(up, j, hasInstr), pulses, i);
        return;
      }
      if EstopCutDetected(hasInstr, j.snaps(i)) {
        FirstTrueIs(JogStop(up, j, hasInstr), pulses, i);
        return;
      }
      motion.rig.StepPulse(half);
      moved := moved + 1;
    }
    FirstTrueIs(JogStop(up, j, hasInstr), pulses, pulses);
  }

  // ---- the timed waits ----

  /** `n` rounds of a polling wait, each a sleep of `PollS`. */
  function Polls(n: nat): (s: seq<Event>)
    ensures |s| == n
    ensures forall k :: 0 <= k < n ==> s[k] == Wait(PollS)
  {
    if n == 0 then [] else Polls(n - 1) + [Wait(PollS)]
  }

  /** `n` polling rounds take `n * PollS` seconds. */
  lemma {:induction false} ElapsedPolls(n: nat)
    ensures Elapsed(Polls(n)) == PollS * n as real
  {
    if n > 0 {
      ElapsedPolls(n - 1);
      ElapsedConcat(Polls(n - 1), [Wait(PollS)]);
      ElapsedSingle(Wait(PollS));
    }
  }

  /**
   * The number of rounds a `while time.time() - t0 < seconds` loop sleeping `PollS` per round
   * runs when only its sleeps take time: the fewest rounds whose sleeps reach `seconds`.
   */
  function PollCount(seconds: real): (n: nat)
    ensures seconds <= PollS * n as real
    ensures n > 0 ==> PollS * (n - 1) as real < seconds
  {
    if seconds <= 0.0 then 0
    else
      var f := (-seconds / PollS).Floor;
      assert f as real <= -seconds / PollS < f as real + 1.0;
      -f
  }

  /** Any round count with the two properties of `PollCount` is `PollCount`. */
  lemma PollCountIs(seconds: real, k: nat)
    requires seconds <= PollS * k as real
    requires k > 0 ==> PollS * (k - 1) as real < seconds
    ensures PollCount(seconds) == k
  {
  }

  /**
   * The priming and limit-check loops: sleep `PollS` per round until `seconds` have passed on
   * the clock, which is the time slept so far.
   */
  method PollWait(rig: Rig, seconds: real)
    modifies rig`log
    ensures rig.log == old(rig.log) + Polls(PollCount(seconds))
  {
    var t0 := Elapsed(rig.log);
    ghost var start := rig.log;
    ghost var k: nat := 0;
    ElapsedPolls(0);
    ElapsedConcat(start, []);
    while Elapsed(rig.log) - t0 < seconds
      invariant rig.log == start + Polls(k)
      invariant Elapsed(rig.log) - t0 == PollS * k as real
      invariant k <= PollCount(seconds)
      invariant k > 0 ==> PollS * (k - 1) as real < seconds
      decreases PollCount(seconds) - k
    {
      assert PollS * k as real < seconds;
      rig.Sleep(PollS);
      k := k + 1;
      assert rig.log == start + Polls(k);
      ElapsedConcat(start, Polls(k));
      ElapsedPolls(k);
    }
    PollCountIs(seconds, k);
  }

  /** Both two-second windows are 40 rounds of 50 ms, two seconds of sleep each. */
  lemma WindowNumbers()
    ensures PollCount(PumpStabilizeS) == PollCount(LimitCheckS) == 40
    ensures Elapsed(Polls(40)) == 2.0
  {
    PollCountIs(2.0, 40);
    ElapsedPolls(40);
  }

  // ---- cleanup ----

  /** Which of `cleanup()`'s four guarded steps raise; a step that raises changes nothing. */
  datatype Faults = Faults(pumpOff: bool, disable: bool, relayOff: bool, release: bool)

  /** What one guarded step writes: its event, unless it raises. */
  function Attempt(fails: bool, e: Event): seq<Event>
  {
    if fails then [] else [e]
  }

  /** What `cleanup()` writes: each step that does not raise, in order. */
  function CleanupLog(f: Faults): seq<Event>
  {
    Attempt(f.pumpOff, Duty(0.0)) + Attempt(f.disable, En(High))
    + Attempt(f.relayOff, Relay(Low)) + Attempt(f.release, Released)
  }

  /**
   * `cleanup()` runs pump off, driver disable, relay off and GPIO release in that order, and a
   * step that raises does not keep any later step from running.
   */
  lemma CleanupCarriesOn(f: Faults)
    ensures CleanupLog(Faults(false, false, false, false)) == [Duty(0.0), En(High), Relay(Low), Released]
    ensures Duty(0.0) in CleanupLog(f) <==> !f.pumpOff
    ensures En(High) in CleanupLog(f) <==> !f.disable
    ensures Relay(Low) in CleanupLog(f) <==> !f.relayOff
    ensures Released in CleanupLog(f) <==> !f.release
  {
    var a := Attempt(f.pumpOff, Duty(0.0));
    var b := Attempt(f.disable, En(High));
    var c := Attempt(f.relayOff, Relay(Low));
    var d := Attempt(f.release, Released);
    assert CleanupLog(f) == a + b + c + d;
  }

  /** `cleanup()`: each step in its own try, so every step is attempted. */
  method Cleanup(pump: PumpController, motion: Motion.MotionController, safety: SafetyManager, f: Faults)
    requires motion.rig == pump.rig && safety.rig == pump.rig && safety.Valid()
    modifies pump`duty, motion`enabled, pump.rig`pwm, pump.rig`en, pump.rig`relay, pump.rig`log
    ensures safety.Valid()
    ensures pump.rig.log == old(pump.rig.log) + CleanupLog(f)
    ensures if f.pumpOff then pump.duty == old(pump.duty) && pump.rig.pwm == old(pump.rig.pwm)
            else pump.duty == 0.0 && pump.rig.pwm == 0.0
    ensures if f.disable then motion.enabled == old(motion.enabled) && pump.rig.en == old(pump.rig.en)
            else !motion.enabled && pump.rig.en == High
    ensures if f.relayOff then pump.rig.relay == old(pump.rig.relay) else pump.rig.relay == Low
  {
    var rig := pump.rig;
    if !f.pumpOff {
      pump.Off();
    }
    ghost var l1 := old(rig.log) + Attempt(f.pumpOff, Duty(0.0));
    assert rig.log == l1;
    if !f.disable {
      motion.SetEnabled(false);
    }
    ghost var l2 := l1 + Attempt(f.disable, En(High));
    assert rig.log == l2;
    if !f.relayOff {
      safety.RelayOff();
    }
    ghost var l3 := l2 + Attempt(f.relayOff, Relay(Low));
    assert rig.log == l3;
    if !f.release {
      rig.Release();
    }
    assert rig.log == l3 + Attempt(f.release, Released);
    AppendFour(old(rig.log), Attempt(f.pumpOff, Duty(0.0)), Attempt(f.disable, En(High)),
               Attempt(f.relayOff, Relay(Low)), Attempt(f.release, Released));
  }

  // ---- main ----

  /** The import-time and constructor writes: relay LOW, PWM started idle, DIR and EN LOW, EN HIGH. */
  const SetupLog: seq<Event> := [Relay(Low), Duty(PumpDutyIdle), Dir(Low), En(Low), En(High)]

  /** Arming and priming: relay on, a settle, the pump at run duty, the priming and limit-check windows. */
  function ArmLog(): seq<Event>
  {
    [Relay(High), Wait(ArmSettleS), Duty(PumpDutyRun)]
    + Polls(PollCount(PumpStabilizeS)) + Polls(PollCount(LimitCheckS))
  }

  /** Enabling the driver, the up jog, the pause, the down jog. */
  function JogLog(hasInstr: bool, upJog: JogInputs, downJog: JogInputs): seq<Event>
  {
    var half := HalfPeriod(JogStepHz(FeedMmS));
    var up := Pulses(JogPulses(StepsFor(MmStroke), true, upJog, hasInstr), half);
    var down := Pulses(JogPulses(StepsFor(MmStroke), false, downJog, hasInstr), half);
    [En(Low)] + [Dir(DirLevel(true))] + up + [Wait(BetweenJogsS)] + [Dir(DirLevel(false))] + down
  }

  /** The wrap-up: pump off, driver disabled, relay off, then `cleanup()`. */
  function WrapLog(f: Faults): seq<Event>
  {
    [Duty(0.0), En(High), Relay(Low)] + CleanupLog(f)
  }

  /** Everything `main()` writes. */
  function BringUpLog(hasInstr: bool, upJog: JogInputs, downJog: JogInputs, f: Faults): seq<Event>
  {
    SetupLog + ArmLog() + JogLog(hasInstr, upJog, downJog) + WrapLog(f)
  }

  /** No event of `s` is a step pulse. */
  predicate NoPulse(s: seq<Event>)
  {
    forall k :: 0 <= k < |s| ==> !s[k].Pulse?
  }

  /** No event of `s` touches the relay or the pump. */
  predicate RelayAndPumpAlone(s: seq<Event>)
  {
    forall k :: 0 <= k < |s| ==> !s[k].Relay? && !s[k].Duty?
  }

  /** No step pulse while the rig is set up, armed and primed. */
  lemma NothingMovesWhileArming()
    ensures NoPulse(SetupLog + ArmLog())
  {
    var head := SetupLog + [Relay(High), Wait(ArmSettleS), Duty(PumpDutyRun)];
    var p1 := Polls(PollCount(PumpStabilizeS));
    var p2 := Polls(PollCount(LimitCheckS));
    assert SetupLog + ArmLog() == head + p1 + p2;
    assert NoPulse(head + p1);
  }

  /** The jogs write only EN, DIR, pulses and a pause: the relay and pump are left alone. */
  lemma JogsLeaveRelayAndPump(hasInstr: bool, upJog: JogInputs, downJog: JogInputs)
    ensures RelayAndPumpAlone(JogLog(hasInstr, upJog, downJog))
  {
    var half := HalfPeriod(JogStepHz(FeedMmS));
    var up := Pulses(JogPulses(StepsFor(MmStroke), true, upJog, hasInstr), half);
    var down := Pulses(JogPulses(StepsFor(MmStroke), false, downJog, hasInstr), half);
    var s1 := [En(Low)] + [Dir(DirLevel(true))] + up;
    var s2 := s1 + [Wait(BetweenJogsS)] + [Dir(DirLevel(false))];
    assert RelayAndPumpAlone(s1);
    assert RelayAndPumpAlone(s2);
    assert JogLog(hasInstr, upJog, downJog) == s2 + down;
  }

  /**
   * The relay is armed and the pump set to its run duty before `set_enabled(True)`; no pulse
   * comes before that, and neither the relay nor the pump is touched while the jogs run.
   */
  lemma ArmedBeforeMotion(hasInstr: bool, upJog: JogInputs, downJog: JogInputs, f: Faults)
    ensures var log := BringUpLog(hasInstr, upJog, downJog, f);
            var a := |SetupLog|;
            var m := a + |ArmLog()|;
            var e := m + |JogLog(hasInstr, upJog, downJog)|;
            && log[a] == Relay(High) && log[a + 2] == Duty(PumpDutyRun) && log[m] == En(Low)
            && NoPulse(log[..m]) && RelayAndPumpAlone(log[m..e])
  {
    var pre := SetupLog + ArmLog();
    var jogs := JogLog(hasInstr, upJog, downJog);
    var log := pre + jogs + WrapLog(f);
    assert BringUpLog(hasInstr, upJog, downJog, f) == log;
    Slices(pre, jogs, WrapLog(f));
    assert pre[|SetupLog|] == Relay(High) && pre[|SetupLog| + 2] == Duty(PumpDutyRun);
    assert jogs[0] == En(Low);
    NothingMovesWhileArming();
    JogsLeaveRelayAndPump(hasInstr, upJog, downJog);
  }

  /**
   * Importing the motion module sets EN up as an output driven LOW, which enables the active-low
   * driver while the relay is still off. EN stays LOW until the constructor's
   * `set_enabled(False)`, the last setup write; the relay is never energised and no pulse is
   * emitted in between.
   */
  lemma ImportEnablesDriverUntilConstructed()
    ensures SetupLog[0] == Relay(Low)
    ensures SetupLog[3] == En(Low) && SetupLog[|SetupLog| - 1] == En(High)
    ensures forall k :: 3 < k < |SetupLog| - 1 ==> !SetupLog[k].En?
    ensures forall k :: 0 <= k < |SetupLog| ==> SetupLog[k] != Relay(High)
    ensures NoPulse(SetupLog)
  {
  }

  /** The first and middle stretches of a three-part log, recovered by position. */
  lemma Slices(a: seq<Event>, b: seq<Event>, c: seq<Event>)
    ensures (a + b + c)[..|a|] == a && (a + b + c)[|a|..|a| + |b|] == b
    ensures forall k :: 0 <= k < |a| ==> (a + b + c)[k] == a[k]
    ensures forall k :: 0 <= k < |b| ==> (a + b + c)[|a| + k] == b[k]
  {
    assert (a + b + c)[..|a|] == a;
    assert (a + b + c)[|a|..|a| + |b|] == b;
  }

  /** "Arm relay & start pump BEFORE motion", then the priming and limit-check windows. */
  method ArmAndPrime(safety: SafetyManager, pump: PumpController)
    requires safety.rig == pump.rig && safety.Valid() && !safety.estopActive
    modifies pump`duty, pump.rig`relay, pump.rig`pwm, pump.rig`log
    ensures safety.Valid() && pump.Valid()
    ensures pump.rig.relay == High && pump.duty == PumpDutyRun
    ensures pump.rig.log == old(pump.rig.log) + ArmLog()
  {
    var rig := pump.rig;
    safety.RelayOn();
    rig.Sleep(ArmSettleS);
    pump.SetDuty(PumpDutyRun);
    assert rig.log == old(rig.log) + [Relay(High), Wait(ArmSettleS), Duty(PumpDutyRun)];
    PollWait(rig, PumpStabilizeS);
    PollWait(rig, LimitCheckS);
  }

  /** "Enable motor & perform short jogs": up, a pause, back down. */
  method EnableAndJog(motion: Motion.MotionController, hasInstr: bool, upJog: JogInputs, downJog: JogInputs)
    modifies motion`enabled, motion.rig`en, motion.rig`dir, motion.rig`log
    ensures motion.enabled && motion.rig.en == Low && motion.rig.dir == DirLevel(false)
    ensures motion.rig.log == old(motion.rig.log) + JogLog(hasInstr, upJog, downJog)
  {
    var rig := motion.rig;
    motion.SetEnabled(true);
    var stepHz := JogStepHz(FeedMmS);
    var half := HalfPeriod(stepHz);
    var pulses := StepsFor(MmStroke);
    Jog(motion, half, pulses, true, upJog, hasInstr);
    rig.Sleep(BetweenJogsS);
    Jog(motion, half, pulses, false, downJog, hasInstr);
    AppendSix(old(motion.rig.log), [En(Low)], [Dir(DirLevel(true))],
              Pulses(JogPulses(pulses, true, upJog, hasInstr), half), [Wait(BetweenJogsS)],
              [Dir(DirLevel(false))], Pulses(JogPulses(pulses, false, downJog, hasInstr), half));
  }

  /** The wrap-up after the jogs, unguarded, then `cleanup()`. */
  method WrapUp(pump: PumpController, motion: Motion.MotionController, safety: SafetyManager, f: Faults)
    requires motion.rig == pump.rig && safety.rig == pump.rig && safety.Valid()
    modifies pump`duty, motion`enabled, pump.rig`pwm, pump.rig`en, pump.rig`relay, pump.rig`log
    ensures safety.Valid()
    ensures pump.duty == 0.0 && pump.rig.pwm == 0.0
    ensures !motion.enabled && pump.rig.en == High && pump.rig.relay == Low
    ensures pump.rig.log == old(pump.rig.log) + WrapLog(f)
  {
    var rig := pump.rig;
    pump.Off();
    motion.SetEnabled(false);
    safety.RelayOff();
    assert rig.log == old(rig.log) + [Duty(0.0), En(High), Relay(Low)];
    Cleanup(pump, motion, safety, f);
  }

  /**
   * `main()` on the rig: `importOk`/`ctorOk` say whether the instrumentation could be set up,
   * `upJog`/`downJog` are what each jog reads, `f` which cleanup steps raise.
   */
  method BringUp(rig: Rig, importOk: bool, ctorOk: bool, upJog: JogInputs, downJog: JogInputs, f: Faults)
    modifies rig`en, rig`dir, rig`relay, rig`pwm, rig`log
    ensures rig.relay == Low && rig.en == High && rig.pwm == 0.0 && rig.dir == DirLevel(false)
    ensures rig.log == old(rig.log) + BringUpLog(InstrPresent(importOk, ctorOk), upJog, downJog, f)
  {
    var safety := new SafetyManager(rig);
    var pump := new PumpController(rig);
    var motion := new Motion.MotionController(rig);
    var hasInstr := InstrPresent(importOk, ctorOk);
    assert rig.log == old(rig.log) + SetupLog;
    ArmAndPrime(safety, pump);
    EnableAndJog(motion, hasInstr, upJog, downJog);
    WrapUp(pump, motion, safety, f);
    AppendFour(old(rig.log), SetupLog, ArmLog(), JogLog(hasInstr, upJog, downJog), WrapLog(f));
  }
}
