/**
 * The limit-switch bench test with live motion: drive toward one end until its limit trips,
 * back off a fixed distance without looking at the limits, then do the same toward the other
 * end. It drives STEP/DIR/EN itself and reads the switches as NC-to-ground: triggered when the
 * pin reads HIGH (the opposite of the motion controller's reading).
 */
module LimitsWithMotor {
  import opened Config
  import opened Hardware
  import opened Scan
  import opened Units
  import Motion

  // ---- bench tunables ----
  const ExpectNcLimits: bool := true
  const StartTowardTop: bool := true
  const TestFeedMmS: real := 0.6
  const BackoffMm: real := 1.0
  /** The stroke that "runs until the limit trips" is capped at 1000 mm worth of pulses. */
  const SeekMm: real := 1000.0
  const EnableSettleS: real := 0.2
  const BetweenStrokesS: real := 0.5

  /** A limit reading under the wiring setting: NC switches trip HIGH, NO switches trip LOW. */
  function Triggered(nc: bool, level: Level): (t: bool)
    ensures nc ==> (t <==> level == High)
    ensures !nc ==> (t <==> level == Low)
  {
    if nc then level == High else level == Low
  }

  /** `read_limit(pin)` with the bench's wiring setting. */
  function ReadLimit(level: Level): bool
  {
    Triggered(ExpectNcLimits, level)
  }

  /**
   * This script and the motion controller read the same pin level with opposite meanings: a
   * level one of them calls triggered the other calls clear.
   */
  lemma PolarityDisagreesWithMotion(level: Level)
    ensures ReadLimit(level) == !Motion.TopLimit(level)
    ensures ReadLimit(level) == !Motion.BotLimit(level)
  {
  }

  /** The inputs one `do_steps` call sees: the limit pins and the stroke-timeout test, per check. */
  datatype Stroke = Stroke(lim: Limits, timedOut: nat -> bool)

  /** What ends a `do_steps` loop before the i-th pulse: the facing limit (if watched) or the timeout. */
  function StrokeStop(up: bool, stopOnLimit: bool, s: Stroke): nat -> bool
  {
    (i: nat) =>
      (stopOnLimit && ((up && ReadLimit(s.lim.top(i))) || (!up && ReadLimit(s.lim.bot(i)))))
      || s.timedOut(i)
  }

  /** The value `do_steps` returns: the number of pulses it emitted. */
  function StrokePulses(pulses: nat, up: bool, stopOnLimit: bool, s: Stroke): nat
  {
    FirstTrue(StrokeStop(up, stopOnLimit, s), pulses)
  }

  /** Everything `do_steps` writes: DIR, then its pulses at half-period 1 / (2 * step_hz). */
  function StrokeLog(pulses: nat, stepHz: real, up: bool, stopOnLimit: bool, s: Stroke): seq<Event>
    requires stepHz > 0.0
  {
    [Dir(DirLevel(up))] + Pulses(StrokePulses(pulses, up, stopOnLimit, s), HalfPeriod(stepHz))
  }

  /**
   * Watching the limits, a stroke never pulses once the facing limit (top going up, bottom
   * going down) reads triggered, and a stroke that falls short stopped on that limit or on
   * the timeout.
   */
  lemma StrokeStopsAtLimit(pulses: nat, up: bool, s: Stroke)
    ensures StrokePulses(pulses, up, true, s) <= pulses
    ensures forall j :: 0 <= j < StrokePulses(pulses, up, true, s) ==>
              !ReadLimit(if up then s.lim.top(j) else s.lim.bot(j)) && !s.timedOut(j)
    ensures var n := StrokePulses(pulses, up, true, s);
            n < pulses ==> ReadLimit(if up then s.lim.top(n) else s.lim.bot(n)) || s.timedOut(n)
  {
    var n := StrokePulses(pulses, up, true, s);
    forall j | 0 <= j < n
      ensures !ReadLimit(if up then s.lim.top(j) else s.lim.bot(j)) && !s.timedOut(j)
    {
      assert !StrokeStop(up, true, s)(j);
    }
  }

  /**
   * Not watching the limits (the back-off strokes), the limit readings play no part: only the
   * timeout or the pulse count ends the stroke.
   */
  lemma UnwatchedStrokeIgnoresLimits(pulses: nat, up: bool, s: Stroke)
    ensures StrokePulses(pulses, up, false, s) == FirstTrue(s.timedOut, pulses)
  {
    FirstTrueAgree(StrokeStop(up, false, s), s.timedOut, pulses);
  }

  /** The feed is floored at MIN_FEED_MM_S but, unlike the motion controller, not capped. */
  function TestFeed(): (f: real)
    ensures f >= MinFeedMmS && f >= TestFeedMmS
    ensures f == TestFeedMmS || f == MinFeedMmS
  {
    if TestFeedMmS < MinFeedMmS then MinFeedMmS else TestFeedMmS
  }

  /**
   * The bench run's numbers: 0.6 mm/s is 960 pulses/s; the back-off is 1600 pulses at half that
   * rate, so each level is held twice as long; a seek stroke is capped at 1 600 000 pulses.
   */
  lemma BenchNumbers()
    ensures TestFeed() == 0.6 && StepHz(TestFeed()) == 960.0
    ensures StepsFor(BackoffMm) == 1600
    ensures StepsFor(SeekMm) == 1600000
    ensures HalfPeriod(StepHz(TestFeed()) / 2.0) == 2.0 * HalfPeriod(StepHz(TestFeed()))
  {
    HalfPeriodOfHalfRate(960.0);
  }

  /** What `cleanup()` writes: EN HIGH (skipped if that write fails), then the GPIO release. */
  function CleanupLog(enFails: bool): seq<Event>
  {
    (if enFails then [] else [En(High)]) + [Released]
  }

  /** One end of the bench run: seek toward it watching the limits, then back off unwatched at half rate. */
  function SeekAndBackOffLog(up: bool, seek: Stroke, back: Stroke): seq<Event>
  {
    var hz := StepHz(TestFeed());
    StrokeLog(StepsFor(SeekMm), hz, up, true, seek) + StrokeLog(StepsFor(BackoffMm), hz / 2.0, !up, false, back)
  }

  /** Both ends in turn: the first end, a pause, then the opposite end. */
  function BothEndsLog(s1: Stroke, s2: Stroke, s3: Stroke, s4: Stroke): seq<Event>
  {
    SeekAndBackOffLog(StartTowardTop, s1, s2) + [Wait(BetweenStrokesS)]
    + SeekAndBackOffLog(!StartTowardTop, s3, s4)
  }

  /** The strokes of `main()`: none if both limits read triggered at the start, else both ends. */
  function BenchStrokes(topNow: Level, botNow: Level, s1: Stroke, s2: Stroke, s3: Stroke, s4: Stroke)
    : seq<Event>
  {
    if ReadLimit(topNow) && ReadLimit(botNow) then [] else BothEndsLog(s1, s2, s3, s4)
  }

  /** Everything `main()` writes: enable and settle, the strokes, the cleanup. */
  function BenchLog(topNow: Level, botNow: Level, s1: Stroke, s2: Stroke, s3: Stroke, s4: Stroke,
                    enFails: bool): seq<Event>
  {
    [En(Low)] + [Wait(EnableSettleS)] + BenchStrokes(topNow, botNow, s1, s2, s3, s4) + CleanupLog(enFails)
  }

  /** With both limits reading triggered at the start, the bench run emits no pulse at all. */
  lemma BothTriggeredRefusesToMove(topNow: Level, botNow: Level, s1: Stroke, s2: Stroke, s3: Stroke,
                                   s4: Stroke, enFails: bool)
    requires ReadLimit(topNow) && ReadLimit(botNow)
    ensures forall k :: 0 <= k < |BenchLog(topNow, botNow, s1, s2, s3, s4, enFails)| ==>
              !BenchLog(topNow, botNow, s1, s2, s3, s4, enFails)[k].Pulse?
  {
    var log := BenchLog(topNow, botNow, s1, s2, s3, s4, enFails);
    assert log == [En(Low)] + [Wait(EnableSettleS)] + [] + CleanupLog(enFails);
  }

  /**
   * `do_steps(pulses, step_hz, up, stop_on_limit)`: set DIR, then up to `pulses` steps; before
   * each, stop if watching the limits and the facing one reads triggered, or if the stroke
   * timed out. Returns the number of pulses emitted.
   */
  method DoSteps(rig: Rig, pulses: nat, stepHz: real, up: bool, stopOnLimit: bool, s: Stroke)
    returns (moved: nat)
    requires stepHz > 0.0
    modifies rig`dir, rig`log
    ensures moved == StrokePulses(pulses, up, stopOnLimit, s) && moved <= pulses
    ensures rig.dir == DirLevel(up)
    ensures rig.log == old(rig.log) + StrokeLog(pulses, stepHz, up, stopOnLimit, s)
  {
    rig.WriteDir(DirLevel(up));
    var half := HalfPeriod(stepHz);
    ghost var start := rig.log;
    // `moved` also counts the loop's rounds: every round that does not break emits one pulse.
    moved := 0;
    while moved < pulses
      invariant moved <= pulses
      invariant forall j :: 0 <= j < moved ==> !StrokeStop(up, stopOnLimit, s)(j)
      invariant rig.log == start + Pulses(moved, half)
      invariant rig.dir == DirLevel(up)
    {
      if stopOnLimit {
        if up && ReadLimit(s.lim.top(moved)) {
          break;
        }
        if !up && ReadLimit(s.lim.bot(moved)) {
          break;
        }
      }
      if s.timedOut(moved) {
        break;
      }
      rig.StepPulse(half);
      moved := moved + 1;
    }
    FirstTrueIs(StrokeStop(up, stopOnLimit, s), pulses, moved);
  }

  /** `cleanup()`: try to disable the driver (a failure is swallowed), then release the GPIO. */
  method Cleanup(rig: Rig, enFails: bool)
    modifies rig`en, rig`log
    ensures !enFails ==> rig.en == High
    ensures enFails ==> rig.en == old(rig.en)
    ensures rig.log == old(rig.log) + CleanupLog(enFails)
  {
    if !enFails {
      rig.WriteEn(High);
    }
    rig.Release();
  }

  /**
   * `main()`: `topNow`/`botNow` are the limit levels of the start-up sanity check, `s1`..`s4`
   * the inputs of the four strokes in order, `enFails` whether disabling the driver fails.
   */
  method BenchRun(rig: Rig, topNow: Level, botNow: Level, s1: Stroke, s2: Stroke, s3: Stroke,
                  s4: Stroke, enFails: bool)
    modifies rig`en, rig`dir, rig`log
    ensures rig.en == if enFails then Low else High
    ensures rig.dir == if ReadLimit(topNow) && ReadLimit(botNow) then old(rig.dir) else DirLevel(StartTowardTop)
    ensures rig.log == old(rig.log) + BenchLog(topNow, botNow, s1, s2, s3, s4, enFails)
  {
    rig.WriteEn(Low);
    rig.Sleep(EnableSettleS);
    Strokes(rig, topNow, botNow, s1, s2, s3, s4);
    Cleanup(rig, enFails);
    AppendFour(old(rig.log), [En(Low)], [Wait(EnableSettleS)], BenchStrokes(topNow, botNow, s1, s2, s3, s4),
               CleanupLog(enFails));
  }

  /** The start-up sanity check and, unless it refuses, the two numbered phases. */
  method Strokes(rig: Rig, topNow: Level, botNow: Level, s1: Stroke, s2: Stroke, s3: Stroke, s4: Stroke)
    modifies rig`dir, rig`log
    ensures rig.dir == if ReadLimit(topNow) && ReadLimit(botNow) then old(rig.dir) else DirLevel(StartTowardTop)
    ensures rig.log == old(rig.log) + BenchStrokes(topNow, botNow, s1, s2, s3, s4)
  {
    if ReadLimit(topNow) && ReadLimit(botNow) {
      return;
    }
    BothEnds(rig, s1, s2, s3, s4);
  }

  /** The two numbered phases of `main()` with the pause between them. */
  method BothEnds(rig: Rig, s1: Stroke, s2: Stroke, s3: Stroke, s4: Stroke)
    modifies rig`dir, rig`log
    ensures rig.dir == DirLevel(StartTowardTop)
    ensures rig.log == old(rig.log) + BothEndsLog(s1, s2, s3, s4)
  {
    var feed := TestFeed();
    var stepHz := feed * StepsPerMm as real;
    var backoffSteps := StepsFor(BackoffMm);

    // 1) toward the first end until its limit trips, then back off
    var firstUp := StartTowardTop;
    SeekAndBackOff(rig, stepHz, backoffSteps, firstUp, s1, s2);
    ghost var strokes := SeekAndBackOffLog(firstUp, s1, s2);
    assert rig.log == old(rig.log) + strokes;

    rig.Sleep(BetweenStrokesS);
    strokes := strokes + [Wait(BetweenStrokesS)];
    assert rig.log == old(rig.log) + strokes;

    // 2) toward the opposite end until its limit trips, then back off
    SeekAndBackOff(rig, stepHz, backoffSteps, !firstUp, s3, s4);
    strokes := strokes + SeekAndBackOffLog(!firstUp, s3, s4);
    assert rig.log == old(rig.log) + strokes;
  }

  /**
   * One numbered phase of `main()`: `do_steps` toward an end watching the limits, capped at
   * 1000 mm of pulses, then `do_steps` back the other way for the back-off distance at half the
   * rate with the limits ignored.
   */
  method SeekAndBackOff(rig: Rig, stepHz: real, backoffSteps: nat, up: bool, seek: Stroke, back: Stroke)
    requires stepHz == StepHz(TestFeed()) && backoffSteps == StepsFor(BackoffMm)
    modifies rig`dir, rig`log
    ensures rig.dir == DirLevel(!up)
    ensures rig.log == old(rig.log) + SeekAndBackOffLog(up, seek, back)
  {
    var moved := DoSteps(rig, StepsFor(SeekMm), stepHz, up, true, seek);
    moved := DoSteps(rig, backoffSteps, stepHz / 2.0, !up, false, back);
  }
}
