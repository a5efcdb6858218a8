/**
 * The Z-axis motion controller: open-loop STEP/DIR pulse generation for a TMC2209 driver with
 * an active-low enable, limit switches read as triggered when their pin is LOW, and a
 * three-phase homing run (fast approach, back-off, slow re-approach).
 */
module Motion {
  import opened Config
  import opened Hardware
  import opened Scan
  import opened Units

  /** The feed actually used: the request clamped into [MIN_FEED_MM_S, MAX_FEED_MM_S]. */
  function ClampFeed(feed: real): (f: real)
    ensures MinFeedMmS <= f <= MaxFeedMmS
    ensures MinFeedMmS <= feed <= MaxFeedMmS ==> f == feed
    ensures feed < MinFeedMmS ==> f == MinFeedMmS
    ensures feed > MaxFeedMmS ==> f == MaxFeedMmS
  {
    var capped := if MaxFeedMmS < feed then MaxFeedMmS else feed;
    if MinFeedMmS < capped then capped else MinFeedMmS
  }

  /** Clamping keeps the order of feeds and changes nothing the second time. */
  lemma ClampFeedMonotoneIdempotent(f1: real, f2: real)
    requires f1 <= f2
    ensures ClampFeed(f1) <= ClampFeed(f2)
    ensures ClampFeed(ClampFeed(f1)) == ClampFeed(f1)
  {
  }

  /** The half-period used for a requested feed: the clamped feed's pulse rate, halved. */
  function FeedHalf(feed: real): (half: real)
    ensures half > 0.0
  {
    HalfPeriod(StepHz(ClampFeed(feed)))
  }

  /** Every requested feed is slowed down or sped up into a bounded band of half-periods. */
  lemma FeedHalfBounds(feed: real)
    ensures HalfPeriod(StepHz(MaxFeedMmS)) <= FeedHalf(feed) <= HalfPeriod(StepHz(MinFeedMmS))
  {
    var f := ClampFeed(feed);
    if f < MaxFeedMmS {
      HalfPeriodDecreasing(StepHz(f), StepHz(MaxFeedMmS));
    }
    if MinFeedMmS < f {
      HalfPeriodDecreasing(StepHz(MinFeedMmS), StepHz(f));
    }
  }

  /** `top_limit()`: the top switch (NC to ground, pulled up) reads triggered when its pin is LOW. */
  function TopLimit(pin: Level): (triggered: bool)
    ensures triggered <==> pin == Low
  {
    pin == Low
  }

  /** `bot_limit()`: same polarity as the top switch. */
  function BotLimit(pin: Level): (triggered: bool)
    ensures triggered <==> pin == Low
  {
    pin == Low
  }

  /** The check `move_mm` makes before each pulse: the limit facing the travel direction is triggered. */
  function MoveBlocked(up: bool, lim: Limits): nat -> bool
  {
    (i: nat) => (up && TopLimit(lim.top(i))) || (!up && BotLimit(lim.bot(i)))
  }

  /** The number of pulses `move_mm(mm, _)` emits for the given limit readings. */
  function MovePulses(mm: real, lim: Limits): nat
  {
    FirstTrue(MoveBlocked(mm > 0.0, lim), StepsFor(mm))
  }

  /**
   * A move emits no more than the truncated step count, never pulses after the facing limit
   * reads triggered, and falls short of the full count only because that limit did.
   */
  lemma MoveStopsAtLimit(mm: real, lim: Limits)
    ensures MovePulses(mm, lim) <= StepsFor(mm)
    ensures mm > 0.0 ==> forall j :: 0 <= j < MovePulses(mm, lim) ==> lim.top(j) == High
    ensures mm <= 0.0 ==> forall j :: 0 <= j < MovePulses(mm, lim) ==> lim.bot(j) == High
    ensures MovePulses(mm, lim) < StepsFor(mm) ==>
              (if mm > 0.0 then lim.top(MovePulses(mm, lim)) else lim.bot(MovePulses(mm, lim))) == Low
  {
    var n := MovePulses(mm, lim);
    forall j | 0 <= j < n
      ensures (if mm > 0.0 then lim.top(j) else lim.bot(j)) == High
    {
      assert !MoveBlocked(mm > 0.0, lim)(j);
    }
  }

  /** Only the limit facing the travel direction matters: readings of the other one are ignored. */
  lemma MoveIgnoresRearLimit(mm: real, lim: Limits, rear: nat -> Level)
    ensures MovePulses(mm, lim) ==
            MovePulses(mm, if mm > 0.0 then Limits(lim.top, rear) else Limits(rear, lim.bot))
  {
    var other := if mm > 0.0 then Limits(lim.top, rear) else Limits(rear, lim.bot);
    FirstTrueAgree(MoveBlocked(mm > 0.0, lim), MoveBlocked(mm > 0.0, other), StepsFor(mm));
  }

  /** At the 0.5 mm/s homing feed each STEP level is held 0.625 ms. */
  lemma HomeFeedHalf()
    ensures HomeFeedMmS == 0.5 && FeedHalf(HomeFeedMmS) == 0.000625
  {
    assert ClampFeed(0.5) == 0.5;
    assert StepHz(0.5) == 800.0;
  }

  /** 3 mm up at 0.5 mm/s with the top limit never triggered: 4800 pulses of 0.000625 s, 6 s in all. */
  lemma MoveThreeMmExample(lim: Limits)
    requires forall i :: lim.top(i) == High
    ensures MovePulses(3.0, lim) == 4800
    ensures FeedHalf(0.5) == 0.000625
    ensures Elapsed(Pulses(MovePulses(3.0, lim), FeedHalf(0.5))) == 6.0
  {
    assert StepsFor(3.0) == 4800;
    FirstTrueIs(MoveBlocked(true, lim), 4800, 4800);
    HomeFeedHalf();
    ElapsedPulses(MovePulses(3.0, lim), FeedHalf(0.5));
  }

  /** The same move with the top limit triggering at the 1000th check stops after exactly 1000 pulses. */
  lemma MoveThreeMmStopsAtLimit(lim: Limits)
    requires forall i :: 0 <= i < 1000 ==> lim.top(i) == High
    requires lim.top(1000) == Low
    ensures MovePulses(3.0, lim) == 1000
  {
    assert StepsFor(3.0) == 4800;
    FirstTrueIs(MoveBlocked(true, lim), 4800, 1000);
  }

  /** The check each homing approach loop makes: the home-direction limit is triggered. */
  function HomeReached(lim: Limits): nat -> bool
  {
    (i: nat) => (HomeDirUp && TopLimit(lim.top(i))) || (!HomeDirUp && BotLimit(lim.bot(i)))
  }

  /** The signed back-off distance `home()` passes to `move_mm`. */
  function HomeBackoff(): real
  {
    if HomeDirUp then HomeBackoffMm else -HomeBackoffMm
  }

  const FastApproachHalf: real := 0.001
  const SlowApproachHalf: real := 0.002

  /** One approach phase: DIR toward home, then pulses until the home limit reads triggered. */
  ghost function ApproachLog(lim: Limits, half: real): seq<Event>
    requires exists i :: HomeReached(lim)(i)
  {
    [Dir(DirLevel(HomeDirUp))] + Pulses(FirstEver(HomeReached(lim)), half)
  }

  /** The back-off phase: DIR away from home, then `move_mm`'s own DIR write and pulses. */
  function BackoffLog(backoff: Limits): seq<Event>
  {
    [Dir(DirLevel(!HomeDirUp)), Dir(DirLevel(HomeBackoff() > 0.0))]
    + Pulses(MovePulses(HomeBackoff(), backoff), FeedHalf(HomeFeedMmS))
  }

  /**
   * Everything `home()` writes, in order: enable, the fast approach, the debounce settle, the
   * back-off, the slow re-approach.
   */
  ghost function HomeLog(approach: Limits, backoff: Limits, reapproach: Limits): seq<Event>
    requires exists i :: HomeReached(approach)(i)
    requires exists i :: HomeReached(reapproach)(i)
  {
    [En(Low)] + ApproachLog(approach, FastApproachHalf) + [Wait(DebounceMs as real / 1000.0)]
    + BackoffLog(backoff) + ApproachLog(reapproach, SlowApproachHalf)
  }

  /**
   * The back-off goes TOWARD the home limit: `move_mm(+HOME_BACKOFF_MM)` drives DIR up and checks
   * the top limit, so while the home switch still reads triggered the back-off emits nothing;
   * otherwise it emits at most 800 pulses.
   */
  lemma BackoffMovesTowardHome(backoff: Limits)
    ensures HomeBackoff() > 0.0 <==> HomeDirUp
    ensures MovePulses(HomeBackoff(), backoff) <= 800
    ensures HomeReached(backoff)(0) ==> MovePulses(HomeBackoff(), backoff) == 0
  {
    assert StepsFor(HomeBackoff()) == 800;
    if HomeReached(backoff)(0) {
      FirstTrueIs(MoveBlocked(true, backoff), 800, 0);
    }
  }

  /** A switch already triggered when homing starts ends the fast approach with zero pulses. */
  lemma ApproachAlreadyTriggered(approach: Limits)
    requires HomeReached(approach)(0)
    ensures FirstEver(HomeReached(approach)) == 0
  {
    FirstEverIs(HomeReached(approach), 0);
  }

  /**
   * Time `home()` spends: 2 ms per fast pulse, the 20 ms settle, 1.25 ms per back-off pulse,
   * 4 ms per slow pulse.
   */
  lemma HomeElapsed(approach: Limits, backoff: Limits, reapproach: Limits)
    requires exists i :: HomeReached(approach)(i)
    requires exists i :: HomeReached(reapproach)(i)
    ensures Elapsed(HomeLog(approach, backoff, reapproach)) ==
              0.002 * FirstEver(HomeReached(approach)) as real + 0.02
              + 0.00125 * MovePulses(HomeBackoff(), backoff) as real
              + 0.004 * FirstEver(HomeReached(reapproach)) as real
  {
    var p1 := [En(Low)];
    var p2 := ApproachLog(approach, FastApproachHalf);
    var p3 := [Wait(DebounceMs as real / 1000.0)];
    var p4 := BackoffLog(backoff);
    var p5 := ApproachLog(reapproach, SlowApproachHalf);
    ElapsedSingle(En(Low));
    ApproachElapsed(approach, FastApproachHalf);
    ElapsedConcat(p1, p2);
    ElapsedSingle(Wait(DebounceMs as real / 1000.0));
    ElapsedConcat(p1 + p2, p3);
    BackoffElapsed(backoff);
    ElapsedConcat(p1 + p2 + p3, p4);
    ApproachElapsed(reapproach, SlowApproachHalf);
    ElapsedConcat(p1 + p2 + p3 + p4, p5);
  }

  /** An approach phase takes two half-periods per pulse; its DIR write takes no time. */
  lemma ApproachElapsed(lim: Limits, half: real)
    requires exists i :: HomeReached(lim)(i)
    ensures Elapsed(ApproachLog(lim, half)) == 2.0 * half * FirstEver(HomeReached(lim)) as real
  {
    var n := FirstEver(HomeReached(lim));
    var d := [Dir(DirLevel(HomeDirUp))];
    var p := Pulses(n, half);
    ElapsedSingle(Dir(DirLevel(HomeDirUp)));
    ElapsedPulses(n, half);
    ElapsedConcat(d, p);
    assert Elapsed(d + p) == 0.0 + Elapsed(p);
  }

  /** The back-off at the 0.5 mm/s homing feed takes 1.25 ms per pulse. */
  lemma BackoffElapsed(backoff: Limits)
    ensures Elapsed(BackoffLog(backoff)) == 0.00125 * MovePulses(HomeBackoff(), backoff) as real
  {
    var d1, d2 := Dir(DirLevel(!HomeDirUp)), Dir(DirLevel(HomeBackoff() > 0.0));
    var n := MovePulses(HomeBackoff(), backoff);
    var h := FeedHalf(HomeFeedMmS);
    ElapsedConcat([d1], [d2]);
    assert [d1, d2] == [d1] + [d2];
    ElapsedSingle(d1);
    ElapsedSingle(d2);
    HomeFeedHalf();
    ElapsedPulses(n, h);
    ElapsedConcat([d1, d2], Pulses(n, h));
  }

  /** The driver and its STEP/DIR/EN lines. */
  class MotionController {
    var enabled: bool
    const rig: Rig

    /**
     * Import-time setup drives DIR and EN LOW; the constructor then disables the driver,
     * which with the active-low EN leaves EN HIGH.
     */
    constructor (rig: Rig)
      modifies rig`dir, rig`en, rig`log
      ensures this.rig == rig
      ensures !enabled && rig.en == High && rig.dir == Low
      ensures rig.log == old(rig.log) + [Dir(Low), En(Low), En(High)]
    {
      this.rig := rig;
      enabled := false;
      new;
      rig.WriteDir(Low);
      rig.WriteEn(Low);
      SetEnabled(false);
    }

    /** `set_enabled(en)`: EN is active-low, so enabling drives it LOW. */
    method SetEnabled(en: bool)
      modifies this`enabled, rig`en, rig`log
      ensures enabled == en
      ensures rig.en == Low <==> en
      ensures rig.log == old(rig.log) + [En(rig.en)]
    {
      rig.WriteEn(if en then Low else High);
      enabled := en;
    }

    /** `_dir_up(up)`: DIR HIGH for up. */
    method DirUp(up: bool)
      modifies rig`dir, rig`log
      ensures rig.dir == DirLevel(up)
      ensures rig.log == old(rig.log) + [Dir(DirLevel(up))]
    {
      rig.WriteDir(DirLevel(up));
    }

    /**
     * `step_pulses(pulses, feed)`: a fixed train of `pulses` steps (none for a negative count)
     * at the clamped feed, with no limit check at all.
     */
    method StepPulses(pulses: int, feed: real)
      modifies rig`log
      ensures rig.log == old(rig.log) + Pulses(if pulses > 0 then pulses else 0, FeedHalf(feed))
    {
      var f := ClampFeed(feed);
      var stepHz := f * StepsPerMm as real;
      if stepHz <= 0.0 {
        return;
      }
      var delay := HalfPeriod(stepHz);
      ghost var start := rig.log;
      var n := if pulses > 0 then pulses else 0;
      for i := 0 to n
        invariant rig.log == start + Pulses(i, delay)
      {
        rig.StepPulse(delay);
      }
    }

    /**
     * `move_mm(mm, feed)`: nothing at all for mm == 0; otherwise DIR toward the sign of `mm`,
     * then up to StepsFor(mm) pulses, each preceded by a check of the limit facing the travel
     * direction, stopping at the first triggered reading. The driver enable and the safety
     * interlock are not consulted.
     */
    method MoveMm(mm: real, feed: real, lim: Limits)
      modifies rig`dir, rig`log
      ensures mm == 0.0 ==> rig.dir == old(rig.dir) && rig.log == old(rig.log)
      ensures mm != 0.0 ==> rig.dir == DirLevel(mm > 0.0)
      ensures mm != 0.0 ==>
                rig.log == old(rig.log) + [Dir(DirLevel(mm > 0.0))] + Pulses(MovePulses(mm, lim), FeedHalf(feed))
    {
      if mm == 0.0 {
        return;
      }
      var up := mm > 0.0;
      DirUp(up);
      var steps := StepsFor(mm);
      var f := ClampFeed(feed);
      var stepHz := f * StepsPerMm as real;
      var delay := HalfPeriod(stepHz);
      ghost var start := rig.log;
      var i := 0;
      while i < steps
        invariant 0 <= i <= steps
        invariant forall j :: 0 <= j < i ==> !MoveBlocked(up, lim)(j)
        invariant rig.log == start + Pulses(i, delay)
        invariant rig.dir == DirLevel(up)
      {
        if (up && TopLimit(lim.top(i))) || (!up && BotLimit(lim.bot(i))) {
          break;
        }
        rig.StepPulse(delay);
        i := i + 1;
      }
      FirstTrueIs(MoveBlocked(up, lim), steps, i);
      assert i == MovePulses(mm, lim);
      assert delay == FeedHalf(feed);
      assert start == old(rig.log) + [Dir(DirLevel(mm > 0.0))];
    }

    /**
     * `home()`: enable, fast approach until the home limit reads triggered, settle for the
     * debounce time, back off through `move_mm`, slow re-approach until triggered. The two
     * approach loops have no bound, so the home limit must eventually read triggered in each.
     */
    method Home(approach: Limits, backoff: Limits, reapproach: Limits)
      requires exists i :: HomeReached(approach)(i)
      requires exists i :: HomeReached(reapproach)(i)
      modifies this`enabled, rig`en, rig`dir, rig`log
      ensures enabled && rig.en == Low
      ensures rig.dir == DirLevel(HomeDirUp)
      ensures rig.log == old(rig.log) + HomeLog(approach, backoff, reapproach)
    {
      SetEnabled(true);
      // 1) approach
      Approach(approach, FastApproachHalf);
      rig.Sleep(DebounceMs as real / 1000.0);
      // 2) backoff
      Backoff(backoff);
      // 3) slow re-approach
      Approach(reapproach, SlowApproachHalf);
      AppendFive(old(rig.log), [En(Low)], ApproachLog(approach, FastApproachHalf),
                 [Wait(DebounceMs as real / 1000.0)], BackoffLog(backoff), ApproachLog(reapproach, SlowApproachHalf));
    }

    /**
     * One approach phase of `home()`: DIR toward home, then a `while True` loop that pulses until
     * the home limit reads triggered.
     */
    method Approach(lim: Limits, half: real)
      requires exists i :: HomeReached(lim)(i)
      modifies rig`dir, rig`log
      ensures rig.dir == DirLevel(HomeDirUp)
      ensures rig.log == old(rig.log) + ApproachLog(lim, half)
    {
      DirUp(HomeDirUp);
      ghost var stop := HomeReached(lim);
      ghost var n := FirstEver(stop);
      ghost var start := rig.log;
      var i := 0;
      while true
        invariant i <= n
        invariant rig.log == start + Pulses(i, half)
        invariant rig.dir == DirLevel(HomeDirUp)
        decreases n - i
      {
        if (HomeDirUp && TopLimit(lim.top(i))) || (!HomeDirUp && BotLimit(lim.bot(i))) {
          break;
        }
        rig.StepPulse(half);
        i := i + 1;
      }
      FirstEverIs(stop, i);
    }

    /** The back-off phase of `home()`: DIR away from home, then `move_mm` by the signed back-off. */
    method Backoff(backoff: Limits)
      modifies rig`dir, rig`log
      ensures rig.dir == DirLevel(HomeBackoff() > 0.0)
      ensures rig.log == old(rig.log) + BackoffLog(backoff)
    {
      DirUp(!HomeDirUp);
      MoveMm(HomeBackoff(), HomeFeedMmS, backoff);
    }
  }
}
