/** Build-time constants of the drill rig: mechanics, feed limits, pump duty, timing, homing. */
module Config {

  // ---- Motion & mechanics ----
  const StepsPerRev: int := 200
  const Microstep: int := 16
  const LeadMmPerRev: real := 2.0
  /** Truncating conversion of the lead-screw ratio, as `int(...)` does for a positive value. */
  const StepsPerMm: int := ((StepsPerRev * Microstep) as real / LeadMmPerRev).Floor
  const MaxFeedMmS: real := 3.0
  const MinFeedMmS: real := 0.05

  // ---- Pump control ----
  const PumpPwmHz: int := 1000
  const PumpDutyIdle: real := 0.0
  const PumpDutyRun: real := 60.0

  // ---- Debounce / timing ----
  const DebounceMs: int := 20
  const SafetyPollMs: int := 10

  // ---- Homing ----
  /** True: homing seeks the TOP limit. */
  const HomeDirUp: bool := true
  const HomeFeedMmS: real := 0.5
  const HomeBackoffMm: real := 0.5

  /** The derived constants take the values the rest of the firmware relies on. */
  lemma StepsPerMmValue()
    ensures StepsPerMm == 1600
  {
    assert (StepsPerRev * Microstep) as real / LeadMmPerRev == 1600.0;
  }

  /** The feed window is non-empty and positive, and the homing feed lies inside it. */
  lemma FeedWindow()
    ensures 0.0 < MinFeedMmS < MaxFeedMmS
    ensures MinFeedMmS <= HomeFeedMmS <= MaxFeedMmS
  {
  }

  /** Both configured pump duties are valid PWM percentages. */
  lemma PumpDutiesInRange()
    ensures 0.0 <= PumpDutyIdle <= 100.0
    ensures 0.0 <= PumpDutyRun <= 100.0
  {
  }

  /** Homing goes up, backs off a positive distance, and the debounce outlasts one safety poll. */
  lemma HomingAndTiming()
    ensures HomeDirUp && HomeBackoffMm > 0.0
    ensures DebounceMs == 20 && SafetyPollMs == 10
  {
  }
}
