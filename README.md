# ECM drill firmware: motion, safety interlock and pump, modelled in Dafny

This project models the control core of a single-axis electrochemical-machining (ECM) drill rig
on a Raspberry Pi:

- **Motion** (`motion.dfy`): the Z-axis `MotionController`, which drives a TMC2209 stepper driver.
  - STEP/DIR/EN lines, with EN active-low.
  - The feed clamp to [0.05, 3.0] mm/s.
  - Open-loop pulse trains.
  - `move_mm`, which checks the limit facing the direction of travel before every pulse.
  - The three-phase homing run: fast approach, settle, back-off, slow re-approach.
- **Safety** (`safety.dfy`): the `SafetyManager`, a software E-STOP flag and the power relay it
  guards. There is an abstract transition system (`Interlock`, `Next`, `Run`) and the class whose
  methods are proved to follow it.
- **Pump** (`pump.dfy`): the `PumpController`, a PWM duty clamped to [0, 100] %, and its
  placeholder flow reading.
- **Limit test with motion** (`limits_with_motor.dfy`): the bench script.
  - It seeks each end with limit-guarded `do_steps`, then backs off without looking at the limits.
  - It refuses to move if both limits read triggered.
  - Its cleanup disables the driver and releases the GPIO.
- **System bring-up** (`bringup.dfy`): the bring-up script.
  - It arms the relay and primes the pump before any motion.
  - Two timed polling windows follow.
  - It jogs up and down, with a limit and power-cut guard before every pulse.
  - It shuts down and runs a cleanup whose steps are each attempted even when an earlier one
    raises.
- **Shared pieces:**
  - `config.dfy`: the constants.
  - `units.dfy`: the distance-to-pulses and feed-to-half-period conversions.
  - `scan.dfy`: the index at which a loop with an early exit stops.
  - `hardware.dfy`: the GPIO rig.

The GPIO outputs and the clock form one `Hardware.Rig` object:

- the current EN, DIR and relay levels;
- the PWM duty;
- an ordered log of everything written: EN, DIR, step pulses with their half-period, relay, duty,
  sleeps and the final GPIO release.

Elapsed time is a function of that log, so a contract on the log states both the order of the
writes and their timing.

Inputs are oracles indexed by the number of the check within one loop:

- the levels of the limit switches;
- the stroke timeout;
- the instrumentation snapshots.

A guarded loop is specified by `Scan.FirstTrue`, the first index at which its exit test holds,
capped at the loop's step count. The unbounded homing loops use `Scan.FirstEver`, under the
precondition that the switch eventually reads triggered.

The model reproduces the firmware as written, including its quirks:

- `motion.py` reads a limit as triggered when the pin is LOW. Both test scripts read it, with NC
  wiring, as triggered when the pin is HIGH (`PolarityDisagreesWithMotion`,
  `JogGuardDisagreesWithMotion`). `safety.py` wires E-STOP the same way and, like `motion.py`,
  reads LOW as pressed. Under that NC wiring a physical press opens the contact and the pin reads
  HIGH, so `_estop_changed` clears the flag and leaves the relay as it was
  (`ReleaseDoesNotRearm`), and it is the release, pin LOW, that drops the relay
  (`EstopDropsRelay`).
- The E-STOP flag starts clear whatever the pin reads, because only edges update it. An E-STOP
  already held at start-up therefore does not stop `relay_on()` (`HeldAtStartNotSeen`).
- Importing `motion.py` sets EN up as an output driven LOW, which enables the active-low driver
  with the relay still off. EN stays LOW until the `MotionController` constructor's
  `set_enabled(False)`, which comes after the bring-up script's own relay setup and the pump's
  PWM start. The relay stays LOW and no pulse comes in between
  (`ImportEnablesDriverUntilConstructed`).
- With `HOME_DIR_UP`, the homing back-off calls `move_mm(+0.5)`. That call drives DIR up again and
  checks the top limit, so the back-off emits nothing while the home switch still reads triggered
  (`BackoffMovesTowardHome`).
- The feed is handled differently in different places:
  - `move_mm` clamps the feed on both sides.
  - The bench scripts only raise it to the minimum and never cap it (`TestFeed`,
    `JogFeedFlooredNotCapped`).

A few more facts about the code that the model keeps:

- Pulse counts are truncated by `int()` (motion.py:62), never rounded (`StepsForTruncates`).
- `move_mm` and `step_pulses` consult neither `enabled` nor the safety manager. Only the bring-up
  jog looks for a power cut, through the bus voltage.
- The limits are read without any software debounce.
- `liters_per_min()` always returns 0.

## Model

| member | source | states |
|---|---|---|
| Config.StepsPerMmValue | firmware/config.py:18-21 | STEPS_PER_MM = int(200 * 16 / 2.0) is 1600 |
| Config.FeedWindow | firmware/config.py:22-23 | 0 < MIN_FEED_MM_S < MAX_FEED_MM_S, and the homing feed lies within the window |
| Config.PumpDutiesInRange | firmware/config.py:26-28 | the idle and run duties are valid PWM percentages |
| Config.HomingAndTiming | firmware/config.py:39-49 | homing seeks the top with a positive back-off; the debounce is 20 ms and the safety poll 10 ms |
| Units.StepsFor | firmware/motion.py:62 | the pulse count of a distance is the truncation of abs(mm) * STEPS_PER_MM: never more than the exact value, and less than one pulse below it |
| Units.StepsForSignFree | firmware/test_limits_with_motor.py:84-85 | `mm_to_steps` does not depend on the sign of the distance |
| Units.StepsForTruncates | firmware/motion.py:62 | truncation, not rounding: 0.000624 mm (0.9984 steps) gives no pulse and 0.0009375 mm (1.5 steps) gives one, where rounding would give one and two; -0.5 mm gives 800 and 1 mm gives 1600 |
| Units.HalfPeriod | firmware/motion.py:64-65 | the half-period is positive, and two half-periods times the pulse rate is one second |
| Units.HalfPeriodDecreasing | firmware/motion.py:64-65 | a higher pulse rate gives a strictly shorter half-period |
| Units.HalfPeriodOfHalfRate | firmware/test_limits_with_motor.py:121 | half the pulse rate doubles the half-period |
| Scan.FirstTrue | firmware/motion.py:67-70 | a loop that checks before each round stops at the first reading that holds, or at the cap: no earlier reading holds, and stopping short means the reading did hold |
| Scan.FirstTrueIs | firmware/motion.py:67-70 | these properties determine the stopping index uniquely |
| Scan.FirstTrueAgree | firmware/test_limits_with_motor.py:65-75 | two oracles that agree below the cap stop the loop at the same index |
| Scan.FirstEver | firmware/motion.py:84-88 | an unbounded `while True` loop stops at the first reading that holds |
| Scan.FirstEverIs | firmware/motion.py:84-88 | the first reading that holds is unique |
| Hardware.DirLevel | firmware/motion.py:39-40 | DIR is HIGH exactly when moving up |
| Hardware.Pulses | firmware/motion.py:50-54 | a pulse train of n pulses, each with the given half-period |
| Hardware.ElapsedConcat | firmware/motion.py:50-54 | the time slept adds up over consecutive stretches of output |
| Hardware.ElapsedPulses | firmware/motion.py:50-54 | n pulses of half-period h take 2 * h * n seconds |
| Hardware.Rig.StepPulse | firmware/motion.py:51-54 | one STEP pulse (HIGH, sleep, LOW, sleep) is appended to the output log |
| Motion.ClampFeed | firmware/motion.py:16-17 | `_clamp_feed` lies in [MIN_FEED_MM_S, MAX_FEED_MM_S], is the identity inside it, and gives the nearer bound outside it |
| Motion.ClampFeedMonotoneIdempotent | firmware/motion.py:16-17 | clamping preserves the order of feeds and is idempotent |
| Motion.FeedHalf | firmware/motion.py:63-65 | the half-period used for any requested feed is positive |
| Motion.FeedHalfBounds | firmware/motion.py:63-65 | every requested feed yields a half-period between those of the maximum and minimum feeds |
| Motion.TopLimit | firmware/motion.py:31-33 | `top_limit()` is true iff the pin reads LOW |
| Motion.BotLimit | firmware/motion.py:35-37 | `bot_limit()` is true iff the pin reads LOW |
| Motion.MoveStopsAtLimit | firmware/motion.py:67-74 | a move emits at most the truncated step count, emits no pulse after the facing limit reads triggered (LOW), and falls short only because it did |
| Motion.MoveIgnoresRearLimit | firmware/motion.py:68 | the limit behind the direction of travel never affects a move |
| Motion.HomeFeedHalf | firmware/motion.py:94 | at the 0.5 mm/s homing feed each STEP level is held 0.625 ms |
| Motion.MoveThreeMmExample | firmware/motion.py:56-74 | `move_mm(3.0, 0.5)` with the top limit never triggered emits 4800 pulses of 0.000625 s, 6 s in all |
| Motion.MoveThreeMmStopsAtLimit | firmware/motion.py:67-70 | the same move, with the top limit first triggered at check 1000, emits exactly 1000 pulses |
| Motion.BackoffMovesTowardHome | firmware/motion.py:93-94 | the back-off distance is positive iff homing goes up; it emits at most 800 pulses, and none if the home limit reads triggered at its first check |
| Motion.ApproachAlreadyTriggered | firmware/motion.py:83-86 | if the home limit is already triggered, the fast approach emits zero pulses |
| Motion.HomeElapsed | firmware/motion.py:77-102 | `home()` takes 2 ms per fast pulse, the 20 ms settle, 1.25 ms per back-off pulse and 4 ms per slow pulse |
| Motion.ApproachElapsed | firmware/motion.py:84-88 | an approach phase takes two half-periods per pulse |
| Motion.BackoffElapsed | firmware/motion.py:93-94 | the back-off takes 1.25 ms per pulse |
| Motion.MotionController.constructor | firmware/motion.py:10-22 | after import-time setup and construction, the driver is disabled with EN HIGH, and DIR is LOW |
| Motion.MotionController.SetEnabled | firmware/motion.py:25-28 | `enabled == en`, and EN is driven LOW iff enabling |
| Motion.MotionController.DirUp | firmware/motion.py:39-40 | DIR is set to HIGH for up and LOW for down, and the write is logged |
| Motion.MotionController.StepPulses | firmware/motion.py:42-54 | exactly max(pulses, 0) pulses at the clamped feed's half-period, with no limit check |
| Motion.MotionController.MoveMm | firmware/motion.py:56-74 | mm == 0 writes nothing; otherwise DIR follows the sign of mm and the log gains exactly the pulses up to the first triggered facing limit, capped at the truncated step count |
| Motion.MotionController.Home | firmware/motion.py:77-104 | enable, fast approach until triggered, settle for DEBOUNCE_MS, back off through `move_mm`, slow re-approach until triggered, in that order; ends enabled with DIR toward home |
| Motion.MotionController.Approach | firmware/motion.py:83-88 | an approach loop emits 1 ms (or 2 ms) pulses exactly until the first triggered home-limit reading |
| Motion.MotionController.Backoff | firmware/motion.py:93-94 | the back-off writes DIR away from home, then performs `move_mm(+HOME_BACKOFF_MM)` |
| Safety.NextSafe | firmware/safety.py:17-37 | every command preserves "relay HIGH implies E-STOP inactive"; `relay_on` energises iff the flag is clear (or the relay already was) |
| Safety.RunSafe | firmware/safety.py:17-37 | any sequence of commands from a safe state ends safe |
| Safety.EstopDropsRelay | firmware/safety.py:17-37 | an E-STOP press or `estop()` sets the flag and drops the relay in the same step |
| Safety.ReleaseDoesNotRearm | firmware/safety.py:17-24 | a release edge clears the flag but leaves the relay as it was |
| Safety.DropRelayIdempotent | firmware/safety.py:31-32 | `relay_off()` forces LOW and is idempotent |
| Safety.LatchedUntilRelease | firmware/safety.py:26-37 | with E-STOP active and the relay off, no command sequence without a release energises the relay |
| Safety.HeldAtStartNotSeen | firmware/safety.py:13-29 | from the initial state (flag clear, relay LOW), `relay_on()` energises the relay: the flag does not reflect an E-STOP held before start-up |
| Safety.EstopThenArmRefused | firmware/safety.py:34-37 | after `estop()`, every `relay_on()` is refused until the flag is cleared |
| Safety.SafetyManager.constructor | firmware/safety.py:9-13 | the flag starts clear and the relay LOW |
| Safety.SafetyManager.EstopChanged | firmware/safety.py:17-24 | the flag follows the pin, which `safety.py` reads as pressed when LOW; a press drops the relay; the interlock invariant is kept |
| Safety.SafetyManager.RelayOn | firmware/safety.py:26-29 | the relay goes HIGH only when the flag is clear; otherwise nothing is written |
| Safety.SafetyManager.RelayOff | firmware/safety.py:31-32 | the relay goes LOW unconditionally |
| Safety.SafetyManager.Estop | firmware/safety.py:34-37 | the flag is set and the relay goes LOW |
| Safety.SafetyManager.EstopActive | firmware/safety.py:39-40 | returns the flag and changes nothing |
| Pump.DutyClamp | firmware/pump.py:15-16 | the stored duty lies in [0, 100], equals the request inside the range, and is the nearer bound outside it |
| Pump.DutyClampIdempotent | firmware/pump.py:15-17 | re-applying a stored duty leaves it unchanged |
| Pump.PumpController.constructor | firmware/pump.py:11-13 | the stored duty is 0 and the PWM starts at PUMP_DUTY_IDLE |
| Pump.PumpController.SetDuty | firmware/pump.py:15-17 | stores the clamped duty and applies that same value to the PWM |
| Pump.PumpController.On | firmware/pump.py:19-20 | `on(d)` is `set_duty(d)`, with PUMP_DUTY_RUN by default |
| Pump.PumpController.Off | firmware/pump.py:22-23 | the duty and the PWM become 0 |
| Pump.PumpController.LitersPerMin | firmware/pump.py:26-27 | always 0.0, with no state read or changed |
| Pump.DefaultOnDuty | firmware/pump.py:19-20 | `on()` with no argument runs at 60 %, which the clamp leaves unchanged |
| LimitsWithMotor.Triggered | firmware/test_limits_with_motor.py:39-47 | NC wiring: triggered iff HIGH; NO wiring: triggered iff LOW |
| LimitsWithMotor.PolarityDisagreesWithMotion | firmware/test_limits_with_motor.py:42-44 | the bench script and the motion controller give every pin level opposite meanings |
| LimitsWithMotor.StrokeStopsAtLimit | firmware/test_limits_with_motor.py:63-75 | a watched stroke emits at most `pulses`, none after the facing limit reads triggered or the timeout fires, and falls short only because one did |
| LimitsWithMotor.UnwatchedStrokeIgnoresLimits | firmware/test_limits_with_motor.py:65-75 | with `stop_on_limit=False`, only the timeout or the count ends the stroke |
| LimitsWithMotor.TestFeed | firmware/test_limits_with_motor.py:110 | the feed is raised to the minimum but never capped |
| LimitsWithMotor.BenchNumbers | firmware/test_limits_with_motor.py:110-121 | 960 pulses/s; the back-off is 1600 pulses at half that rate, each level held twice as long; a seek is capped at 1 600 000 pulses |
| LimitsWithMotor.BothTriggeredRefusesToMove | firmware/test_limits_with_motor.py:105-108 | with both limits reading triggered, the run emits no step pulse at all |
| LimitsWithMotor.DoSteps | firmware/test_limits_with_motor.py:57-82 | the returned count is at most `pulses`, equals the pulses emitted, and is the first index at which the watched limit or the timeout stops the loop |
| LimitsWithMotor.Cleanup | firmware/test_limits_with_motor.py:87-91 | EN goes HIGH unless that write fails, then the GPIO are released |
| LimitsWithMotor.BenchRun | firmware/test_limits_with_motor.py:93-132 | `main()` enables and settles, performs the strokes, then cleans up; it ends with the driver disabled (EN HIGH) unless that write fails, and with DIR toward the first end unless it refused to move |
| LimitsWithMotor.Strokes | firmware/test_limits_with_motor.py:105-129 | no stroke and no DIR write if both limits read triggered; otherwise both ends, leaving DIR toward the first end |
| LimitsWithMotor.BothEnds | firmware/test_limits_with_motor.py:110-129 | the first end, a 0.5 s pause, then the opposite end; the last back-off leaves DIR toward the first end |
| LimitsWithMotor.SeekAndBackOff | firmware/test_limits_with_motor.py:117-121 | a watched seek capped at 1000 mm, then an unwatched back-off the other way at half the rate, which leaves DIR pointing away from the end just sought |
| Bringup.LimState | firmware/system_bringup_test.py:47-54 | the label is "TRIGGERED", and the flag follows the NC/NO rule (HIGH under NC) |
| Bringup.LimStateAgreesWithBench | firmware/system_bringup_test.py:47-54 | `lim_state` and `read_limit` agree on every level |
| Bringup.LimitBlocked | firmware/system_bringup_test.py:119-123 | blocked iff (up and top triggered) or (down and bottom triggered) |
| Bringup.JogGuardDisagreesWithMotion | firmware/system_bringup_test.py:119-123 | on the same levels, the jog's guard blocks exactly when `move_mm`'s would let the pulse through |
| Bringup.InstrPresent | firmware/system_bringup_test.py:68-73 | the instrumentation is used iff the sensors import and the constructor both succeed |
| Bringup.EstopCutDetected | firmware/system_bringup_test.py:125-133 | no cut without instrumentation or when the snapshot raises; a missing bus reading counts as 0 V (a cut); otherwise a cut iff bus_V < 2.0 |
| Bringup.JogStopsWhenGuarded | firmware/system_bringup_test.py:139-145 | a jog emits at most `pulses`, none after the limit is blocked or a cut is detected, and falls short only because one was |
| Bringup.JogWithoutInstrument | firmware/system_bringup_test.py:125-127 | without instrumentation only the limits stop a jog |
| Bringup.JogStepHz | firmware/system_bringup_test.py:115 | the jog rate is max(feed, MIN_FEED_MM_S) * STEPS_PER_MM: the rate of the requested feed or of the minimum feed, whichever is larger |
| Bringup.JogFeedFlooredNotCapped | firmware/system_bringup_test.py:115 | the jog rate equals `move_mm`'s rate within and below the feed window; above it, the jog runs at the requested feed's rate, faster than `move_mm` |
| Bringup.JogNumbers | firmware/system_bringup_test.py:115-117 | 3200 pulses at 800 pulses/s, half-period 0.625 ms, as `move_mm` would use at 0.5 mm/s |
| Bringup.Jog | firmware/system_bringup_test.py:135-153 | DIR, then exactly the pulses before the first blocked limit or detected cut, capped at `pulses` |
| Bringup.Polls | firmware/system_bringup_test.py:100-102 | n polling rounds are n sleeps of 50 ms |
| Bringup.ElapsedPolls | firmware/system_bringup_test.py:100-102 | n polling rounds take n * 0.05 s |
| Bringup.PollCount | firmware/system_bringup_test.py:100-102 | the number of rounds is the fewest whose sleeps reach the window |
| Bringup.PollCountIs | firmware/system_bringup_test.py:100-102 | that number of rounds is unique |
| Bringup.PollWait | firmware/system_bringup_test.py:99-102 | the loop runs exactly `PollCount(seconds)` rounds of 50 ms |
| Bringup.WindowNumbers | firmware/system_bringup_test.py:99-110 | both 2 s windows are 40 rounds, 2 s of sleep each |
| Bringup.CleanupCarriesOn | firmware/system_bringup_test.py:75-84 | pump off, disable, relay off and release run in that order; each step appears iff it does not raise, whatever the others do |
| Bringup.Cleanup | firmware/system_bringup_test.py:75-84 | each step that does not raise takes effect, each one that raises changes nothing, and the interlock invariant holds |
| Bringup.NothingMovesWhileArming | firmware/system_bringup_test.py:92-111 | no step pulse is emitted during setup, arming or priming |
| Bringup.JogsLeaveRelayAndPump | firmware/system_bringup_test.py:113-159 | the jogs never write the relay or the pump |
| Bringup.ImportEnablesDriverUntilConstructed | firmware/motion.py:10-22 | the import-time EN LOW (driver enabled) is undone only by the constructor's EN HIGH, the last setup write, with no EN write in between; the relay is never energised during setup and nothing pulses |
| Bringup.ArmedBeforeMotion | firmware/system_bringup_test.py:92-159 | the relay is energised and the pump set to its run duty before `set_enabled(True)`; nothing pulses before that, and the relay and pump are untouched during the jogs |
| Bringup.ArmAndPrime | firmware/system_bringup_test.py:92-111 | relay on, settle, pump at run duty, then the two polling windows; the interlock invariant holds |
| Bringup.EnableAndJog | firmware/system_bringup_test.py:113-159 | enable, the up jog, a 0.5 s pause, the down jog; it ends enabled with DIR down |
| Bringup.WrapUp | firmware/system_bringup_test.py:161-166 | pump off, driver disabled, relay off, then `cleanup()`; ends with everything off |
| Bringup.BringUp | firmware/system_bringup_test.py:63-166 | `main()`: the full output sequence; it ends with the relay LOW, EN HIGH, the PWM at 0 and DIR down |

## Left out

- `firmware/main.py`, `firmware/sensors.py`, `firmware/test_pump.py` and `firmware/pump_running.py`
  are not part of this model.
  - They contain CSV logging, a demo sequence and PWM sweep scripts.
  - The INA219 wrapper appears only as the snapshot input of `estop_cut_detected`.
- `wait_clear` is left out. It polls a flag that another thread changes.
- Concurrency is not modelled.
  - The E-STOP callback is an ordinary atomic method (`EstopChanged`), and interleavings with
    running code are not modelled.
  - During bring-up the callback is taken not to fire, so `relay_on` always energises.
- The `bouncetime` of `add_event_detect`, the PWM waveform and pin numbers are not modelled.
  - Pins are fields; the duty is a stored value.
  - The jog drives pin 17, the driver's STEP pin, so it is modelled as an ordinary STEP pulse.
- `GPIO.cleanup()` is recorded as a `Released` event only. Its reset of the pin levels is not
  modelled.
- `print`, `print_limits` and `show_limits` are left out. They write only to the console.
- Signal handlers and `sys.exit` are left out. A Ctrl+C exit path is not modelled.
- IEEE floating point is not modelled.
  - Feeds, distances and times are exact reals.
  - `int()` on a non-negative value is `.Floor`.
- The wall clock is replaced as follows:
  - The stroke timeout of `do_steps` is an oracle per check.
  - In the bring-up polling windows, the clock advances only through the loop's own sleeps.
- Each component's import-time GPIO setup is folded into its constructor. In bring-up this changes
  the order of those writes, and the script's own duplicate relay-LOW setup is not recorded.
- The limit bench script's import-time writes (STEP, DIR and EN driven LOW,
  test_limits_with_motor.py:32-33) are not part of `LimitsWithMotor.BenchLog`, which starts at
  `main()`.
- Bringup.EstopCutDetected: a snapshot value that `float()` cannot convert (which the source catches
  as an exception) is not modelled, because readings are reals.
- Bringup.BringUp: only the cleanup steps may raise. `main()` has no try/finally, so if any other
  write raises, it exits without running `cleanup()`. This includes a jog write and the wrap-up's
  `pump.off()`, `set_enabled(False)` and `relay_off()` (system_bringup_test.py:163-165). The final
  state it promises (relay LOW, EN HIGH, PWM at 0) holds only on the path where nothing else
  raises.
- Bringup.Cleanup: a cleanup step that raises is modelled as having no effect, not as a partial
  write. For example, `pump.off()` stores a duty of 0 before the PWM call that could raise
  (pump.py:16-17).
- LimitsWithMotor.Cleanup: only a failing EN write is modelled, and `GPIO.cleanup()` is taken not to
  raise, as the source does not guard it.
- Motion.MotionController.Home: the two approach loops are unbounded in the source. The model
  requires the home limit to read triggered eventually in each phase. A switch that never triggers
  (a loop that never ends) is outside the model.
