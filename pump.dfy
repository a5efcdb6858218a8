/**
 * The electrolyte pump: a MOSFET gate driven by a 1 kHz PWM whose duty cycle (0-100 %) sets
 * the pump speed. There is no flow sensor in this firmware.
 */
module Pump {
  import opened Config
  import opened Hardware

  /** A requested duty clamped into the PWM's valid range [0, 100]. */
  function DutyClamp(d: real): (r: real)
    ensures 0.0 <= r <= 100.0
    ensures 0.0 <= d <= 100.0 ==> r == d
    ensures d < 0.0 ==> r == 0.0
    ensures d > 100.0 ==> r == 100.0
  {
    var capped := if 100.0 < d then 100.0 else d;
    if 0.0 < capped then capped else 0.0
  }

  /** Clamping twice is clamping once, so re-applying a stored duty leaves it as it is. */
  lemma DutyClampIdempotent(d: real)
    ensures DutyClamp(DutyClamp(d)) == DutyClamp(d)
  {
  }

  /** The pump controller; its stored duty always equals what the PWM is running at. */
  class PumpController {
    var duty: real
    const rig: Rig

    ghost predicate Valid()
      reads this, rig`pwm
    {
      0.0 <= duty <= 100.0 && rig.pwm == duty
    }

    /** The stored duty starts at 0 and the PWM is started at the idle duty. */
    constructor (rig: Rig)
      modifies rig`pwm, rig`log
      ensures this.rig == rig && Valid()
      ensures duty == 0.0 && rig.pwm == PumpDutyIdle
      ensures rig.log == old(rig.log) + [Duty(PumpDutyIdle)]
    {
      this.rig := rig;
      duty := 0.0;
      new;
      rig.WritePwm(PumpDutyIdle);
    }

    /** `set_duty(d)`: store the clamped duty and apply that same value to the PWM. */
    method SetDuty(d: real)
      modifies this`duty, rig`pwm, rig`log
      ensures Valid()
      ensures duty == DutyClamp(d)
      ensures rig.log == old(rig.log) + [Duty(DutyClamp(d))]
    {
      duty := DutyClamp(d);
      rig.WritePwm(duty);
    }

    /** `on(d)`: run the pump, at PUMP_DUTY_RUN unless told otherwise. */
    method On(d: real := PumpDutyRun)
      modifies this`duty, rig`pwm, rig`log
      ensures Valid()
      ensures duty == DutyClamp(d)
      ensures rig.log == old(rig.log) + [Duty(DutyClamp(d))]
    {
      SetDuty(d);
    }

    /** `off()`: duty 0. */
    method Off()
      modifies this`duty, rig`pwm, rig`log
      ensures Valid()
      ensures duty == 0.0
      ensures rig.log == old(rig.log) + [Duty(0.0)]
    {
      SetDuty(0.0);
    }

    /** `liters_per_min()`: a placeholder that always reports no flow and changes nothing. */
    function LitersPerMin(): (lpm: real)
      ensures lpm == 0.0
    {
      0.0
    }
  }

  /** Switching the pump on with no argument runs it at PUMP_DUTY_RUN, 60 %, unclamped. */
  lemma DefaultOnDuty()
    ensures DutyClamp(PumpDutyRun) == PumpDutyRun == 60.0
  {
  }
}
