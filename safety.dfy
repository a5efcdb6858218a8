/**
 * The safety interlock: a software E-STOP flag and the power relay it guards. The relay may be
 * energised only while the flag is clear. This module reads an E-STOP pin edge to LOW as a press
 * (with the switch wired NC to ground, that edge is the physical release); a LOW edge, or forcing
 * E-STOP in software, drops the relay at once, and a HIGH edge never re-energises it. Only edges
 * update the flag: it starts clear whatever the pin reads.
 */
module Safety {
  import opened Hardware

  /** The interlock's state: the E-STOP flag and the relay coil line. */
  datatype Interlock = Interlock(estopActive: bool, relay: Level)

  /** What can happen to the interlock. */
  datatype Command =
    | PinEdge(pin: Level)   // `_estop_changed`: the E-STOP input changed and now reads `pin`
    | ArmRelay              // `relay_on()`
    | DropRelay             // `relay_off()`
    | ForceEstop            // `estop()`

  /** The interlock invariant: the relay is never energised while E-STOP is active. */
  predicate Safe(s: Interlock)
  {
    s.relay == High ==> !s.estopActive
  }

  /** The effect of one command. */
  function Next(s: Interlock, c: Command): Interlock
  {
    match c
    case PinEdge(pin) =>
      var pressed := pin == Low;
      Interlock(pressed, if pressed then Low else s.relay)
    case ArmRelay => if !s.estopActive then s.(relay := High) else s
    case DropRelay => s.(relay := Low)
    case ForceEstop => Interlock(true, Low)
  }

  /** The effect of a sequence of commands, first to last. */
  function Run(s: Interlock, cs: seq<Command>): Interlock
    decreases |cs|
  {
    if cs == [] then s else Run(Next(s, cs[0]), cs[1..])
  }

  /** Each single command keeps the interlock safe; `relay_on` energises exactly when the flag is clear. */
  lemma NextSafe(s: Interlock, c: Command)
    requires Safe(s)
    ensures Safe(Next(s, c))
    ensures c == ArmRelay ==> (Next(s, c).relay == High <==> !s.estopActive || s.relay == High)
  {
  }

  /** Any sequence of commands from a safe state ends in a safe state. */
  lemma {:induction false} RunSafe(s: Interlock, cs: seq<Command>)
    requires Safe(s)
    ensures Safe(Run(s, cs))
    decreases |cs|
  {
    if cs != [] {
      NextSafe(s, cs[0]);
      RunSafe(Next(s, cs[0]), cs[1..]);
    }
  }

  /** Pressing E-STOP, or forcing it, sets the flag and drops the relay in the same step. */
  lemma EstopDropsRelay(s: Interlock)
    ensures Next(s, PinEdge(Low)) == Interlock(true, Low)
    ensures Next(s, ForceEstop) == Interlock(true, Low)
  {
  }

  /** Releasing E-STOP clears the flag but leaves the relay as it was: no silent re-arming. */
  lemma ReleaseDoesNotRearm(s: Interlock)
    ensures !Next(s, PinEdge(High)).estopActive
    ensures Next(s, PinEdge(High)).relay == s.relay
  {
  }

  /** `relay_off()` is idempotent. */
  lemma DropRelayIdempotent(s: Interlock)
    ensures Next(Next(s, DropRelay), DropRelay) == Next(s, DropRelay)
    ensures Next(s, DropRelay).relay == Low
  {
  }

  /**
   * Once E-STOP is active and the relay is off, no sequence of commands that contains no
   * release edge can energise the relay: every `relay_on()` is refused until the flag clears.
   */
  lemma {:induction false} LatchedUntilRelease(cs: seq<Command>)
    requires forall k :: 0 <= k < |cs| ==> cs[k] != PinEdge(High)
    ensures Run(Interlock(true, Low), cs) == Interlock(true, Low)
    decreases |cs|
  {
    if cs != [] {
      assert Next(Interlock(true, Low), cs[0]) == Interlock(true, Low);
      LatchedUntilRelease(cs[1..]);
    }
  }

  /**
   * The flag starts clear and only edges change it, so an E-STOP already held down at start-up
   * does not stop the first `relay_on()`: the relay is energised.
   */
  lemma HeldAtStartNotSeen()
    ensures Next(Interlock(false, Low), ArmRelay) == Interlock(false, High)
    ensures Run(Interlock(false, Low), [ArmRelay]) == Interlock(false, High)
  {
    assert [ArmRelay][1..] == [];
  }

  /** After `estop()`, whatever the earlier state, commands without a release keep the relay off. */
  lemma EstopThenArmRefused(s: Interlock, cs: seq<Command>)
    requires forall k :: 0 <= k < |cs| ==> cs[k] != PinEdge(High)
    ensures Run(s, [ForceEstop] + cs).relay == Low
  {
    assert ([ForceEstop] + cs)[1..] == cs;
    LatchedUntilRelease(cs);
  }

  /** The safety manager: owns the E-STOP flag and drives the relay line of the shared rig. */
  class SafetyManager {
    var estopActive: bool
    const rig: Rig

    function State(): Interlock
      reads this, rig`relay
    {
      Interlock(estopActive, rig.relay)
    }

    ghost predicate Valid()
      reads this, rig`relay
    {
      Safe(State())
    }

    /** Import-time setup drives the relay LOW; the flag starts clear. */
    constructor (rig: Rig)
      modifies rig`relay, rig`log
      ensures this.rig == rig
      ensures State() == Interlock(false, Low) && Valid()
      ensures rig.log == old(rig.log) + [Relay(Low)]
    {
      this.rig := rig;
      estopActive := false;
      new;
      rig.WriteRelay(Low);
    }

    /** `_estop_changed`: the flag follows the pin, read as pressed when LOW; a press drops the relay too. */
    method EstopChanged(pin: Level)
      requires Valid()
      modifies this`estopActive, rig`relay, rig`log
      ensures Valid()
      ensures State() == Next(old(State()), PinEdge(pin))
      ensures rig.log == old(rig.log) + (if pin == Low then [Relay(Low)] else [])
    {
      var pressed := pin == Low;
      estopActive := pressed;
      if pressed {
        RelayOff();
      }
    }

    /** `relay_on()`: energise the relay, unless E-STOP is active (then nothing happens). */
    method RelayOn()
      requires Valid()
      modifies rig`relay, rig`log
      ensures Valid()
      ensures State() == Next(old(State()), ArmRelay)
      ensures rig.log == old(rig.log) + (if !estopActive then [Relay(High)] else [])
    {
      if !estopActive {
        rig.WriteRelay(High);
      }
    }

    /** `relay_off()`: de-energise the relay, unconditionally. */
    method RelayOff()
      modifies rig`relay, rig`log
      ensures Valid()
      ensures State() == Next(old(State()), DropRelay)
      ensures rig.log == old(rig.log) + [Relay(Low)]
    {
      rig.WriteRelay(Low);
    }

    /** `estop()`: force the E-STOP state in software and drop the relay. */
    method Estop()
      modifies this`estopActive, rig`relay, rig`log
      ensures Valid()
      ensures State() == Next(old(State()), ForceEstop)
      ensures rig.log == old(rig.log) + [Relay(Low)]
    {
      estopActive := true;
      RelayOff();
    }

    /** `estop_active()`: report the flag, changing nothing. */
    method EstopActive() returns (active: bool)
      ensures active == estopActive
    {
      active := estopActive;
    }
  }
}
