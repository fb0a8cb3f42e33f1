/**
 * The cabinet's motor and worker as they work (firmware/esp32/main), with an abort that
 * may strike before every single action.
 */
module CabinetMotor {
  import opened CabinetLog

  class Cabinet {
    var abortRequested: bool
    var driverOn: bool          // the enable pin is active low
    var disablePending: bool    // motor_request_abort has set the flag, but not yet the pin
    ghost var log: seq<Mark>    // since the current command began

    constructor ()
      ensures Valid() && !driverOn && log == []
    {
      abortRequested, driverOn, disablePending, log := false, false, false, [];
    }

    /** At most one pulse after the flag went up; a flag that was seen is still up, and nothing was published since. */
    ghost predicate Valid()
      reads this
    {
      && abortRequested == FlagUp(log)
      && LatePulses(log) <= (if abortRequested then 1 else 0)
      && Silent(log) && Truthful(log) && ClearedFirst(log)
      && (Checked(true) in log ==> abortRequested)
    }

    // ----- the other task, and single actions ---------------------------------------------------

    /** motor_request_abort gets as far as it gets before the next action: it sets the flag, and then the pin. */
    method Interrupt()
      requires Valid()
      modifies this
      ensures Valid() && old(log) <= log && (driverOn ==> old(driverOn)) && (old(abortRequested) ==> abortRequested)
      ensures Outcomes(log) == Outcomes(old(log)) && Pulses(log) == Pulses(old(log))
      ensures FactsOf(log) == FactsOf(old(log))
      ensures LatePulses(log) == LatePulses(old(log))
      ensures forall f :: PulsesTowards(log, f) == PulsesTowards(old(log), f)
      ensures forall m: Mark | !m.Flagged? :: m in log <==> m in old(log)
    {
      var strikes: bool := *;
      if strikes {
        OneMore(log, Flagged);
        abortRequested, disablePending := true, true;
        log := log + [Flagged];
      }
      var goesOn: bool := *;
      if disablePending && goesOn {
        driverOn, disablePending := false, false;
      }
    }

    method Check() returns (up: bool)
      requires Valid()
      modifies this
      ensures Valid() && old(log) <= log && (driverOn ==> old(driverOn)) && (old(abortRequested) ==> abortRequested)
      ensures Outcomes(log) == Outcomes(old(log)) && Pulses(log) == Pulses(old(log))
      ensures FactsOf(log) == FactsOf(old(log))
      ensures forall f :: PulsesTowards(log, f) == PulsesTowards(old(log), f)
      ensures up == abortRequested && (up <==> Checked(true) in log)
      ensures forall m: Mark | !m.Flagged? && !m.Checked? :: m in log <==> m in old(log)
    {
      Interrupt();
      up := abortRequested;
      OneMore(log, Checked(up));
      log := log + [Checked(up)];
    }

    method SetDriver(on: bool)
      requires Valid()
      modifies this
      ensures Valid() && old(log) <= log && driverOn == on && (old(abortRequested) ==> abortRequested)
      ensures Outcomes(log) == Outcomes(old(log)) && Pulses(log) == Pulses(old(log))
      ensures FactsOf(log) == FactsOf(old(log))
      ensures forall f :: PulsesTowards(log, f) == PulsesTowards(old(log), f)
      ensures forall m: Mark | !m.Flagged? :: m in log <==> m in old(log)
    {
      Interrupt();
      driverOn := on;
    }

    /** STEP goes up and down; whoever calls this has just found the flag down. */
    method Step(forward: bool)
      requires Valid() && LatePulses(log) == 0
      modifies this
      ensures Valid() && old(log) <= log && (driverOn ==> old(driverOn)) && (old(abortRequested) ==> abortRequested)
      ensures Outcomes(log) == Outcomes(old(log)) && Pulses(log) == Pulses(old(log)) + 1
      ensures FactsOf(log) == FactsOf(old(log))
      ensures forall f :: PulsesTowards(log, f) == PulsesTowards(old(log), f) + if f == forward then 1 else 0
    {
      Interrupt();
      OneMore(log, Pulse(forward));
      log := log + [Pulse(forward)];
    }

    /** A sensor is read; `m` is what it says. */
    method Sense(m: Mark)
      requires Valid() && (m.SlotSeen? || m.DoorSeen? || m.TagRead? || m.NoTag? || m.AtHome?)
      modifies this
      ensures Valid() && old(log) <= log && (driverOn ==> old(driverOn)) && (old(abortRequested) ==> abortRequested)
      ensures Outcomes(log) == Outcomes(old(log)) && Pulses(log) == Pulses(old(log))
      ensures FactsOf(log) == With(FactsOf(old(log)), m) && m in log
      ensures forall f :: PulsesTowards(log, f) == PulsesTowards(old(log), f)
      ensures Checked(true) in log <==> Checked(true) in old(log)
      ensures forall pattern | Follows(pattern, old(log)) :: Follows(pattern + [m], log)
    {
      Interrupt();
      FollowsNext(old(log), log, m);
      OneMore(log, m);
      log := log + [m];
    }

    /** Publishing fails silently if the message cannot be built. */
    method Publish(out: Out) returns (built: bool)
      requires Valid() && Checked(true) !in log
      modifies this
      ensures Valid() && old(log) <= log && Checked(true) !in log && (driverOn ==> old(driverOn))
              && (old(abortRequested) ==> abortRequested)
      ensures Outcomes(log) == Outcomes(old(log)) + if built && IsOutcome(out) then 1 else 0
      ensures Pulses(log) == Pulses(old(log))
      ensures FactsOf(log) == With(FactsOf(old(log)), Published(out))
      ensures forall o | Published(o) in log :: Published(o) in old(log) || (built && o == out)
      ensures built ==> forall pattern | Follows(pattern, old(log)) :: Follows(pattern + [Published(out)], log)
    {
      Interrupt();
      built := *;
      if built {
        FollowsNext(old(log), log, Published(out));
        OneMore(log, Published(out));
        log := log + [Published(out)];
      } else {
        OneMore(log, Unbuilt(out));
        log := log + [Unbuilt(out)];
      }
    }

    // ----- motor_task.c ------------------------------------------------------------------------------

    /** step_motor: false only because of an abort, and then with the driver off. */
    method StepMotor(steps: nat, forward: bool) returns (done: bool)
      requires Valid()
      modifies this
      ensures Valid() && old(log) <= log && Outcomes(log) == Outcomes(old(log)) && FactsOf(log) == FactsOf(old(log))
      ensures Pulses(log) <= Pulses(old(log)) + steps
      ensures done ==> PulsesTowards(log, forward) == PulsesTowards(old(log), forward) + steps
      ensures PulsesTowards(log, forward) >= PulsesTowards(old(log), forward)
      ensures PulsesTowards(log, !forward) == PulsesTowards(old(log), !forward)
      ensures !done ==> !driverOn && abortRequested
    {
      var up := Check();
      if up {
        SetDriver(false);
        return false;
      }
      SetDriver(true);
      for i := 0 to steps
        invariant Valid() && old(log) <= log && Outcomes(log) == Outcomes(old(log)) && FactsOf(log) == FactsOf(old(log))
        invariant Pulses(log) == Pulses(old(log)) + i
        invariant PulsesTowards(log, forward) == PulsesTowards(old(log), forward) + i
        invariant PulsesTowards(log, !forward) == PulsesTowards(old(log), !forward)
      {
        up := Check();
        if up {
          SetDriver(false);
          return false;
        }
        Step(forward);
      }
      return true;
    }

    /** One step back, unless an abort has come. */
    method SeekOrigin() returns (moved: bool)
      requires Valid()
      modifies this
      ensures Valid() && old(log) <= log && Outcomes(log) == Outcomes(old(log)) && FactsOf(log) == FactsOf(old(log))
      ensures Pulses(log) == Pulses(old(log)) + if moved then 1 else 0
      ensures PulsesTowards(log, true) == PulsesTowards(old(log), true)
      ensures PulsesTowards(log, false) == PulsesTowards(old(log), false) + if moved then 1 else 0
      ensures !moved ==> !driverOn && abortRequested
    {
      var up := Check();
      if up {
        SetDriver(false);
        return false;
      }
      Step(false);
      return true;
    }

    method LimitSwitch() returns (reached: bool)
      requires Valid()
      modifies this
      ensures Valid() && old(log) <= log && AtHome(reached) in log && (old(abortRequested) ==> abortRequested)
      ensures Outcomes(log) == Outcomes(old(log)) && FactsOf(log) == FactsOf(old(log))
      ensures Pulses(log) == Pulses(old(log))
      ensures PulsesTowards(log, true) == PulsesTowards(old(log), true)
      ensures PulsesTowards(log, false) == PulsesTowards(old(log), false)
    {
      reached := *;
      Sense(AtHome(reached));
    }

    /** motor_calibrate_home; the failing path makes one pulse more than the travel limit. */
    method CalibrateHome() returns (home: bool)
      requires Valid()
      modifies this
      ensures Valid() && old(log) <= log && Outcomes(log) == Outcomes(old(log)) && !driverOn
      ensures FactsOf(log) == FactsOf(old(log))
      ensures Pulses(log) <= Pulses(old(log)) + 3050
      ensures PulsesTowards(log, true) >= PulsesTowards(old(log), true)
      ensures PulsesTowards(log, false) >= PulsesTowards(old(log), false)
      ensures home ==> AtHome(true) in log
      ensures !home ==> abortRequested || PulsesTowards(log, false) == PulsesTowards(old(log), false) + 3001
    {
      SetDriver(true);
      var steps := 0;
      var atOrigin := LimitSwitch();
      while !atOrigin
        invariant Valid() && old(log) <= log && Outcomes(log) == Outcomes(old(log)) && FactsOf(log) == FactsOf(old(log))
        invariant AtHome(atOrigin) in log
        invariant steps <= MAX_TRAVEL && Pulses(log) == Pulses(old(log)) + steps
        invariant PulsesTowards(log, true) >= PulsesTowards(old(log), true)
        invariant PulsesTowards(log, false) == PulsesTowards(old(log), false) + steps
        decreases MAX_TRAVEL - steps, !atOrigin
      {
        var moved := SeekOrigin();
        if !moved {
          return false;
        }
        steps := steps + 1;
        if steps > MAX_TRAVEL {
          SetDriver(false);
          return false;
        }
        atOrigin := LimitSwitch();
      }
      BackOff();
      return true;
    }

    /** Off the limit switch again, whether an abort lets it or not. */
    method BackOff()
      requires Valid()
      modifies this
      ensures Valid() && old(log) <= log && Outcomes(log) == Outcomes(old(log)) && !driverOn
      ensures FactsOf(log) == FactsOf(old(log)) && Pulses(log) <= Pulses(old(log)) + 50
      ensures PulsesTowards(log, true) >= PulsesTowards(old(log), true)
      ensures PulsesTowards(log, false) == PulsesTowards(old(log), false)
    {
      var ignored := StepMotor(BACK_OFF, true);
      SetDriver(false);
    }

    /**
     * motor_dispense_slot: however an abort strikes, it returns with the driver off and
     * within its travel; success means the full way out and the full way back.
     */
    method DispenseSlot(slot: int) returns (done: bool)
      requires Valid()
      modifies this
      ensures Valid() && old(log) <= log && Outcomes(log) == Outcomes(old(log))
      ensures FactsOf(log) == if done then With(FactsOf(old(log)), Dispensed) else FactsOf(old(log))
      ensures !(1 <= slot <= 2) ==> !done && log == old(log) && driverOn == old(driverOn)
      ensures 1 <= slot <= 2 ==>
                var way := 400 + slot * 600;
                && !driverOn
                && Pulses(log) <= Pulses(old(log)) + 2 * way + 3050
                && (done ==> && PulsesTowards(log, true) >= PulsesTowards(old(log), true) + way
                             && PulsesTowards(log, false) >= PulsesTowards(old(log), false) + way)
      ensures 1 <= slot <= 2 && !done ==>
                abortRequested || PulsesTowards(log, false) == PulsesTowards(old(log), false) + 400 + slot * 600 + 3001
      ensures done ==> AtHome(true) in log
      ensures done ==> forall pattern | Follows(pattern, old(log)) :: Follows(pattern + [Dispensed], log)
    {
      if slot < 1 || slot > SLOTS {
        return false;
      }
      var way := STEPS_TO_FIRST_SLOT + slot * STEPS_PER_SLOT;
      done := StepMotor(way, true);
      if !done {
        return;
      }
      done := StepMotor(way, false);
      if !done {
        return;
      }
      done := CalibrateHome();
      if !done {
        return;
      }
      FollowsNext(old(log), log, Dispensed);
      OneMore(log, Dispensed);
      log := log + [Dispensed];
    }
  }
}
