/** The cabinet's command worker: polling loops between publications. */
module CabinetWorker {
  import opened LedgerTypes
  import opened CabinetLog
  import opened CabinetMotor

  datatype Command =
    | PickupCommand(slot: int, timeout: int)
    | ReturnCommand(slot: int, timeout: int, expected: string)

  const DOOR_POLLS := 300
  const TAG_READS := 5

  /** What must have happened, in this order, for a success to be published. */
  function PickupStory(): seq<Mark> {
    [SlotSeen(true), Dispensed, SlotSeen(false), DoorSeen(true), Published(PickupDone)]
  }

  function ReturnStory(uid: string): seq<Mark> {
    [SlotSeen(true), TagRead(uid), DoorSeen(true), Published(ReturnDone)]
  }

  /** A story is told mark by mark. */
  lemma Told(story: seq<Mark>, m: Mark, log: seq<Mark>, more: seq<Mark>)
    requires more == story + [m] && Follows(story + [m], log)
    ensures Follows(more, log)
  {
  }

  lemma NothingYet(log: seq<Mark>)
    ensures Follows([], log)
  {
  }

  /** The publications that are not outcomes leave success unpublished. */
  predicate Unfinished(log: seq<Mark>) {
    Published(PickupDone) !in log && Published(ReturnDone) !in log
  }

  lemma NoneFinished(log: seq<Mark>)
    requires Outcomes(log) == 0
    ensures Unfinished(log)
  {
    NoOutcomes(log);
  }

  // ----- outcomes -----------------------------------------------------------------------------------------

  /**
   * How a pickup ends, exactly: done iff the door was seen closed; door left open iff it was seen open
   * 300 times; not taken iff the key was in the slot at every look; key not present iff the slot was
   * empty to begin with; motor failed iff it was not, nothing was dispensed, and no abort was seen.
   * Without an abort there is exactly one outcome, and none after one has been seen.
   */
  ghost predicate PickupTold(f: Facts, polls: nat, aborted: bool) {
    && f.acks == 1 && f.tags == [] && f.unread == 0 && f.matches == []
    && (f.ends == [PickupDone] <==> f.closed == 1)
    && (f.ends == [DoorLeftOpen] <==> f.open == 300)
    && (f.ends == [NotTaken] <==> f.dispensed == 1 && f.empty == 0 && f.full == 1 + polls)
    && (f.ends == [KeyNotPresent] <==> f.dispensed == 0 && f.empty == 1)
    && (f.ends == [MotorFailed] <==> f.dispensed == 0 && f.full == 1 && !aborted)
    && (f.closed + f.open > 0 ==> f.dispensed == 1 && f.empty == 1 && 1 <= f.full <= polls)
    && (f.ends == [] <==> aborted)
    && (!aborted ==> f.ends in {[PickupDone], [DoorLeftOpen], [NotTaken], [KeyNotPresent], [MotorFailed]})
  }

  /**
   * How a return ends, exactly: done iff the door was seen closed, after a matching tag; door left open
   * iff it was seen open 300 times, after a matching tag; a failed scan for another tag that was read,
   * and without a tag iff none could be read five times or the slot was empty at every look.
   */
  ghost predicate ReturnTold(f: Facts, polls: nat, expected: string, aborted: bool) {
    && f.acks == 1 && f.dispensed == 0 && |f.tags| <= 1
    && f.matches == (if f.tags != [] && EqualFold(f.tags[0], expected) then f.tags else [])
    && (f.ends == [ReturnDone] <==> f.closed == 1)
    && (f.ends == [DoorLeftOpen] <==> f.open == 300)
    && (forall uid :: f.ends == [RfidScan(false, uid)] <==>
          || (f.tags == [uid] && !EqualFold(uid, expected))
          || (uid == "" && f.tags == [] && (f.unread == 5 || f.empty == polls)))
    && (f.closed + f.open > 0 ==> f.full == 1 && f.matches != [])
    && (f.ends == [] <==> aborted)
    && (!aborted ==> |f.ends| == 1 && (f.ends[0] in {ReturnDone, DoorLeftOpen} || f.ends[0].RfidScan?))
  }

  lemma OnlyEnd(f: Facts, out: Out)
    requires f.ends == [out]
    ensures forall other :: f.ends == [other] <==> other == out
  {
    assert f.ends[0] == out;
  }

  /** Where a pickup stands when it ends this way. */
  predicate PickupAt(f: Facts, out: Out, polls: nat) {
    && f.acks == 1 && f.tags == [] && f.unread == 0 && f.matches == [] && f.ends == []
    && match out
       case PickupDone => f.closed == 1 && f.open < 300 && f.dispensed == f.empty == 1 && 1 <= f.full <= polls
       case DoorLeftOpen => f.closed == 0 && f.open == 300 && f.dispensed == f.empty == 1 && 1 <= f.full <= polls
       case NotTaken => f.closed == f.open == 0 && f.dispensed == 1 && f.empty == 0 && f.full == 1 + polls
       case KeyNotPresent => f.closed == f.open == 0 && f.dispensed == f.full == 0 && f.empty == 1
       case MotorFailed => f.closed == f.open == 0 && f.dispensed == f.empty == 0 && f.full == 1
       case _ => false
  }

  lemma PickupEnded(f: Facts, out: Out, polls: nat)
    requires PickupAt(f, out, polls)
    ensures PickupTold(WithOut(f, out), polls, false)
  {
    OnlyEnd(WithOut(f, out), out);
  }

  lemma PickupStopped(f: Facts, polls: nat)
    requires f.acks == 1 && f.tags == [] && f.unread == 0 && f.matches == [] && f.ends == [] && f.closed == 0
    requires || (f.open < 300 && f.dispensed == f.empty == 1 && 1 <= f.full <= polls)
             || (f.open == 0 && f.dispensed == 1 && f.empty == 0 && f.full < 1 + polls)
             || (f.open == 0 && f.dispensed == f.empty == 0 && f.full == 1)
    ensures PickupTold(f, polls, true)
  {
  }

  /** Where a return stands when it ends this way: after its tag has matched, or without. */
  predicate ReturnAt(f: Facts, out: Out, polls: nat, expected: string) {
    && f.acks == 1 && f.dispensed == 0 && f.ends == []
    && match out
       case ReturnDone => MatchedSoFar(f, polls, expected) && f.closed == 1 && f.open < 300
       case DoorLeftOpen => MatchedSoFar(f, polls, expected) && f.closed == 0 && f.open == 300
       case RfidScan(matched, uid) => !matched && Unmatched(f, polls, expected, uid)
       case _ => false
  }

  lemma ReturnEnded(f: Facts, out: Out, polls: nat, expected: string)
    requires ReturnAt(f, out, polls, expected)
    ensures ReturnTold(WithOut(f, out), polls, expected, false)
  {
    OnlyEnd(WithOut(f, out), out);
  }

  predicate MatchedSoFar(f: Facts, polls: nat, expected: string) {
    |f.tags| == 1 && EqualFold(f.tags[0], expected) && f.matches == f.tags && f.full == 1 && f.unread < 5
  }

  predicate Unmatched(f: Facts, polls: nat, expected: string, uid: string) {
    && f.matches == [] && f.closed == f.open == 0
    && ((f.tags == [uid] && !EqualFold(uid, expected))
        || (f.tags == [] && uid == "" && (f.unread == 5 || f.empty == polls)))
  }

  lemma ReturnStopped(f: Facts, polls: nat, expected: string)
    requires f.acks == 1 && f.dispensed == 0 && f.ends == [] && f.closed == 0 && f.open < 300
    requires || MatchedSoFar(f, polls, expected)
             || (f.tags == f.matches == [] && f.open == f.unread == 0 && f.empty < polls)
    ensures ReturnTold(f, polls, expected, true)
  {
  }

  /** Looks at the slot that found it otherwise, and one that did not. */
  function SlotLooks(f: Facts, present: bool, looks: nat, seen: bool): Facts {
    var waited := if present then f.(empty := f.empty + looks) else f.(full := f.full + looks);
    if seen then With(waited, SlotSeen(present)) else waited
  }

  function DoorLooks(f: Facts, looks: nat, closed: bool): Facts {
    f.(open := f.open + looks, closed := f.closed + if closed then 1 else 0)
  }

  function TagReads(f: Facts, misses: nat, read: bool, uid: string): Facts {
    f.(unread := f.unread + misses, tags := if read then f.tags + [uid] else f.tags)
  }

  /** The key is back, and so far nothing is wrong. */
  predicate Matched(f: Facts, uid: string) {
    && f.acks == 1 && f.dispensed == 0 && f.tags == f.matches == [uid] && f.full == 1 && f.closed == f.open == 0
    && f.ends == [] && f.unread < 5
  }

  /** Where a return with a matching tag stands after the wait for the door. */
  lemma AtDoor(f: Facts, tag: string, looks: nat, closed: bool, aborted: bool, polls: nat, expected: string)
    requires Matched(f, tag) && EqualFold(tag, expected) && (closed ==> !aborted)
    requires if closed || aborted then looks < 300 else looks == 300
    ensures var g := DoorLooks(f, looks, closed);
            if aborted then ReturnTold(g, polls, expected, true)
            else ReturnAt(g, if closed then ReturnDone else DoorLeftOpen, polls, expected)
  {
    if aborted {
      ReturnStopped(DoorLooks(f, looks, closed), polls, expected);
    }
  }

  function Seconds(timeout: int, otherwise: nat): nat {
    if timeout > 0 then timeout else otherwise
  }

  class Worker {
    const cabinet: Cabinet

    constructor (cabinet: Cabinet)
      ensures this.cabinet == cabinet
    {
      this.cabinet := cabinet;
    }

    /** motor_clear_abort: the log starts over, and an abort that came earlier is forgotten. */
    method ClearAbort()
      modifies cabinet
      ensures cabinet.Valid() && cabinet.log == [Cleared] && !cabinet.abortRequested
      ensures cabinet.driverOn == old(cabinet.driverOn) && FactsOf(cabinet.log) == NO_FACTS
    {
      cabinet.abortRequested := false;
      cabinet.log := [Cleared];
      OneMore([], Cleared);
      assert [] + [Cleared] == [Cleared];
    }

    /** How every command begins. */
    method Acknowledge()
      requires !cabinet.driverOn
      modifies cabinet
      ensures cabinet.Valid() && !cabinet.driverOn && Checked(true) !in cabinet.log
      ensures Outcomes(cabinet.log) == 0 && Pulses(cabinet.log) == 0 && FactsOf(cabinet.log) == NO_FACTS.(acks := 1)
    {
      ClearAbort();
      assert Init([Cleared]) == [] && Outcomes(cabinet.log) == 0 && Pulses(cabinet.log) == 0;
      var acked := cabinet.Publish(CommandAck);
    }

    method SlotPresence() returns (present: bool)
      requires cabinet.Valid()
      modifies cabinet
      ensures cabinet.Valid() && old(cabinet.log) <= cabinet.log && (cabinet.driverOn ==> old(cabinet.driverOn))
      ensures Outcomes(cabinet.log) == Outcomes(old(cabinet.log)) && Pulses(cabinet.log) == Pulses(old(cabinet.log))
      ensures Checked(true) in cabinet.log <==> Checked(true) in old(cabinet.log)
      ensures FactsOf(cabinet.log) == With(FactsOf(old(cabinet.log)), SlotSeen(present))
      ensures forall pattern | Follows(pattern, old(cabinet.log)) :: Follows(pattern + [SlotSeen(present)], cabinet.log)
    {
      present := *;
      cabinet.Sense(SlotSeen(present));
    }

    /** Polls until the slot reads `present`; an abort ends the wait. */
    method AwaitSlot(present: bool, polls: nat, ghost told: seq<Mark>)
        returns (seen: bool, aborted: bool, ghost looks: nat)
      requires cabinet.Valid() && polls > 0 && Outcomes(cabinet.log) == 0 && Follows(told, cabinet.log)
      modifies cabinet
      ensures cabinet.Valid() && Outcomes(cabinet.log) == 0 && (cabinet.driverOn ==> old(cabinet.driverOn))
      ensures Pulses(cabinet.log) == Pulses(old(cabinet.log))
      ensures aborted <==> Checked(true) in cabinet.log
      ensures seen ==> !aborted && Follows(told + [SlotSeen(present)], cabinet.log)
      ensures FactsOf(cabinet.log) == SlotLooks(FactsOf(old(cabinet.log)), present, looks, seen)
      ensures if seen || aborted then looks < polls else looks == polls
    {
      for i := 0 to polls
        invariant cabinet.Valid() && Outcomes(cabinet.log) == 0 && (cabinet.driverOn ==> old(cabinet.driverOn))
        invariant Pulses(cabinet.log) == Pulses(old(cabinet.log))
        invariant Follows(told, cabinet.log) && (i > 0 ==> Checked(true) !in cabinet.log)
        invariant FactsOf(cabinet.log) == SlotLooks(FactsOf(old(cabinet.log)), present, i, false)
      {
        ghost var before := cabinet.log;
        var up := cabinet.Check();
        if up {
          return false, true, i;
        }
        FollowsPrefix(told, before, cabinet.log);
        before := cabinet.log;
        var now := SlotPresence();
        if now == present {
          return true, false, i;
        }
        FollowsPrefix(told, before, cabinet.log);
      }
      return false, false, polls;
    }

    method AwaitDoor(ghost told: seq<Mark>) returns (closed: bool, aborted: bool, ghost looks: nat)
      requires cabinet.Valid() && Outcomes(cabinet.log) == 0 && Follows(told, cabinet.log)
      modifies cabinet
      ensures cabinet.Valid() && Outcomes(cabinet.log) == 0 && (cabinet.driverOn ==> old(cabinet.driverOn))
      ensures Pulses(cabinet.log) == Pulses(old(cabinet.log))
      ensures aborted <==> Checked(true) in cabinet.log
      ensures closed ==> !aborted && Follows(told + [DoorSeen(true)], cabinet.log)
      ensures FactsOf(cabinet.log) == DoorLooks(FactsOf(old(cabinet.log)), looks, closed)
      ensures if closed || aborted then looks < 300 else looks == 300
    {
      for i := 0 to DOOR_POLLS
        invariant cabinet.Valid() && Outcomes(cabinet.log) == 0 && (cabinet.driverOn ==> old(cabinet.driverOn))
        invariant Pulses(cabinet.log) == Pulses(old(cabinet.log))
        invariant Follows(told, cabinet.log) && (i > 0 ==> Checked(true) !in cabinet.log)
        invariant FactsOf(cabinet.log) == DoorLooks(FactsOf(old(cabinet.log)), i, false)
      {
        ghost var before := cabinet.log;
        var up := cabinet.Check();
        if up {
          return false, true, i;
        }
        FollowsPrefix(told, before, cabinet.log);
        before := cabinet.log;
        var now: bool := *;
        cabinet.Sense(DoorSeen(now));
        if now {
          return true, false, i;
        }
        FollowsPrefix(told, before, cabinet.log);
      }
      return false, false, DOOR_POLLS;
    }

    /** One publication that ends the command. */
    method Conclude(out: Out) returns (built: bool)
      requires cabinet.Valid() && Checked(true) !in cabinet.log && Outcomes(cabinet.log) == 0 && IsOutcome(out)
      modifies cabinet
      ensures cabinet.Valid() && Outcomes(cabinet.log) <= 1 && (cabinet.driverOn ==> old(cabinet.driverOn))
      ensures Pulses(cabinet.log) == Pulses(old(cabinet.log)) && Checked(true) !in cabinet.log
      ensures FactsOf(cabinet.log) == WithOut(FactsOf(old(cabinet.log)), out)
      ensures forall o | o in {PickupDone, ReturnDone} && Published(o) in cabinet.log :: built && o == out
      ensures built ==> forall pattern | Follows(pattern, old(cabinet.log)) ::
              Follows(pattern + [Published(out)], cabinet.log)
    {
      NoneFinished(cabinet.log);
      built := cabinet.Publish(out);
    }

    /** The publication that ends a pickup. */
    method EndPickup(out: Out, ghost polls: nat) returns (built: bool)
      requires cabinet.Valid() && Checked(true) !in cabinet.log && Outcomes(cabinet.log) == 0
      requires PickupAt(FactsOf(cabinet.log), out, polls)
      modifies cabinet
      ensures cabinet.Valid() && Outcomes(cabinet.log) <= 1 && (cabinet.driverOn ==> old(cabinet.driverOn))
      ensures Pulses(cabinet.log) == Pulses(old(cabinet.log))
      ensures PickupTold(FactsOf(cabinet.log), polls, Checked(true) in cabinet.log)
      ensures Published(ReturnDone) !in cabinet.log
      ensures Published(PickupDone) in cabinet.log ==> built && out == PickupDone
      ensures built ==> forall pattern | Follows(pattern, old(cabinet.log)) ::
              Follows(pattern + [Published(out)], cabinet.log)
    {
      PickupEnded(FactsOf(cabinet.log), out, polls);
      built := Conclude(out);
    }

    /** The publication that ends a return. */
    method EndReturn(out: Out, ghost polls: nat, ghost expected: string) returns (built: bool)
      requires cabinet.Valid() && Checked(true) !in cabinet.log && Outcomes(cabinet.log) == 0
      requires ReturnAt(FactsOf(cabinet.log), out, polls, expected)
      modifies cabinet
      ensures cabinet.Valid() && Outcomes(cabinet.log) <= 1 && (cabinet.driverOn ==> old(cabinet.driverOn))
      ensures Pulses(cabinet.log) == Pulses(old(cabinet.log))
      ensures ReturnTold(FactsOf(cabinet.log), polls, expected, Checked(true) in cabinet.log)
      ensures Published(PickupDone) !in cabinet.log
      ensures Published(ReturnDone) in cabinet.log ==> built && out == ReturnDone
      ensures built ==> forall pattern | Follows(pattern, old(cabinet.log)) ::
              Follows(pattern + [Published(out)], cabinet.log)
    {
      ReturnEnded(FactsOf(cabinet.log), out, polls, expected);
      built := Conclude(out);
    }

    /** The pickup branch of execute_command. */
    method RunPickup(slot: int, timeout: int)
      requires !cabinet.driverOn
      modifies cabinet
      ensures cabinet.Valid() && !cabinet.driverOn && Outcomes(cabinet.log) <= 1
      ensures Published(PickupDone) in cabinet.log ==> Follows(PickupStory(), cabinet.log)
      ensures Published(ReturnDone) !in cabinet.log
      ensures PickupTold(FactsOf(cabinet.log), 10 * Seconds(timeout, 60), Checked(true) in cabinet.log)
      ensures Pulses(cabinet.log)
              <= if 1 <= slot <= 2 then 2 * (400 + slot * 600) + 3050 else 0
    {
      Acknowledge();
      NothingYet(cabinet.log);
      var present := SlotPresence();
      if !present {
        var built := EndPickup(KeyNotPresent, 10 * Seconds(timeout, 60));
        return;
      }
      Told([], SlotSeen(true), cabinet.log, [SlotSeen(true)]);
      DispensePickup(slot, Seconds(timeout, 60));
    }

    /** The motor, and what follows. */
    method DispensePickup(slot: int, seconds: nat)
      requires seconds > 0 && cabinet.Valid() && Outcomes(cabinet.log) == 0 && !cabinet.driverOn
      requires Checked(true) !in cabinet.log && Follows([SlotSeen(true)], cabinet.log) && Pulses(cabinet.log) == 0
      requires FactsOf(cabinet.log) == NO_FACTS.(acks := 1, full := 1)
      modifies cabinet
      ensures PickupTold(FactsOf(cabinet.log), 10 * seconds, Checked(true) in cabinet.log)
      ensures cabinet.Valid() && !cabinet.driverOn && Outcomes(cabinet.log) <= 1
      ensures Published(PickupDone) in cabinet.log ==> Follows(PickupStory(), cabinet.log)
      ensures Published(ReturnDone) !in cabinet.log
      ensures Pulses(cabinet.log)
              <= if 1 <= slot <= 2 then 2 * (400 + slot * 600) + 3050 else 0
    {
      var dispensed := cabinet.DispenseSlot(slot);
      if !dispensed {
        var up := cabinet.Check();
        NoneFinished(cabinet.log);
        if up {
          PickupStopped(FactsOf(cabinet.log), 10 * seconds);
        } else {
          var built := EndPickup(MotorFailed, 10 * seconds);
        }
        return;
      }
      Told([SlotSeen(true)], Dispensed, cabinet.log, [SlotSeen(true), Dispensed]);
      FinishPickup(seconds);
    }

    /** The wait for the key after the push rod is back. */
    method FinishPickup(seconds: nat)
      requires seconds > 0 && cabinet.Valid() && Outcomes(cabinet.log) == 0 && !cabinet.driverOn
      requires Follows([SlotSeen(true), Dispensed], cabinet.log)
      requires FactsOf(cabinet.log) == NO_FACTS.(acks := 1, full := 1, dispensed := 1)
      modifies cabinet
      ensures PickupTold(FactsOf(cabinet.log), 10 * seconds, Checked(true) in cabinet.log)
      ensures cabinet.Valid() && !cabinet.driverOn && Outcomes(cabinet.log) <= 1
      ensures Published(PickupDone) in cabinet.log ==> Follows(PickupStory(), cabinet.log)
      ensures Published(ReturnDone) !in cabinet.log
      ensures Pulses(cabinet.log) == Pulses(old(cabinet.log))
    {
      var removed, aborted, looks := AwaitSlot(false, seconds * 10, [SlotSeen(true), Dispensed]);
      NoneFinished(cabinet.log);
      if aborted {
        PickupStopped(FactsOf(cabinet.log), 10 * seconds);
        return;
      }
      if !removed {
        var built := EndPickup(NotTaken, 10 * seconds);
        return;
      }
      Told([SlotSeen(true), Dispensed], SlotSeen(false), cabinet.log, [SlotSeen(true), Dispensed, SlotSeen(false)]);
      ClosePickup(10 * seconds, looks);
    }

    /** The wait for the door. */
    method ClosePickup(ghost polls: nat, ghost waited: nat)
      requires cabinet.Valid() && Outcomes(cabinet.log) == 0 && !cabinet.driverOn && waited < polls
      requires Follows([SlotSeen(true), Dispensed, SlotSeen(false)], cabinet.log)
      requires FactsOf(cabinet.log) == NO_FACTS.(acks := 1, full := 1 + waited, dispensed := 1, empty := 1)
      modifies cabinet
      ensures PickupTold(FactsOf(cabinet.log), polls, Checked(true) in cabinet.log)
      ensures cabinet.Valid() && !cabinet.driverOn && Outcomes(cabinet.log) <= 1
      ensures Published(PickupDone) in cabinet.log ==> Follows(PickupStory(), cabinet.log)
      ensures Published(ReturnDone) !in cabinet.log
      ensures Pulses(cabinet.log) == Pulses(old(cabinet.log))
    {
      var closed, aborted, looks := AwaitDoor([SlotSeen(true), Dispensed, SlotSeen(false)]);
      NoneFinished(cabinet.log);
      if aborted {
        PickupStopped(FactsOf(cabinet.log), polls);
        return;
      }
      if !closed {
        var built := EndPickup(DoorLeftOpen, polls);
        return;
      }
      Told([SlotSeen(true), Dispensed, SlotSeen(false)], DoorSeen(true), cabinet.log,
           [SlotSeen(true), Dispensed, SlotSeen(false), DoorSeen(true)]);
      var built := EndPickup(PickupDone, polls);
      if built {
        Told([SlotSeen(true), Dispensed, SlotSeen(false), DoorSeen(true)], Published(PickupDone), cabinet.log,
             PickupStory());
      }
    }

    /** Up to five attempts to read a tag. */
    method ReadTag(ghost told: seq<Mark>) returns (read: bool, uid: string, ghost misses: nat)
      requires cabinet.Valid() && Checked(true) !in cabinet.log && Follows(told, cabinet.log)
      modifies cabinet
      ensures cabinet.Valid() && Checked(true) !in cabinet.log && (cabinet.driverOn ==> old(cabinet.driverOn))
      ensures Outcomes(cabinet.log) == Outcomes(old(cabinet.log)) && Pulses(cabinet.log) == Pulses(old(cabinet.log))
      ensures read ==> Follows(told + [TagRead(uid)], cabinet.log)
      ensures FactsOf(cabinet.log) == TagReads(FactsOf(old(cabinet.log)), misses, read, uid)
      ensures if read then misses < 5 else misses == 5 && uid == ""
    {
      for retry := 0 to TAG_READS
        invariant cabinet.Valid() && Checked(true) !in cabinet.log && (cabinet.driverOn ==> old(cabinet.driverOn))
        invariant Outcomes(cabinet.log) == Outcomes(old(cabinet.log))
        invariant Pulses(cabinet.log) == Pulses(old(cabinet.log)) && Follows(told, cabinet.log)
        invariant FactsOf(cabinet.log) == TagReads(FactsOf(old(cabinet.log)), retry, false, "")
      {
        var answers: bool := *;
        if answers {
          uid := *;
          cabinet.Sense(TagRead(uid));
          return true, uid, retry;
        }
        ghost var before := cabinet.log;
        cabinet.Sense(NoTag);
        FollowsPrefix(told, before, cabinet.log);
      }
      return false, "", TAG_READS;
    }

    /** rfid_verify_return: a mismatch, a missing tag and a missing key are all published as failed scans. */
    method VerifyReturn(seconds: nat, expected: string) returns (matched: bool, uid: string)
      requires seconds > 0 && cabinet.Valid() && Outcomes(cabinet.log) == 0 && Checked(true) !in cabinet.log
      requires FactsOf(cabinet.log) == NO_FACTS.(acks := 1)
      modifies cabinet
      ensures cabinet.Valid() && (cabinet.driverOn ==> old(cabinet.driverOn))
              && Pulses(cabinet.log) == Pulses(old(cabinet.log))
      ensures Outcomes(cabinet.log) <= (if matched then 0 else 1) && Unfinished(cabinet.log)
      ensures matched ==> Checked(true) !in cabinet.log && EqualFold(uid, expected)
                          && Follows([SlotSeen(true), TagRead(uid)], cabinet.log)
      ensures if matched then Matched(FactsOf(cabinet.log), uid)
              else ReturnTold(FactsOf(cabinet.log), 10 * seconds, expected, Checked(true) in cabinet.log)
    {
      NothingYet(cabinet.log);
      var inserted, aborted, looks := AwaitSlot(true, seconds * 10, []);
      NoneFinished(cabinet.log);
      if aborted {
        ReturnStopped(FactsOf(cabinet.log), 10 * seconds, expected);
        return false, "";
      }
      if !inserted {
        var built := EndReturn(RfidScan(false, ""), 10 * seconds, expected);
        return false, "";
      }
      Told([], SlotSeen(true), cabinet.log, [SlotSeen(true)]);
      matched, uid := CompareTag(expected, 10 * seconds, looks);
    }

    /** The tag of a key that has been inserted. */
    method CompareTag(expected: string, ghost polls: nat, ghost waited: nat) returns (matched: bool, uid: string)
      requires cabinet.Valid() && Outcomes(cabinet.log) == 0 && Checked(true) !in cabinet.log && waited < polls
      requires Follows([SlotSeen(true)], cabinet.log)
      requires FactsOf(cabinet.log) == NO_FACTS.(acks := 1, empty := waited, full := 1)
      modifies cabinet
      ensures cabinet.Valid() && (cabinet.driverOn ==> old(cabinet.driverOn))
              && Pulses(cabinet.log) == Pulses(old(cabinet.log))
      ensures Outcomes(cabinet.log) <= (if matched then 0 else 1) && Unfinished(cabinet.log)
      ensures matched ==> Checked(true) !in cabinet.log && EqualFold(uid, expected)
                          && Follows([SlotSeen(true), TagRead(uid)], cabinet.log)
      ensures if matched then Matched(FactsOf(cabinet.log), uid)
              else ReturnTold(FactsOf(cabinet.log), polls, expected, Checked(true) in cabinet.log)
    {
      var read;
      ghost var misses;
      read, uid, misses := ReadTag([SlotSeen(true)]);
      NoneFinished(cabinet.log);
      if !read {
        var built := EndReturn(RfidScan(false, ""), polls, expected);
        return false, uid;
      }
      Told([SlotSeen(true)], TagRead(uid), cabinet.log, [SlotSeen(true), TagRead(uid)]);
      matched := EqualFold(uid, expected);
      if matched {
        ghost var before := cabinet.log;
        var built := cabinet.Publish(RfidScan(true, uid));
        FollowsPrefix([SlotSeen(true), TagRead(uid)], before, cabinet.log);
        NoneFinished(cabinet.log);
      } else {
        var built := EndReturn(RfidScan(false, uid), polls, expected);
      }
    }

    /** The return branch of execute_command; success names the tag that was read. */
    method RunReturn(slot: int, timeout: int, expected: string) returns (ghost uid: string)
      requires !cabinet.driverOn
      modifies cabinet
      ensures cabinet.Valid() && !cabinet.driverOn && Outcomes(cabinet.log) <= 1 && Pulses(cabinet.log) == 0
      ensures Published(ReturnDone) in cabinet.log ==>
                EqualFold(uid, expected) && Follows(ReturnStory(uid), cabinet.log)
      ensures Published(PickupDone) !in cabinet.log
      ensures ReturnTold(FactsOf(cabinet.log), 10 * Seconds(timeout, 120), expected, Checked(true) in cabinet.log)
    {
      Acknowledge();
      var matched, tag := VerifyReturn(Seconds(timeout, 120), expected);
      uid := tag;
      if matched {
        CloseReturn(tag, expected, 10 * Seconds(timeout, 120));
      }
    }

    /** The wait for the door. */
    method CloseReturn(tag: string, ghost expected: string, ghost polls: nat)
      requires cabinet.Valid() && Outcomes(cabinet.log) == 0 && !cabinet.driverOn && Checked(true) !in cabinet.log
      requires EqualFold(tag, expected) && Follows([SlotSeen(true), TagRead(tag)], cabinet.log)
      requires Matched(FactsOf(cabinet.log), tag)
      modifies cabinet
      ensures cabinet.Valid() && !cabinet.driverOn && Outcomes(cabinet.log) <= 1
      ensures Pulses(cabinet.log) == Pulses(old(cabinet.log))
      ensures Published(ReturnDone) in cabinet.log ==> Follows(ReturnStory(tag), cabinet.log)
      ensures Published(PickupDone) !in cabinet.log
      ensures ReturnTold(FactsOf(cabinet.log), polls, expected, Checked(true) in cabinet.log)
    {
      ghost var before := FactsOf(cabinet.log);
      var closed, aborted, looks := AwaitDoor([SlotSeen(true), TagRead(tag)]);
      NoneFinished(cabinet.log);
      AtDoor(before, tag, looks, closed, aborted, polls, expected);
      if aborted {
        return;
      }
      if !closed {
        var built := EndReturn(DoorLeftOpen, polls, expected);
        return;
      }
      Told([SlotSeen(true), TagRead(tag)], DoorSeen(true), cabinet.log, [SlotSeen(true), TagRead(tag), DoorSeen(true)]);
      FinishReturn(tag, expected, polls);
    }

    method FinishReturn(ghost tag: string, ghost expected: string, ghost polls: nat)
      requires cabinet.Valid() && Checked(true) !in cabinet.log && Outcomes(cabinet.log) == 0 && !cabinet.driverOn
      requires Follows([SlotSeen(true), TagRead(tag), DoorSeen(true)], cabinet.log)
      requires ReturnAt(FactsOf(cabinet.log), ReturnDone, polls, expected)
      modifies cabinet
      ensures cabinet.Valid() && !cabinet.driverOn && Outcomes(cabinet.log) <= 1
      ensures Pulses(cabinet.log) == Pulses(old(cabinet.log))
      ensures Published(ReturnDone) in cabinet.log ==> Follows(ReturnStory(tag), cabinet.log)
      ensures Published(PickupDone) !in cabinet.log
      ensures ReturnTold(FactsOf(cabinet.log), polls, expected, Checked(true) in cabinet.log)
    {
      var built := EndReturn(ReturnDone, polls, expected);
      if built {
        Told([SlotSeen(true), TagRead(tag), DoorSeen(true)], Published(ReturnDone), cabinet.log, ReturnStory(tag));
      }
    }

    /**
     * execute_command: at most one outcome, success only after its whole story, silence once
     * an abort has been seen, at most one pulse after it, and the driver off at the end.
     */
    method ExecuteCommand(command: Command)
      requires !cabinet.driverOn
      modifies cabinet
      ensures !cabinet.driverOn && Outcomes(cabinet.log) <= 1 && Silent(cabinet.log) && LatePulses(cabinet.log) <= 1
      ensures AbortsHeeded(cabinet.log)
      ensures Published(PickupDone) in cabinet.log ==> command.PickupCommand? && Follows(PickupStory(), cabinet.log)
      ensures Published(ReturnDone) in cabinet.log ==>
                command.ReturnCommand? && exists uid ::
                    EqualFold(uid, command.expected) && Follows(ReturnStory(uid), cabinet.log)
      ensures match command
              case PickupCommand(_, timeout) =>
                PickupTold(FactsOf(cabinet.log), 10 * Seconds(timeout, 60), Checked(true) in cabinet.log)
              case ReturnCommand(_, timeout, expected) =>
                ReturnTold(FactsOf(cabinet.log), 10 * Seconds(timeout, 120), expected, Checked(true) in cabinet.log)
    {
      match command {
        case PickupCommand(slot, timeout) => RunPickup(slot, timeout);
        case ReturnCommand(slot, timeout, expected) =>
          ghost var uid := RunReturn(slot, timeout, expected);
      }
      LogHeedsAborts(cabinet.log);
    }
  }
}
