/**
 * What a cabinet does for one command, as a log: flag, pulses, samples and publications.
 * The abort flag is raised by another task between any two of its actions.
 */
module CabinetLog {
  import opened LedgerTypes
  import opened Steps
  import opened Redelivery

  const STEPS_TO_FIRST_SLOT := 400
  const STEPS_PER_SLOT := 600
  const MAX_TRAVEL := 3000
  const BACK_OFF := 50
  const SLOTS := 2

  /** What the worker publishes. */
  datatype Out =
    | CommandAck | KeyNotPresent | MotorFailed | NotTaken | DoorLeftOpen | PickupDone | ReturnDone
    | RfidScan(matched: bool, uid: string)

  datatype Mark =
    | Cleared                  // the flag is reset as a command begins
    | Flagged                  // motor_request_abort has run
    | Checked(up: bool)        // the flag is sampled
    | Pulse(forward: bool)     // STEP rises
    | AtHome(reached: bool)    // the limit switch is read
    | Dispensed                // motor_dispense_slot has returned true
    | SlotSeen(present: bool)
    | DoorSeen(closed: bool)
    | TagRead(uid: string)
    | NoTag                    // an attempt to read a tag has failed
    | Published(out: Out)
    | Unbuilt(out: Out)        // it would have been published, but there was no memory for the message

  // ----- the outcome as the gateway sees it ------------------------------------------------

  /** The message a publication becomes (firmware/esp32/main/protocol.c). */
  function Wire(out: Out, cabinet: Id, msg: Id, reply: Id, op: Id, at: Time): Message {
    var blank := Message(cabinet, false, cabinet, msg, BLANK, op, None, Some(EvSuccess), None, NO_TAG, at, "", "");
    match out
    case CommandAck => blank.(replyMsgId := reply, stage := Some(EvCommandAck))
    case KeyNotPresent => blank.(stage := Some(EvKeyNotPresent), status := Some(EvFailed), code := "SLOT_EMPTY")
    case MotorFailed => blank.(stage := Some(EvMotorError), status := Some(EvFailed), code := "MOTOR_POSITION_FAILED")
    case NotTaken => blank.(stage := Some(EvTimeout), status := Some(EvFailed), code := "KEY_NOT_TAKEN_TIMEOUT")
    case DoorLeftOpen => blank.(stage := Some(EvDoorOpenTimeout), status := Some(EvFailed), code := "DOOR_NOT_CLOSED")
    case PickupDone => blank.(stage := Some(EvPickupSuccess))
    case ReturnDone => blank.(stage := Some(EvReturnSuccess))
    case RfidScan(matched, uid) =>
      blank.(rfidTopic := true, stage := Some(EvOther("RFID_SCANNED")), isMatch := Some(matched),
          data := TagData(uid, uid, ""),
             status := Some(if matched then EvSuccess else EvFailed))
  }

  predicate IsOutcome(out: Out) {
    !out.CommandAck? && !(out.RfidScan? && out.matched)
  }

  /**
   * The gateway turns exactly the outcomes into events that end an operation, and a matched scan
   * into the confirmation.
   */
  lemma OutcomesEndOperations(out: Out, cabinet: Id, msg: Id, reply: Id, op: Id, at: Time)
    requires cabinet != BLANK && msg != BLANK && op != BLANK
    ensures WellFormed(Wire(out, cabinet, msg, reply, op, at))
    ensures var ev := EventFor(Wire(out, cabinet, msg, reply, op, at));
            && ((ReportsSuccess(ev.etype) || ReportsFailure(ev.etype)) <==> IsOutcome(out))
            && (ReportsSuccess(ev.etype) <==> out in {PickupDone, ReturnDone})
            && (ev.etype == EvRfidConfirmed <==> out.RfidScan? && out.matched)
            && (ev.etype == EvRfidConfirmed ==> ConfirmedTag(ev) == out.uid)
  {
    var m := Wire(out, cabinet, msg, reply, op, at);
    match out
    case RfidScan(matched, uid) => assert RawType(m) == Some(if matched then EvRfidConfirmed else EvFailed);
    case CommandAck => assert RawType(m) == Some(EvCommandAck);
    case _ =>
  }

  // ----- reading a log ------------------------------------------------------------------------

  function Init(log: seq<Mark>): seq<Mark>
    requires log != []
  {
    log[..|log| - 1]
  }

  /** The flag, as the marks leave it. */
  predicate FlagUp(log: seq<Mark>) {
    log != [] &&
    match log[|log| - 1]
    case Flagged => true
    case Cleared => false
    case _ => FlagUp(Init(log))
  }

  /** Pulses that rose while the flag was up. */
  function LatePulses(log: seq<Mark>): nat {
    if log == [] then 0
    else
      match log[|log| - 1]
      case Cleared => 0
      case Pulse(_) => LatePulses(Init(log)) + if FlagUp(Init(log)) then 1 else 0
      case _ => LatePulses(Init(log))
  }

  function Pulses(log: seq<Mark>): nat {
    if log == [] then 0 else Pulses(Init(log)) + if log[|log| - 1].Pulse? then 1 else 0
  }

  function PulsesTowards(log: seq<Mark>, forward: bool): nat {
    if log == [] then 0 else PulsesTowards(Init(log), forward) + if log[|log| - 1] == Pulse(forward) then 1 else 0
  }

  function Outcomes(log: seq<Mark>): nat {
    if log == [] then 0
    else Outcomes(Init(log)) + if log[|log| - 1].Published? && IsOutcome(log[|log| - 1].out) then 1 else 0
  }

  /**
   * How often the sensors said what, which tags were read, and what was published or would have been:
   * acknowledgements, matching tags, and outcomes.
   */
  datatype Facts = Facts(
    full: nat, empty: nat, dispensed: nat, closed: nat, open: nat, tags: seq<string>, unread: nat,
    acks: nat, matches: seq<string>, ends: seq<Out>)

  function WithOut(facts: Facts, out: Out): Facts {
    match out
    case CommandAck => facts.(acks := facts.acks + 1)
    case RfidScan(matched, uid) =>
      if matched then facts.(matches := facts.matches + [uid]) else facts.(ends := facts.ends + [out])
    case _ => facts.(ends := facts.ends + [out])
  }

  function With(facts: Facts, m: Mark): Facts {
    match m
    case SlotSeen(present) => if present then facts.(full := facts.full + 1) else facts.(empty := facts.empty + 1)
    case Dispensed => facts.(dispensed := facts.dispensed + 1)
    case DoorSeen(closed) => if closed then facts.(closed := facts.closed + 1) else facts.(open := facts.open + 1)
    case TagRead(uid) => facts.(tags := facts.tags + [uid])
    case NoTag => facts.(unread := facts.unread + 1)
    case Published(out) => WithOut(facts, out)
    case Unbuilt(out) => WithOut(facts, out)
    case _ => facts
  }

  const NO_FACTS := Facts(0, 0, 0, 0, 0, [], 0, 0, [], [])

  function FactsOf(log: seq<Mark>): Facts {
    if log == [] then NO_FACTS else With(FactsOf(Init(log)), log[|log| - 1])
  }

  /** Published, or kept back because the message could not be built. */
  predicate Concluded(log: seq<Mark>, out: Out) {
    Published(out) in log || Unbuilt(out) in log
  }

  /** They are what is in the log. */
  lemma FactsCount(log: seq<Mark>)
    ensures FactsOf(log).full == multiset(log)[SlotSeen(true)] && FactsOf(log).empty == multiset(log)[SlotSeen(false)]
    ensures FactsOf(log).closed == multiset(log)[DoorSeen(true)] && FactsOf(log).open == multiset(log)[DoorSeen(false)]
    ensures FactsOf(log).dispensed == multiset(log)[Dispensed] && FactsOf(log).unread == multiset(log)[NoTag]
  {
    CountsOf(log, SlotSeen(true));
    CountsOf(log, SlotSeen(false));
    CountsOf(log, DoorSeen(true));
    CountsOf(log, DoorSeen(false));
    CountsOf(log, Dispensed);
    CountsOf(log, NoTag);
  }

  function CountIn(facts: Facts, m: Mark): nat {
    match m
    case SlotSeen(present) => if present then facts.full else facts.empty
    case DoorSeen(closed) => if closed then facts.closed else facts.open
    case Dispensed => facts.dispensed
    case NoTag => facts.unread
    case _ => 0
  }

  lemma {:induction false} CountsOf(log: seq<Mark>, m: Mark)
    requires m.SlotSeen? || m.DoorSeen? || m.Dispensed? || m.NoTag?
    ensures CountIn(FactsOf(log), m) == multiset(log)[m]
  {
    if log != [] {
      CountsOf(Init(log), m);
      assert log == Init(log) + [log[|log| - 1]];
    }
  }

  lemma {:induction false} FactsTell(log: seq<Mark>)
    ensures forall uid :: uid in FactsOf(log).tags <==> TagRead(uid) in log
    ensures forall out :: out in FactsOf(log).ends <==> IsOutcome(out) && Concluded(log, out)
    ensures forall uid :: uid in FactsOf(log).matches <==> Concluded(log, RfidScan(true, uid))
  {
    if log != [] {
      FactsTell(Init(log));
      assert log == Init(log) + [log[|log| - 1]];
    }
  }

  /** If every message could be built, what was concluded was published, each outcome once. */
  lemma {:induction false} BuiltIsPublished(log: seq<Mark>)
    requires forall out :: Unbuilt(out) !in log
    ensures Outcomes(log) == |FactsOf(log).ends|
    ensures forall out | out in FactsOf(log).ends :: Published(out) in log
  {
    if log != [] {
      BuiltIsPublished(Init(log));
      assert log == Init(log) + [log[|log| - 1]];
    }
  }

  /** After the flag has been sampled set, nothing is published. */
  ghost predicate Silent(log: seq<Mark>) {
    forall i, j | 0 <= i < j < |log| :: log[i] == Checked(true) ==> !log[j].Published?
  }

  /** The marks of `pattern` occur in `log` in this order. */
  predicate Follows(pattern: seq<Mark>, log: seq<Mark>) {
    pattern == []
    || (log != []
        && ((pattern[|pattern| - 1] == log[|log| - 1] && Follows(Init(pattern), Init(log)))
             || Follows(pattern, Init(log))))
  }

  /** A log only grows: what one more mark means. */
  lemma OneMore(log: seq<Mark>, m: Mark)
    ensures Init(log + [m]) == log && (log + [m])[|log|] == m
    ensures Outcomes(log + [m]) == Outcomes(log) + if m.Published? && IsOutcome(m.out) then 1 else 0
    ensures FactsOf(log + [m]) == With(FactsOf(log), m)
    ensures FlagUp(log + [m]) == if m.Flagged? then true else if m.Cleared? then false else FlagUp(log)
    ensures Pulses(log + [m]) == Pulses(log) + if m.Pulse? then 1 else 0
    ensures forall forward ::
            PulsesTowards(log + [m], forward) == PulsesTowards(log, forward) + if m == Pulse(forward) then 1 else 0
    ensures LatePulses(log + [m])
            == if m.Cleared? then 0 else if m.Pulse? && FlagUp(log) then LatePulses(log) + 1 else LatePulses(log)
    ensures Silent(log) && (m.Published? ==> Checked(true) !in log) ==> Silent(log + [m])
    ensures Truthful(log) && (m.Checked? ==> m.up == FlagUp(log)) ==> Truthful(log + [m])
    ensures ClearedFirst(log) && (m.Cleared? ==> log == []) ==> ClearedFirst(log + [m])
  {
    assert Init(log + [m]) == log;
  }

  lemma FollowsMore(pattern: seq<Mark>, log: seq<Mark>, m: Mark)
    ensures Follows(pattern, log) ==> Follows(pattern, log + [m])
    ensures Follows(pattern, log) ==> Follows(pattern + [m], log + [m])
  {
    assert Init(log + [m]) == log && Init(pattern + [m]) == pattern;
  }

  predicate Places(places: seq<nat>, pattern: seq<Mark>, log: seq<Mark>) {
    && |places| == |pattern|
    && (forall i, j | 0 <= i < j < |places| :: places[i] < places[j])
    && (forall i | 0 <= i < |places| :: places[i] < |log| && log[places[i]] == pattern[i])
  }

  /** Other marks may come in between, but the pattern's are there, at growing positions. */
  lemma {:induction false} FollowsMeans(pattern: seq<Mark>, log: seq<Mark>)
    requires Follows(pattern, log)
    ensures exists places: seq<nat> :: Places(places, pattern, log)
  {
    if pattern == [] {
      assert Places([], pattern, log);
    } else if pattern[|pattern| - 1] == log[|log| - 1] && Follows(Init(pattern), Init(log)) {
      FollowsMeans(Init(pattern), Init(log));
      var places: seq<nat> :| Places(places, Init(pattern), Init(log));
      assert Places(places + [|log| - 1], pattern, log);
    } else {
      FollowsMeans(pattern, Init(log));
      var places: seq<nat> :| Places(places, pattern, Init(log));
      assert Places(places, pattern, log);
    }
  }

  lemma {:induction false} FollowsPrefix(pattern: seq<Mark>, early: seq<Mark>, log: seq<Mark>)
    requires Follows(pattern, early) && early <= log
    ensures Follows(pattern, log)
  {
    if early != log && pattern != [] {
      assert early <= Init(log);
      FollowsPrefix(pattern, early, Init(log));
    }
  }

  lemma FollowsNext(early: seq<Mark>, log: seq<Mark>, m: Mark)
    requires early <= log
    ensures forall pattern | Follows(pattern, early) :: Follows(pattern + [m], log + [m])
  {
    forall pattern | Follows(pattern, early) ensures Follows(pattern + [m], log + [m]) {
      FollowsPrefix(pattern, early, log);
      FollowsMore(pattern, log, m);
    }
  }

  lemma {:induction false} NoOutcomes(log: seq<Mark>)
    requires Outcomes(log) == 0
    ensures forall i | 0 <= i < |log| :: !(log[i].Published? && IsOutcome(log[i].out))
  {
    if log != [] {
      NoOutcomes(Init(log));
    }
  }

  // ----- aborts and successes -----------------------------------------------------------------

  /** Every sample says what the flag was. */
  predicate Truthful(log: seq<Mark>) {
    log == []
    || (Truthful(Init(log)) && (log[|log| - 1].Checked? ==> log[|log| - 1].up == FlagUp(Init(log))))
  }

  /** The flag is only ever cleared as the command begins. */
  predicate ClearedFirst(log: seq<Mark>) {
    forall i | 1 <= i < |log| :: !log[i].Cleared?
  }

  lemma {:induction false} TruthfulAt(log: seq<Mark>, k: nat)
    requires Truthful(log) && k < |log| && log[k].Checked?
    ensures log[k].up == FlagUp(log[..k])
  {
    if k < |log| - 1 {
      TruthfulAt(Init(log), k);
      assert Init(log)[..k] == log[..k];
    } else {
      assert Init(log) == log[..k];
    }
  }

  lemma {:induction false} StaysUp(log: seq<Mark>, i: nat)
    requires ClearedFirst(log) && i < |log| && log[i].Flagged?
    ensures FlagUp(log)
  {
    if i < |log| - 1 {
      StaysUp(Init(log), i);
    }
  }

  /** No look at the flag between positions `i` and `j`. */
  predicate NoLook(log: seq<Mark>, i: nat, j: nat) {
    forall k | i < k < j && k < |log| :: !log[k].Checked?
  }

  /** Whatever is published after an abort has come is published without another look at the flag. */
  ghost predicate AbortsHeeded(log: seq<Mark>) {
    forall i, j | 0 <= i < j < |log| && log[i].Flagged? && log[j].Published? :: NoLook(log, i, j)
  }

  lemma LogHeedsAborts(log: seq<Mark>)
    requires Truthful(log) && ClearedFirst(log) && Silent(log)
    ensures AbortsHeeded(log)
  {
    forall i, j, k | 0 <= i < k < j < |log| && log[i].Flagged? && log[j].Published? ensures !log[k].Checked? {
      if log[k].Checked? {
        TruthfulAt(log, k);
        StaysUp(log[..k], i);
      }
    }
  }
}
