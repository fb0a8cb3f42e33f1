/**
 * The MQTT gateway's event path: at-least-once delivery (QoS 1, section 4.3.2 of OASIS
 * MQTT Version 3.1.1) with a bounded cache of handled messages in front of the ledger.
 */
module Redelivery {
  import opened LedgerTypes
  import opened OperationTx
  import opened Services
  import opened Steps
  import opened Coupling
  import opened Moves
  import opened CouplingRuns
  import opened OneWinner
  import opened EventLog

  /** A decoded event message; `stage` and `status` are upper-cased words, None if blank. */
  datatype Message = Message(
    topicDevice: Id, rfidTopic: bool, deviceId: Id, msgId: Id, replyMsgId: Id, op: Id,
    stage: Option<EventType>, status: Option<EventType>, isMatch: Option<bool>,
    data: TagData, at: Time, code: string, message: string)

  /** The event type before abort renaming. */
  function RawType(m: Message): Option<EventType> {
    if m.status == Some(EvFailed) || m.status == Some(EvError) then Some(EvFailed)
    else if m.rfidTopic && m.isMatch.Some? then Some(if m.isMatch.value then EvRfidConfirmed else EvFailed)
    else if m.stage == None && m.replyMsgId != BLANK && m.status == Some(EvSuccess) then Some(EvCommandAck)
    else if m.stage == None then m.status
    else m.stage
  }

  /** ABORTED and CANCELLED count as an abort acknowledgement. */
  function Renamed(etype: EventType): EventType {
    if etype == EvAborted || etype == EvCancelled then EvAbortAck else etype
  }

  predicate WellFormed(m: Message) {
    m.deviceId != BLANK && m.deviceId == m.topicDevice && m.msgId != BLANK && m.op != BLANK && RawType(m).Some?
  }

  function EventFor(m: Message): DeviceEvent
    requires WellFormed(m)
  {
    DeviceEvent(m.op, m.deviceId, m.msgId, Renamed(RawType(m).value), m.data, m.at, m.code, m.message)
  }

  /** What reaches the ledger never bears the name CANCELLED, so logs keep their shape. */
  lemma NeverBareCancelled(m: Message, stored: bool)
    requires WellFormed(m)
    ensures FromGateway(Report(EventFor(m), stored))
  {
  }

  function KeyOf(ev: DeviceEvent): EventKey {
    EventKey(ev.deviceId, ev.msgId)
  }

  // ----- the gateway ------------------------------------------------------------------

  const CACHE_LIMIT := 4096

  /** The ledger behind the gateway, and seenMessages. */
  datatype Gate = Gate(db: Db, seen: map<EventKey, Time>)

  datatype Verdict = Discarded | Duplicate | Handled | Retryable

  /** markMessageSeen: above the limit, entries older than an hour are dropped. */
  function Marked(seen: map<EventKey, Time>, key: EventKey, now: Time): map<EventKey, Time> {
    var marked := seen[key := now];
    if |marked| > CACHE_LIMIT then map k | k in marked && marked[k] >= now - HOUR :: marked[k] else marked
  }

  /** handleIncoming for an event topic; `up` is false when the database fails the handler. */
  function Incoming(g: Gate, m: Message, now: Time, up: bool, stored: bool): (Verdict, Gate) {
    if !WellFormed(m) then (Discarded, g)
    else
      var ev := EventFor(m);
      if KeyOf(ev) in g.seen then (Duplicate, g)
      else if !up || OnDeviceEvent(g.db, ev, stored).Rollback? then (Retryable, g)
      else (Handled, Gate(OnDeviceEvent(g.db, ev, stored).db, Marked(g.seen, KeyOf(ev), now)))
  }

  /** What happens to gateway and ledger: a delivery, or a step from elsewhere. */
  datatype Item = Deliver(m: Message, now: Time, up: bool, stored: bool) | Elsewhere(step: Step)

  function Play(g: Gate, items: seq<Item>): Gate {
    if items == [] then g
    else
      var before := Play(g, items[..|items| - 1]);
      match items[|items| - 1]
      case Deliver(m, now, up, stored) => Incoming(before, m, now, up, stored).1
      case Elsewhere(step) => before.(db := After(before.db, step))
  }

  // ----- each message once --------------------------------------------------------------

  predicate Has(steps: seq<Step>, key: EventKey) {
    exists i | 0 <= i < |steps| :: steps[i].Report? && KeyOf(steps[i].event) == key
  }

  /** The same items with each (device, msgId) handled once, at its first success. */
  function Once(db: Db, items: seq<Item>): seq<Step> {
    if items == [] then []
    else
      var early := Once(db, items[..|items| - 1]);
      match items[|items| - 1]
      case Deliver(m, now, up, stored) =>
        if WellFormed(m) && up && !Has(early, KeyOf(EventFor(m)))
           && OnDeviceEvent(Exec(db, early), EventFor(m), stored).Commit?
        then early + [Report(EventFor(m), stored)] else early
      case Elsewhere(step) => early + [step]
  }

  predicate NoOtherReports(items: seq<Item>) {
    forall i | 0 <= i < |items| :: items[i].Elsewhere? ==> !items[i].step.Report?
  }

  ghost predicate NoRepeats(steps: seq<Step>) {
    forall i, j | 0 <= i < j < |steps| && steps[i].Report? && steps[j].Report? ::
      KeyOf(steps[i].event) != KeyOf(steps[j].event)
  }

  lemma AddNoRepeat(steps: seq<Step>, step: Step)
    requires NoRepeats(steps) && (step.Report? ==> !Has(steps, KeyOf(step.event)))
    ensures NoRepeats(steps + [step])
  {
  }

  /** Once handles no message id twice. */
  lemma {:induction false} OnceIsOnce(db: Db, items: seq<Item>)
    requires NoOtherReports(items)
    ensures NoRepeats(Once(db, items))
  {
    if items != [] {
      var early := Once(db, items[..|items| - 1]);
      var last := items[|items| - 1];
      OnceIsOnce(db, items[..|items| - 1]);
      if last.Deliver? {
        if WellFormed(last.m) && !Has(early, KeyOf(EventFor(last.m))) {
          AddNoRepeat(early, Report(EventFor(last.m), last.stored));
        }
      } else {
        assert !items[|items| - 1].step.Report?;
        AddNoRepeat(early, last.step);
      }
    }
  }

  // ----- handling a message again -----------------------------------------------------------

  /** The ledger already shows the effect of `ev`. */
  predicate Settled(db: Db, ev: DeviceEvent) {
    && ev.op in db.ops && db.ops[ev.op].deviceId == ev.deviceId
    && (IsTerminal(db.ops[ev.op].status)
        || (!ReportsSuccess(ev.etype) && !ReportsFailure(ev.etype) && KeyOf(ev) in db.eventKeys))
  }

  lemma HandledIsSettled(db: Db, after: Db, ev: DeviceEvent, stored: bool)
    requires OnDeviceEvent(db, ev, stored) == Commit(after)
    ensures Settled(after, ev)
  {
    if ReportsSuccess(ev.etype) {
      if db.ops[ev.op].action == Pickup {
        PickupEnds(db, after, ev.op, ev.at);
      } else {
        ReturnEnds(db, after, ev.op, ev.at);
      }
    } else if ReportsFailure(ev.etype) {
      AbandonEnds(db, after, ev.op, Fails(ev.code, ev.message), ev.at);
    } else {
      RecordedIsSettled(db, after, ev, stored);
    }
  }

  lemma PickupEnds(db: Db, after: Db, id: Id, now: Time)
    requires CompletePickup(db, id, now) == Commit(after)
    ensures id in db.ops && id in after.ops && IsTerminal(after.ops[id].status)
    ensures after.ops[id].deviceId == db.ops[id].deviceId
  {
  }

  lemma ReturnEnds(db: Db, after: Db, id: Id, now: Time)
    requires CompleteReturn(db, id, now) == Commit(after)
    ensures id in db.ops && id in after.ops && IsTerminal(after.ops[id].status)
    ensures after.ops[id].deviceId == db.ops[id].deviceId
  {
  }

  lemma AbandonEnds(db: Db, after: Db, id: Id, how: Ending, now: Time)
    requires Abandon(db, id, how, now) == Commit(after)
    ensures id in db.ops && id in after.ops && IsTerminal(after.ops[id].status)
    ensures after.ops[id].deviceId == db.ops[id].deviceId
  {
  }

  lemma RecordedIsSettled(db: Db, after: Db, ev: DeviceEvent, stored: bool)
    requires ev.op in db.ops && db.ops[ev.op].deviceId == ev.deviceId
    requires !ReportsSuccess(ev.etype) && !ReportsFailure(ev.etype)
    requires RecordEvent(db, ev, stored) == Commit(after)
    ensures Settled(after, ev)
  {
    var tagged := Tagged(db, ev, stored);
    if Active(tagged, ev.op) && KeyOf(ev) !in tagged.eventKeys {
    } else {
      assert after == tagged;
    }
  }

  /** Reprocessing a settled event changes nothing but the tag of an RFID confirmation. */
  lemma ReprocessOnlyTags(db: Db, ev: DeviceEvent, stored: bool)
    requires Settled(db, ev)
    ensures OnDeviceEvent(db, ev, stored) == Commit(Tagged(db, ev, stored))
    ensures ev.etype != EvRfidConfirmed ==> Tagged(db, ev, stored) == db
  {
    if ReportsSuccess(ev.etype) || ReportsFailure(ev.etype) {
      assert Tagged(db, ev, stored) == db;
    } else {
      SkippedIfSettled(db, Tagged(db, ev, stored), ev);
    }
  }

  lemma SkippedIfSettled(db: Db, tagged: Db, ev: DeviceEvent)
    requires Settled(db, ev) && !ReportsSuccess(ev.etype) && !ReportsFailure(ev.etype)
    requires tagged.eventKeys == db.eventKeys && ev.op in tagged.ops && tagged.ops[ev.op].status == db.ops[ev.op].status
    ensures AppendEventIfActive(tagged, ev.op, KeyOf(ev), ev.etype, ev.data, ev.at) == Commit(tagged)
  {
  }

  /** Reprocessing is harmless exactly if it does not write a different tag. */
  lemma ReprocessHarmlessIff(db: Db, ev: DeviceEvent, stored: bool)
    requires Settled(db, ev)
    ensures Applied(db, OnDeviceEvent(db, ev, stored)) == db
            <==> !stored || ConfirmedTag(ev) in {"", db.ops[ev.op].scannedRfid}
  {
    ReprocessOnlyTags(db, ev, stored);
    TaggedSameIff(db, ev, stored);
  }

  lemma TaggedSameIff(db: Db, ev: DeviceEvent, stored: bool)
    requires ev.op in db.ops
    ensures Tagged(db, ev, stored) == db <==> !stored || ConfirmedTag(ev) in {"", db.ops[ev.op].scannedRfid}
  {
    var tag := ConfirmedTag(ev);
    var tagged := Tagged(db, ev, stored);
    if stored && tag != "" {
      assert tagged.ops[ev.op].scannedRfid == tag;
      if tag == db.ops[ev.op].scannedRfid {
        assert db.ops[ev.op].(scannedRfid := tag) == db.ops[ev.op];
        assert tagged.ops == db.ops;
      }
    }
  }

  // ----- staying settled ------------------------------------------------------------------------

  /** Stored event keys are never forgotten by the ledger. */
  lemma KeysGrow(db: Db, after: Db, step: Step)
    requires after == After(db, step)
    ensures db.eventKeys <= after.eventKeys
  {
    if IsReservationStep(step) {
      ReservationRows(db, after, step);
    } else if step.Report? {
      ReportKeysGrow(db, after, step.event, step.stored);
    } else if step.AskPickup? {
    } else if step.AskReturn? {
    } else if step.AskDispense? {
    } else if step.Begin? {
    } else {
    }
  }

  lemma ReportKeysGrow(db: Db, after: Db, ev: DeviceEvent, stored: bool)
    requires after == Applied(db, OnDeviceEvent(db, ev, stored))
    ensures db.eventKeys <= after.eventKeys
  {
    if ev.op !in db.ops || db.ops[ev.op].deviceId != ev.deviceId {
      assert after == db;
    } else if ReportsSuccess(ev.etype) {
      SuccessKeysSame(db, after, ev);
    } else if ReportsFailure(ev.etype) {
      assert after == Applied(db, Fail(db, ev.op, ev.code, ev.message, ev.at));
    } else {
      assert after == Applied(db, RecordEvent(db, ev, stored));
    }
  }

  lemma SuccessKeysSame(db: Db, after: Db, ev: DeviceEvent)
    requires ev.op in db.ops
    requires after == Applied(db, if db.ops[ev.op].action == Pickup then CompletePickup(db, ev.op, ev.at)
                                  else CompleteReturn(db, ev.op, ev.at))
    ensures after.eventKeys == db.eventKeys
  {
    if db.ops[ev.op].action == Pickup {
      if CompletePickup(db, ev.op, ev.at).Rollback? { assert after == db; }
    } else {
      if CompleteReturn(db, ev.op, ev.at).Rollback? { assert after == db; }
    }
  }

  lemma MoveSameDevice(db: Db, after: Db)
    requires Moved(db, after)
    ensures forall o | o in db.ops :: o in after.ops && after.ops[o].deviceId == db.ops[o].deviceId
  {
    if OnlyTouched(db, after) || OnlySeen(db, after) || OnlyReserves(db, after) {
    } else if id :| Began(db, after, id) {
      assert Starts(db, after, id);
    } else {
      var id :| Finished(db, after, id);
      assert Ends(db, after, id);
    }
  }

  lemma StaysSettled(db: Db, after: Db, step: Step, ev: DeviceEvent)
    requires Coupled(db) && Settled(db, ev) && after == After(db, step)
    ensures Settled(after, ev)
  {
    StepMoves(db, step);
    MoveSameDevice(db, after);
    MoveAbsorbs(db, after);
    KeysGrow(db, after, step);
  }

  ghost predicate AllSettled(db: Db, steps: seq<Step>) {
    forall i | 0 <= i < |steps| && steps[i].Report? :: Settled(db, steps[i].event)
  }

  // ----- the gateway refines exactly-once ---------------------------------------------------------

  /** Redelivered: same operation, cabinet, message id and type. */
  predicate SameReport(a: DeviceEvent, b: DeviceEvent) {
    a.op == b.op && a.deviceId == b.deviceId && a.msgId == b.msgId && a.etype == b.etype
  }

  /** The tag such an event would store is already there. */
  predicate BringsNoTag(db: Db, ev: DeviceEvent, stored: bool) {
    !stored || ConfirmedTag(ev) == "" || (ev.op in db.ops && db.ops[ev.op].scannedRfid == ConfirmedTag(ev))
  }

  /** A handled message that comes again after eviction is the same, and brings no other tag than the one stored. */
  predicate RepeatsHarmlessly(g: Gate, steps: seq<Step>, item: Item) {
    item.Deliver? && WellFormed(item.m) && Has(steps, KeyOf(EventFor(item.m))) && KeyOf(EventFor(item.m)) !in g.seen ==>
      && BringsNoTag(g.db, EventFor(item.m), item.stored)
      && exists i | 0 <= i < |steps| :: steps[i].Report? && SameReport(steps[i].event, EventFor(item.m))
  }

  predicate Harmless(g: Gate, items: seq<Item>) {
    items == [] ||
    var early := items[..|items| - 1];
    Harmless(g, early) && RepeatsHarmlessly(Play(g, early), Once(g.db, early), items[|items| - 1])
  }

  /** What ties the gateway to the exactly-once run. */
  ghost predicate InStep(g: Gate, db: Db, steps: seq<Step>) {
    && g.db == Exec(db, steps) && Coupled(g.db) && AllSettled(g.db, steps)
    && forall key | key in g.seen :: Has(steps, key)
  }

  lemma HasMore(steps: seq<Step>, step: Step, key: EventKey)
    ensures Has(steps, key) ==> Has(steps + [step], key)
    ensures step.Report? && KeyOf(step.event) == key ==> Has(steps + [step], key)
  {
    if Has(steps, key) {
      var i :| 0 <= i < |steps| && steps[i].Report? && KeyOf(steps[i].event) == key;
      assert (steps + [step])[i] == steps[i];
    }
    assert (steps + [step])[|steps|] == step;
  }

  /** The ledger takes one more step: everything handled stays settled. */
  lemma InStepMore(g: Gate, db: Db, steps: seq<Step>, step: Step, seen: map<EventKey, Time>)
    requires InStep(g, db, steps)
    requires step.Report? ==> Settled(After(g.db, step), step.event)
    requires forall key | key in seen :: key in g.seen || (step.Report? && KeyOf(step.event) == key)
    ensures InStep(Gate(After(g.db, step), seen), db, steps + [step])
  {
    var after := After(g.db, step);
    ExecMore(db, steps, step);
    StepKeeps(g.db, step);
    forall i | 0 <= i < |steps + [step]| && (steps + [step])[i].Report?
      ensures Settled(after, (steps + [step])[i].event)
    {
      if i < |steps| {
        StaysSettled(g.db, after, step, steps[i].event);
      }
    }
    forall key | key in seen ensures Has(steps + [step], key) {
      HasMore(steps, step, key);
    }
  }

  lemma MarkedKeys(seen: map<EventKey, Time>, key: EventKey, now: Time)
    ensures forall k | k in Marked(seen, key, now) :: k in seen || k == key
  {
  }

  lemma DeliverInStep(g: Gate, db: Db, steps: seq<Step>, item: Item, more: seq<Step>)
    requires InStep(g, db, steps) && item.Deliver? && RepeatsHarmlessly(g, steps, item)
    requires more == if WellFormed(item.m) && item.up && !Has(steps, KeyOf(EventFor(item.m)))
                        && OnDeviceEvent(g.db, EventFor(item.m), item.stored).Commit?
                     then steps + [Report(EventFor(item.m), item.stored)] else steps
    ensures InStep(Incoming(g, item.m, item.now, item.up, item.stored).1, db, more)
  {
    var (verdict, after) := Incoming(g, item.m, item.now, item.up, item.stored);
    if verdict == Handled {
      var ev := EventFor(item.m);
      MarkedKeys(g.seen, KeyOf(ev), item.now);
      if Has(steps, KeyOf(ev)) {
        HandledAgain(g, db, steps, ev, item.stored);
      } else {
        HandledIsSettled(g.db, after.db, ev, item.stored);
        InStepMore(g, db, steps, Report(ev, item.stored), after.seen);
      }
    } else {
      assert after == g && more == steps;
    }
  }

  lemma HandledAgain(g: Gate, db: Db, steps: seq<Step>, ev: DeviceEvent, stored: bool)
    requires InStep(g, db, steps) && BringsNoTag(g.db, ev, stored)
    requires exists i | 0 <= i < |steps| :: steps[i].Report? && SameReport(steps[i].event, ev)
    ensures Applied(g.db, OnDeviceEvent(g.db, ev, stored)) == g.db
  {
    var i :| 0 <= i < |steps| && steps[i].Report? && SameReport(steps[i].event, ev);
    assert Settled(g.db, steps[i].event);
    ReprocessHarmlessIff(g.db, ev, stored);
  }

  /**
   * Whatever is duplicated, reordered, retried or interleaved: the ledger is the one that
   * results from handling each message once, in order of first success, as long as no RFID
   * confirmation handled again after the cache forgot it overwrites a different tag.
   */
  lemma {:induction false} RedeliveryRefinesOnce(g: Gate, items: seq<Item>)
    requires Coupled(g.db) && g.seen == map[] && NoOtherReports(items) && Harmless(g, items)
    ensures Play(g, items).db == Exec(g.db, Once(g.db, items))
    ensures InStep(Play(g, items), g.db, Once(g.db, items))
  {
    if items != [] {
      var early := items[..|items| - 1];
      var last := items[|items| - 1];
      RedeliveryRefinesOnce(g, early);
      assert last.Elsewhere? ==> !last.step.Report?;
      ItemInStep(Play(g, early), g.db, Once(g.db, early), last, Play(g, items), Once(g.db, items));
    }
  }

  lemma ItemInStep(before: Gate, db: Db, steps: seq<Step>, item: Item, after: Gate, more: seq<Step>)
    requires InStep(before, db, steps) && RepeatsHarmlessly(before, steps, item)
    requires item.Elsewhere? ==> !item.step.Report?
    requires after == match item
                      case Deliver(m, now, up, stored) => Incoming(before, m, now, up, stored).1
                      case Elsewhere(step) => before.(db := After(before.db, step))
    requires more == match item
                     case Deliver(m, now, up, stored) =>
                       if WellFormed(m) && up && !Has(steps, KeyOf(EventFor(m)))
                          && OnDeviceEvent(before.db, EventFor(m), stored).Commit?
                       then steps + [Report(EventFor(m), stored)] else steps
                     case Elsewhere(step) => steps + [step]
    ensures InStep(after, db, more)
  {
    if item.Deliver? {
      DeliverInStep(before, db, steps, item, more);
    } else {
      InStepMore(before, db, steps, item.step, before.seen);
    }
  }

  // ----- logs behind the gateway -------------------------------------------------------------------

  /** Whatever is delivered, however often, and whatever else happens: logs keep their shape. */
  lemma {:induction false} PlayShaped(g: Gate, items: seq<Item>)
    requires LogsShaped(g.db) && NoOtherReports(items)
    ensures LogsShaped(Play(g, items).db)
  {
    if items != [] {
      var early := items[..|items| - 1];
      var last := items[|items| - 1];
      PlayShaped(g, early);
      assert last.Elsewhere? ==> !last.step.Report?;
      if last.Elsewhere? {
        StepShaped(Play(g, early).db, Play(g, items).db, last.step);
      } else if Incoming(Play(g, early), last.m, last.now, last.up, last.stored).0 == Handled {
        HandledShaped(Play(g, early).db, Play(g, items).db, last.m, last.stored);
      }
    }
  }

  lemma HandledShaped(db: Db, after: Db, m: Message, stored: bool)
    requires WellFormed(m) && LogsShaped(db) && OnDeviceEvent(db, EventFor(m), stored) == Commit(after)
    ensures LogsShaped(after)
  {
    NeverBareCancelled(m, stored);
    ReportLogs(db, after, EventFor(m), stored);
    LogMoveShaped(db, after, EventFor(m).etype == EvRfidConfirmed);
  }

  // ----- while the cache holds everything ------------------------------------------------------------

  /** The messages that are delivered, each counted once. */
  function MessagesIn(items: seq<Item>): set<EventKey> {
    set i | 0 <= i < |items| && items[i].Deliver? && WellFormed(items[i].m) :: KeyOf(EventFor(items[i].m))
  }

  lemma FewerMessages(items: seq<Item>)
    requires items != []
    ensures MessagesIn(items[..|items| - 1]) <= MessagesIn(items)
    ensures |MessagesIn(items[..|items| - 1])| <= |MessagesIn(items)|
  {
    var early := items[..|items| - 1];
    forall key | key in MessagesIn(early) ensures key in MessagesIn(items) {
      var i :| 0 <= i < |early| && early[i].Deliver? && WellFormed(early[i].m) && key == KeyOf(EventFor(early[i].m));
      assert items[i] == early[i];
    }
    Fewer(MessagesIn(early), MessagesIn(items));
  }

  lemma Fewer(a: set<EventKey>, b: set<EventKey>)
    requires a <= b
    ensures |a| <= |b|
  {
    assert b == a + (b - a);
  }

  /** As long as no more different messages come than the cache holds, every handled one is remembered. */
  lemma {:induction false} RememberedUpToLimit(g: Gate, items: seq<Item>)
    requires Coupled(g.db) && g.seen == map[] && NoOtherReports(items) && |MessagesIn(items)| <= 4096
    ensures Harmless(g, items)
    ensures forall key | Has(Once(g.db, items), key) :: key in Play(g, items).seen
    ensures Play(g, items).seen.Keys <= MessagesIn(items)
  {
    if items != [] {
      var early := items[..|items| - 1];
      FewerMessages(items);
      RememberedUpToLimit(g, early);
      RedeliveryRefinesOnce(g, early);
      assert items[|items| - 1].Elsewhere? ==> !items[|items| - 1].step.Report?;
      RememberOne(g, Play(g, early), items);
    }
  }

  lemma RememberOne(g: Gate, before: Gate, items: seq<Item>)
    requires items != [] && |MessagesIn(items)| <= 4096 && before == Play(g, items[..|items| - 1])
    requires items[|items| - 1].Elsewhere? ==> !items[|items| - 1].step.Report?
    requires var early := items[..|items| - 1];
             && (forall key | Has(Once(g.db, early), key) :: key in before.seen)
             && before.seen.Keys <= MessagesIn(items) && before.db == Exec(g.db, Once(g.db, early))
    ensures RepeatsHarmlessly(before, Once(g.db, items[..|items| - 1]), items[|items| - 1])
    ensures forall key | Has(Once(g.db, items), key) :: key in Play(g, items).seen
    ensures Play(g, items).seen.Keys <= MessagesIn(items)
  {
    var last := items[|items| - 1];
    var steps := Once(g.db, items[..|items| - 1]);
    if last.Deliver? && WellFormed(last.m) {
      var key := KeyOf(EventFor(last.m));
      assert key in MessagesIn(items);
      MarkedAll(before.seen, key, last.now, MessagesIn(items));
    }
    forall key | Has(Once(g.db, items), key) ensures key in Play(g, items).seen {
      if !Has(steps, key) {
        assert last.Deliver?;
      }
    }
  }

  /** Within the limit marking a message forgets no other. */
  lemma MarkedAll(seen: map<EventKey, Time>, key: EventKey, now: Time, all: set<EventKey>)
    requires seen.Keys <= all && key in all && |all| <= CACHE_LIMIT
    ensures Marked(seen, key, now) == seen[key := now]
  {
    assert seen[key := now].Keys <= all;
    Fewer(seen[key := now].Keys, all);
    assert |seen[key := now].Keys| == |seen[key := now]|;
  }

  /** Then the refinement holds for all messages, RFID confirmations included, in runs of any length. */
  lemma ExactlyOnceUpToLimit(g: Gate, items: seq<Item>)
    requires Coupled(g.db) && g.seen == map[] && NoOtherReports(items) && |MessagesIn(items)| <= 4096
    ensures Play(g, items).db == Exec(g.db, Once(g.db, items))
  {
    RememberedUpToLimit(g, items);
    RedeliveryRefinesOnce(g, items);
  }

  // ----- within the hour --------------------------------------------------------------------------------

  /** From position `i` on the clock moves on from `t`, but by no more than an hour. */
  predicate WithinHour(items: seq<Item>, i: nat, t: Time) {
    forall k | i <= k < |items| && items[k].Deliver? :: t <= items[k].now <= t + 3600 * 1000
  }

  /** Delivery `i` succeeds. */
  predicate HandledAt(g: Gate, items: seq<Item>, i: nat)
    requires i < |items|
  {
    && items[i].Deliver?
    && Incoming(Play(g, items[..i]), items[i].m, items[i].now, items[i].up, items[i].stored).0 == Handled
  }

  lemma {:induction false} HandledStaysSeen(g: Gate, items: seq<Item>, i: nat)
    requires i < |items| && HandledAt(g, items, i) && WithinHour(items, i, items[i].now)
    ensures var key := KeyOf(EventFor(items[i].m));
            key in Play(g, items).seen && Play(g, items).seen[key] == items[i].now
    decreases |items|
  {
    var early := items[..|items| - 1];
    var last := items[|items| - 1];
    if i < |early| {
      assert early[..i] == items[..i] && early[i] == items[i];
      assert forall k | i <= k < |early| :: early[k] == items[k];
      HandledStaysSeen(g, early, i);
    } else {
      assert items[..i] == early;
    }
  }

  /**
   * The cache is good for an hour, however many messages come: one that is delivered again
   * within an hour of its handling is recognised, and acknowledged without being handled.
   */
  lemma DuplicateWithinHour(g: Gate, items: seq<Item>, i: nat, j: nat)
    requires i < j < |items| && HandledAt(g, items, i) && WithinHour(items, i, items[i].now)
    requires items[j].Deliver? && WellFormed(items[j].m) && KeyOf(EventFor(items[j].m)) == KeyOf(EventFor(items[i].m))
    ensures var before := Play(g, items[..j]);
            Incoming(before, items[j].m, items[j].now, items[j].up, items[j].stored) == (Duplicate, before)
  {
    assert items[..j][..i] == items[..i];
    HandledStaysSeen(g, items[..j], i);
  }
}
