/**
 * From a message of the cabinet to the rows: what a delivered report puts in which column, and
 * which messages count as failures, successes and confirmations.
 */
module Reporting {
  import opened LedgerTypes
  import opened OperationTx
  import opened Steps
  import opened StartRules
  import opened EndRows
  import opened Redelivery
  import opened CabinetLog

  // ----- reading a message -----------------------------------------------------------------------------

  predicate Addressed(m: Message) {
    m.deviceId != BLANK && m.topicDevice == m.deviceId && m.msgId != BLANK && m.op != BLANK
  }

  predicate SaysFailed(m: Message) {
    m.status == Some(EvFailed) || m.status == Some(EvError)
  }

  /** A scan result, on the topic of the card reader. */
  predicate TellsMatch(m: Message) {
    m.rfidTopic && m.isMatch.Some?
  }

  /** The stage, or without one the status; a bare success that answers a command acknowledges it. */
  predicate Says(m: Message, etype: EventType) {
    && !SaysFailed(m) && !TellsMatch(m)
    && if m.stage.Some? then m.stage == Some(etype)
       else if m.replyMsgId != BLANK && m.status == Some(EvSuccess) then etype == EvCommandAck
       else m.status == Some(etype)
  }

  predicate SaysFailure(m: Message) {
    || SaysFailed(m)
    || (TellsMatch(m) && m.isMatch == Some(false))
    || Says(m, EvFailed) || Says(m, EvError) || Says(m, EvPickupFailed) || Says(m, EvReturnFailed)
    || Says(m, EvDoorOpenTimeout) || Says(m, EvMotorError) || Says(m, EvTimeout) || Says(m, EvKeyNotPresent)
  }

  predicate SaysSuccess(m: Message) {
    Says(m, EvSuccess) || Says(m, EvPickupSuccess) || Says(m, EvReturnSuccess)
  }

  predicate SaysConfirmed(m: Message) {
    (!SaysFailed(m) && TellsMatch(m) && m.isMatch == Some(true)) || Says(m, EvRfidConfirmed)
  }

  /** Aborted and cancelled are what the cabinet calls an abort it has carried out. */
  predicate SaysAborted(m: Message) {
    Says(m, EvAbortAck) || Says(m, EvAborted) || Says(m, EvCancelled)
  }

  /** The name a report that ends nothing is logged under. */
  predicate LoggedAs(m: Message, etype: EventType) {
    if SaysConfirmed(m) then etype == EvRfidConfirmed
    else if SaysAborted(m) then etype == EvAbortAck
    else Says(m, etype)
  }

  lemma MessageKinds(m: Message)
    requires WellFormed(m)
    ensures Addressed(m)
    ensures ReportsFailure(EventFor(m).etype) <==> SaysFailure(m)
    ensures ReportsSuccess(EventFor(m).etype) <==> SaysSuccess(m)
    ensures EventFor(m).etype == EvRfidConfirmed <==> SaysConfirmed(m)
    ensures EventFor(m).etype == EvAbortAck <==> SaysAborted(m)
    ensures EventFor(m).etype == EvAbortFailed <==> Says(m, EvAbortFailed)
  {
    var word := RawType(m).value;
    if !SaysFailed(m) && !TellsMatch(m) {
      assert Says(m, word);
    }
  }

  /** A message is taken for a report iff it is addressed, by its own cabinet, and says something. */
  lemma WellFormedIff(m: Message)
    ensures WellFormed(m) <==>
            Addressed(m) && (SaysFailed(m) || TellsMatch(m) || m.stage.Some? || m.status.Some?)
  {
  }

  // ----- delivering it -------------------------------------------------------------------------------------

  /** It is the first time, and it comes from the cabinet of an unfinished operation. */
  predicate Comes(g: Gate, m: Message) {
    && Addressed(m) && EventKey(m.deviceId, m.msgId) !in g.seen
    && m.op in g.db.ops && g.db.ops[m.op].deviceId == m.deviceId && Unfinished(g.db.ops[m.op])
  }

  function Delivered(g: Gate, m: Message, now: Time, stored: bool): Gate {
    Play(g, [Deliver(m, now, true, stored)])
  }

  /** The operation has FAILED with the code, text and time of the message, and its record tells the text. */
  predicate FailedAs(db: Db, after: Db, m: Message)
    requires m.op in db.ops
  {
    var op := db.ops[m.op];
    && m.op in after.ops
    && EndedAs(op, after.ops[m.op], OpFailed, m.code, m.message, m.at) && after.ops[m.op].scannedRfid == op.scannedRfid
    && OnlyThis(db, after, m.op, after.ops[m.op]) && EndRows.Logged(db, after, m.op, EvFailed, NO_TAG, m.at)
    && BorrowLeft(db, after, op, if op.action == Pickup then Exception else Borrowed, m.message)
    && NothingMoved(db, after)
  }

  /** The report of the operation's own cabinet is on its row, in whichever way it says. */
  ghost predicate ArrivedAs(db: Db, after: Db, m: Message, stored: bool)
    requires m.op in db.ops
  {
    && db.ops[m.op].deviceId == m.deviceId
    && if SaysFailure(m) then FailedAs(db, after, m)
       else if SaysSuccess(m) then
         m.op in after.ops && EndedAs(db.ops[m.op], after.ops[m.op], OpSuccess, "", "", m.at)
       else RecordedAs(db, after, m, stored)
  }

  lemma Handles(db: Db, after: Db, m: Message, stored: bool)
    requires WellFormed(m) && OnDeviceEvent(db, EventFor(m), stored) == Commit(after)
    requires m.op in db.ops && Unfinished(db.ops[m.op])
    ensures ArrivedAs(db, after, m, stored)
  {
    MessageKinds(m);
    var ev := EventFor(m);
    if SaysFailure(m) {
      FailRows(db, after, m.op, m.code, m.message, m.at);
    } else if SaysSuccess(m) {
      if db.ops[m.op].action == Pickup {
        PickupRows(db, after, m.op, m.at);
      } else {
        ReturnRows(db, after, m.op, m.at);
      }
    } else {
      Records(db, after, m, stored);
    }
  }

  /** The tag that is stored: the scanned one, or else the card's. */
  predicate StoresTag(before: Operation, after: Operation, m: Message, stored: bool) {
    after.scannedRfid == if SaysConfirmed(m) && stored && (m.data.scannedRfid != "" || m.data.uid != "")
                         then (if m.data.scannedRfid != "" then m.data.scannedRfid else m.data.uid)
                         else before.scannedRfid
  }

  /**
   * The report is in the log with its data and time; a confirmation has stored its tag, a first
   * acknowledgement its time.
   */
  ghost predicate RecordedAs(db: Db, after: Db, m: Message, stored: bool)
    requires m.op in db.ops
  {
    && m.op in after.ops && after.ops == db.ops[m.op := after.ops[m.op]]
    && var (was, op) := (db.ops[m.op], after.ops[m.op]);
    && op == was.(scannedRfid := op.scannedRfid, ackAt := op.ackAt) && StoresTag(was, op, m, stored)
    && if EventKey(m.deviceId, m.msgId) in db.eventKeys then after == db.(ops := after.ops) && op.ackAt == was.ackAt
       else
         && op.ackAt == (if was.ackAt.None? && (Says(m, EvAck) || Says(m, EvReceived) || Says(m, EvCommandAck))
                         then Some(m.at) else was.ackAt)
         && (exists etype :: LoggedAs(m, etype) && EndRows.Logged(db, after, m.op, etype, m.data, m.at))
         && after.eventKeys == db.eventKeys + {EventKey(m.deviceId, m.msgId)}
  }

  lemma AcknowledgementKinds(m: Message)
    requires WellFormed(m)
    ensures EventFor(m).etype in {EvAck, EvReceived, EvCommandAck}
            <==> Says(m, EvAck) || Says(m, EvReceived) || Says(m, EvCommandAck)
    ensures !SaysFailure(m) ==> LoggedAs(m, EventFor(m).etype)
  {
    if !SaysFailed(m) && !TellsMatch(m) {
      assert Says(m, RawType(m).value);
    }
  }

  lemma TagsAs(db: Db, m: Message, stored: bool)
    requires WellFormed(m) && m.op in db.ops
    ensures var tagged := Tagged(db, EventFor(m), stored);
            && tagged == db.(ops := tagged.ops) && m.op in tagged.ops && tagged.ops == db.ops[m.op := tagged.ops[m.op]]
            && tagged.ops[m.op] == db.ops[m.op].(scannedRfid := tagged.ops[m.op].scannedRfid)
            && StoresTag(db.ops[m.op], tagged.ops[m.op], m, stored)
  {
    TagIs(m);
    TagsRow(db, EventFor(m), stored);
  }

  lemma TagIs(m: Message)
    requires WellFormed(m)
    ensures ConfirmedTag(EventFor(m)) == if !SaysConfirmed(m) then ""
                                         else if m.data.scannedRfid != "" then m.data.scannedRfid else m.data.uid
  {
    MessageKinds(m);
  }

  lemma TagsRow(db: Db, ev: DeviceEvent, stored: bool)
    requires ev.op in db.ops
    ensures var tagged := Tagged(db, ev, stored);
            && tagged == db.(ops := tagged.ops) && ev.op in tagged.ops
            && tagged.ops == db.ops[ev.op := tagged.ops[ev.op]]
            && tagged.ops[ev.op] == db.ops[ev.op].(scannedRfid :=
                 if ConfirmedTag(ev) != "" && stored then ConfirmedTag(ev) else db.ops[ev.op].scannedRfid)
  {
    if ConfirmedTag(ev) == "" || !stored {
      assert db.ops[ev.op := db.ops[ev.op]] == db.ops;
    }
  }

  lemma Records(db: Db, after: Db, m: Message, stored: bool)
    requires WellFormed(m) && !SaysFailure(m) && m.op in db.ops && Unfinished(db.ops[m.op])
    requires RecordEvent(db, EventFor(m), stored) == Commit(after)
    ensures RecordedAs(db, after, m, stored)
  {
    var ev := EventFor(m);
    var tagged := Tagged(db, ev, stored);
    TagsAs(db, m, stored);
    AcknowledgementKinds(m);
    AppendRows(tagged, m.op, EventKey(m.deviceId, m.msgId), ev.etype, m.data, m.at);
    if EventKey(m.deviceId, m.msgId) !in db.eventKeys {
      Appended(db, tagged, after, m, ev.etype);
    }
  }

  lemma Appended(db: Db, tagged: Db, after: Db, m: Message, etype: EventType)
    requires tagged == db.(ops := tagged.ops) && EndRows.Logged(tagged, after, m.op, etype, m.data, m.at)
    requires LoggedAs(m, etype)
    ensures exists etype :: LoggedAs(m, etype) && EndRows.Logged(db, after, m.op, etype, m.data, m.at)
  {
    assert EndRows.Logged(db, after, m.op, etype, m.data, m.at);
  }

  lemma OneDelivery(g: Gate, m: Message, now: Time, stored: bool)
    ensures Delivered(g, m, now, stored) == Incoming(g, m, now, true, stored).1
  {
    var items := [Deliver(m, now, true, stored)];
    assert items[..|items| - 1] == [] && Play(g, []) == g;
  }

  /**
   * A message that says failure, delivered for the first time while its operation is unfinished:
   * the operation FAILED with the message's code, text and time, its record tells the text, a
   * pickup's record is an EXCEPTION and a return's BORROWED again; and it is remembered from now on.
   */
  lemma FailureArrives(g: Gate, m: Message, now: Time, stored: bool)
    requires Comes(g, m) && SaysFailure(m)
    ensures FailedAs(g.db, Delivered(g, m, now, stored).db, m)
    ensures EventKey(m.deviceId, m.msgId) in Delivered(g, m, now, stored).seen
  {
    Arrives(g, m, now, stored);
    TwoHalves(g.db.ops[m.op].status);
    Handles(g.db, Delivered(g, m, now, stored).db, m, stored);
  }

  /** Whatever is not a success is handled at once. */
  lemma Arrives(g: Gate, m: Message, now: Time, stored: bool)
    requires Comes(g, m) && (SaysFailure(m) || (WellFormed(m) && !SaysSuccess(m)))
    ensures WellFormed(m) && OnDeviceEvent(g.db, EventFor(m), stored) == Commit(Delivered(g, m, now, stored).db)
    ensures EventKey(m.deviceId, m.msgId) in Delivered(g, m, now, stored).seen
  {
    OneDelivery(g, m, now, stored);
    WellFormedIff(m);
    MessageKinds(m);
    var ev := EventFor(m);
    Settles(g.db, ev, stored);
    JustMarked(g.seen, KeyOf(ev), now);
  }

  lemma JustMarked(seen: map<EventKey, Time>, key: EventKey, now: Time)
    ensures key in Marked(seen, key, now)
  {
  }

  lemma Settles(db: Db, ev: DeviceEvent, stored: bool)
    requires ev.op in db.ops && db.ops[ev.op].deviceId == ev.deviceId && !ReportsSuccess(ev.etype)
    ensures OnDeviceEvent(db, ev, stored).Commit?
  {
    if !ReportsFailure(ev.etype) {
      AppendRows(Tagged(db, ev, stored), ev.op, EventKey(ev.deviceId, ev.msgId), ev.etype, ev.data, ev.at);
    }
  }

  /** A message that says success ends the operation at the message's time, or it is refused and comes again. */
  lemma SuccessArrives(g: Gate, m: Message, now: Time, stored: bool)
    requires Comes(g, m) && SaysSuccess(m)
    ensures var after := Delivered(g, m, now, stored);
            if after.db == g.db then after == g
            else m.op in after.db.ops && EndedAs(g.db.ops[m.op], after.db.ops[m.op], OpSuccess, "", "", m.at)
                 && EventKey(m.deviceId, m.msgId) in after.seen
  {
    OneDelivery(g, m, now, stored);
    WellFormedIff(m);
    MessageKinds(m);
    var after := Delivered(g, m, now, stored);
    if OnDeviceEvent(g.db, EventFor(m), stored).Commit? {
      JustMarked(g.seen, KeyOf(EventFor(m)), now);
      Handles(g.db, after.db, m, stored);
      assert after.db.ops[m.op].status != g.db.ops[m.op].status;
    }
  }

  /** Any other message is recorded. */
  lemma OtherArrives(g: Gate, m: Message, now: Time, stored: bool)
    requires Comes(g, m) && WellFormed(m) && !SaysFailure(m) && !SaysSuccess(m)
    ensures RecordedAs(g.db, Delivered(g, m, now, stored).db, m, stored)
    ensures EventKey(m.deviceId, m.msgId) in Delivered(g, m, now, stored).seen
  {
    Arrives(g, m, now, stored);
    Handles(g.db, Delivered(g, m, now, stored).db, m, stored);
  }

  // ----- from the worker to the rows ---------------------------------------------------------------------

  /** The code each failed outcome is reported with. */
  function CodeOf(out: Out): string {
    match out
    case KeyNotPresent => "SLOT_EMPTY"
    case MotorFailed => "MOTOR_POSITION_FAILED"
    case NotTaken => "KEY_NOT_TAKEN_TIMEOUT"
    case DoorLeftOpen => "DOOR_NOT_CLOSED"
    case _ => ""
  }

  /**
   * A failed outcome the worker publishes is on the operation's row, with its code and time, once
   * the message arrives.
   */
  lemma OutcomeArrives(g: Gate, out: Out, cabinet: Id, msg: Id, reply: Id, op: Id, at: Time, now: Time, stored: bool)
    requires out in {KeyNotPresent, MotorFailed, NotTaken, DoorLeftOpen} || (out.RfidScan? && !out.matched)
    requires cabinet != BLANK && msg != BLANK && op != BLANK && EventKey(cabinet, msg) !in g.seen
    requires op in g.db.ops && g.db.ops[op].deviceId == cabinet && Unfinished(g.db.ops[op])
    ensures var after := Delivered(g, Wire(out, cabinet, msg, reply, op, at), now, stored).db;
            && op in after.ops && after.ops[op].status == OpFailed
            && after.ops[op].errorCode == CodeOf(out) && after.ops[op].finishedAt == Some(at)
  {
    FailureArrives(g, Wire(out, cabinet, msg, reply, op, at), now, stored);
  }

  /** And the tag of a match is on the operation's row. */
  lemma MatchArrives(g: Gate, uid: string, cabinet: Id, msg: Id, reply: Id, op: Id, at: Time, now: Time)
    requires cabinet != BLANK && msg != BLANK && op != BLANK && uid != "" && EventKey(cabinet, msg) !in g.seen
    requires op in g.db.ops && g.db.ops[op].deviceId == cabinet && Unfinished(g.db.ops[op])
    ensures var after := Delivered(g, Wire(RfidScan(true, uid), cabinet, msg, reply, op, at), now, true).db;
            op in after.ops && after.ops[op].scannedRfid == uid && after.ops[op].status == g.db.ops[op].status
  {
    OtherArrives(g, Wire(RfidScan(true, uid), cabinet, msg, reply, op, at), now, true);
  }
}
