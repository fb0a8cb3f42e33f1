/** The shape of every operation's event log. */
module EventLog {
  import opened LedgerTypes
  import opened OperationTx
  import opened Services
  import opened Steps
  import opened Moves

  predicate IsEnding(etype: EventType) {
    etype in {EvSuccess, EvFailed, EvTimeout, EvCancelled}
  }

  /** The event that names a terminal status. */
  function EventOf(status: OpStatus): EventType
    requires IsTerminal(status)
  {
    match status
    case OpSuccess => EvSuccess
    case OpFailed => EvFailed
    case OpTimeout => EvTimeout
    case OpCancelled => EvCancelled
  }

  /** Sequence numbers 1..n, the two opening events, and at most one ending event: last, naming the status. */
  ghost predicate Shaped(log: seq<Event>, status: OpStatus) {
    && |log| >= 2 && log[0].etype == EvRequestReceived && log[1].etype == EvAuthConfirmed
    && (forall i | 0 <= i < |log| :: log[i].seqNo == i + 1)
    && (forall i | 0 <= i < |log| - 1 :: !IsEnding(log[i].etype))
    && (if IsTerminal(status) then log[|log| - 1].etype == EventOf(status) else !IsEnding(log[|log| - 1].etype))
  }

  ghost predicate LogsShaped(db: Db) {
    && db.logs.Keys <= db.ops.Keys
    && forall o | o in db.ops :: Shaped(LogOf(db, o), db.ops[o].status)
  }

  lemma {:induction false} MaxSeqIsLength(log: seq<Event>)
    requires forall i | 0 <= i < |log| :: log[i].seqNo == i + 1
    ensures MaxSeq(log) == |log|
  {
    if log != [] {
      MaxSeqIsLength(log[..|log| - 1]);
    }
  }

  /** One more event on an active operation's log keeps the shape, if it fits the new status. */
  lemma ExtendShaped(log: seq<Event>, etype: EventType, data: TagData, at: Time, status: OpStatus, next: OpStatus)
    requires Shaped(log, status) && !IsTerminal(status)
    requires if IsTerminal(next) then etype == EventOf(next) else !IsEnding(etype)
    ensures Shaped(WithEvent(log, etype, data, at), next)
  {
    MaxSeqIsLength(log);
  }

  /** `after` logs one more event for operation `id`, whose status may have moved. */
  ghost predicate Logged(db: Db, after: Db, id: Id, etype: EventType, data: TagData, at: Time) {
    && Active(db, id) && after.ops.Keys == db.ops.Keys
    && (forall o | o in db.ops && o != id :: after.ops[o].status == db.ops[o].status)
    && after.logs == db.logs[id := WithEvent(LogOf(db, id), etype, data, at)]
    && if IsTerminal(after.ops[id].status) then etype == EventOf(after.ops[id].status) else !IsEnding(etype)
  }

  /** `after` opens the log of the new active operation `id`. */
  ghost predicate Opened(db: Db, after: Db, id: Id, at: Time) {
    && id !in db.ops && Active(after, id) && after.ops.Keys == db.ops.Keys + {id}
    && (forall o | o in db.ops :: after.ops[o].status == db.ops[o].status)
    && after.logs == db.logs[id :=
         WithEvent(WithEvent(LogOf(db, id), EvRequestReceived, NO_TAG, at), EvAuthConfirmed, NO_TAG, at)]
  }

  ghost predicate Quiet(db: Db, after: Db) {
    && after.ops.Keys == db.ops.Keys && after.logs == db.logs
    && (forall o | o in db.ops :: after.ops[o].status == db.ops[o].status)
  }

  /** The ways a log moves; only a `confirming` step logs an RFID confirmation. */
  ghost predicate LogMoved(db: Db, after: Db, confirming: bool) {
    || Quiet(db, after)
    || (exists id, etype, data, at ::
         Logged(db, after, id, etype, data, at) && (etype == EvRfidConfirmed ==> confirming))
    || (exists id, at :: Opened(db, after, id, at))
  }

  predicate Confirming(step: Step) {
    step.Report? && step.event.etype == EvRfidConfirmed
  }

  lemma LogMoveShaped(db: Db, after: Db, confirming: bool)
    requires LogsShaped(db) && LogMoved(db, after, confirming)
    ensures LogsShaped(after)
  {
    if Quiet(db, after) {
      forall o | o in after.ops ensures Shaped(LogOf(after, o), after.ops[o].status) {
        assert Shaped(LogOf(db, o), db.ops[o].status);
      }
    } else if id, etype, data, at :| Logged(db, after, id, etype, data, at) {
      LoggedShaped(db, after, id, etype, data, at);
    } else {
      var id, at :| Opened(db, after, id, at);
      OpenedShaped(db, after, id, at);
    }
  }

  lemma LoggedShaped(db: Db, after: Db, id: Id, etype: EventType, data: TagData, at: Time)
    requires LogsShaped(db) && Logged(db, after, id, etype, data, at)
    ensures LogsShaped(after)
  {
    forall o | o in after.ops ensures Shaped(LogOf(after, o), after.ops[o].status) {
      assert Shaped(LogOf(db, o), db.ops[o].status);
      if o == id {
        ExtendShaped(LogOf(db, id), etype, data, at, db.ops[id].status, after.ops[id].status);
      } else {
        assert LogOf(after, o) == LogOf(db, o);
      }
    }
  }

  lemma OpeningShaped(at: Time, status: OpStatus)
    requires !IsTerminal(status)
    ensures Shaped(WithEvent(WithEvent([], EvRequestReceived, NO_TAG, at), EvAuthConfirmed, NO_TAG, at), status)
  {
    var one := [Event(1, EvRequestReceived, NO_TAG, at)];
    assert WithEvent([], EvRequestReceived, NO_TAG, at) == one;
    MaxSeqIsLength(one);
    assert WithEvent(one, EvAuthConfirmed, NO_TAG, at) == one + [Event(2, EvAuthConfirmed, NO_TAG, at)];
  }

  lemma OpenedShaped(db: Db, after: Db, id: Id, at: Time)
    requires LogsShaped(db) && Opened(db, after, id, at)
    ensures LogsShaped(after)
  {
    NewLogShaped(db, after, id, at);
    forall o | o in after.ops ensures Shaped(LogOf(after, o), after.ops[o].status) {
      if o != id {
        assert Shaped(LogOf(db, o), db.ops[o].status);
        assert LogOf(after, o) == LogOf(db, o);
      }
    }
  }

  lemma NewLogShaped(db: Db, after: Db, id: Id, at: Time)
    requires db.logs.Keys <= db.ops.Keys && Opened(db, after, id, at)
    ensures Shaped(LogOf(after, id), after.ops[id].status)
  {
    assert LogOf(db, id) == [];
    OpeningShaped(at, after.ops[id].status);
  }

  // ----- every step moves the logs in one of these ways ------------------------------------

  lemma EndLogs(db: Db, rows: Db, after: Db, id: Id, status: OpStatus, code: string, message: string, event: EventType,
      now: Time)
    requires Active(db, id) && IsTerminal(status) && event == EventOf(status)
    requires rows.ops.Keys == db.ops.Keys && rows.logs == db.logs
    requires forall o | o in db.ops && o != id :: rows.ops[o] == db.ops[o]
    requires after == EndOp(rows, id, status, code, message, event, now)
    ensures Logged(db, after, id, event, NO_TAG, now)
  {
  }

  lemma AbandonLogs(db: Db, after: Db, id: Id, how: Ending, now: Time)
    requires after == Applied(db, Abandon(db, id, how, now))
    ensures LogMoved(db, after, false)
  {
    if Active(db, id) {
      var op := db.ops[id];
      var rows := db.(borrows := after.borrows);
      EndLogs(db, rows, after, id, how.Status(), how.Code(), how.Message(), how.Event(), now);
    } else {
      assert after == db;
    }
  }

  lemma PickupLogs(db: Db, after: Db, id: Id, now: Time)
    requires after == Applied(db, CompletePickup(db, id, now))
    ensures LogMoved(db, after, false)
  {
    if Active(db, id) && CompletePickup(db, id, now).Commit? {
      EndLogs(db, PickedUp(db, db.ops[id], now), after, id, OpSuccess, "", "", EvSuccess, now);
    } else {
      assert after == db;
    }
  }

  lemma ReturnLogs(db: Db, after: Db, id: Id, now: Time)
    requires after == Applied(db, CompleteReturn(db, id, now))
    ensures LogMoved(db, after, false)
  {
    if Active(db, id) && CompleteReturn(db, id, now).Commit? {
      var tag := ScannedTag(db.ops[id], LogOf(db, id));
      var back := GivenBack(db, db.ops[id], tag, now);
      var rows := back.(ops := back.ops[id := db.ops[id].(scannedRfid := tag)]);
      EndLogs(db, rows, after, id, OpSuccess, "", "", EvSuccess, now);
    } else {
      assert after == db;
    }
  }

  lemma RecordLogs(db: Db, after: Db, ev: DeviceEvent, stored: bool)
    requires after == Applied(db, RecordEvent(db, ev, stored)) && !IsEnding(ev.etype)
    ensures LogMoved(db, after, ev.etype == EvRfidConfirmed)
  {
    var tagged := Tagged(db, ev, stored);
    TaggingIsQuiet(db, ev, stored);
    if Active(db, ev.op) && EventKey(ev.deviceId, ev.msgId) !in db.eventKeys {
      AppendLogs(tagged, after, ev.op, EventKey(ev.deviceId, ev.msgId), ev.etype, ev.data, ev.at);
      assert Logged(db, after, ev.op, ev.etype, ev.data, ev.at);
    } else {
      assert after == tagged || after == db;
    }
  }

  lemma TaggingIsQuiet(db: Db, ev: DeviceEvent, stored: bool)
    ensures Quiet(db, Tagged(db, ev, stored))
  {
  }

  lemma AppendLogs(db: Db, after: Db, id: Id, key: EventKey, etype: EventType, data: TagData, at: Time)
    requires Active(db, id) && key !in db.eventKeys && !IsEnding(etype)
    requires AppendEventIfActive(db, id, key, etype, data, at) == Commit(after)
    ensures Logged(db, after, id, etype, data, at)
  {
  }

  lemma InsertLogs(db: Db, rows: Db, after: Db, id: Id, op: Operation)
    requires rows.ops == db.ops && rows.logs == db.logs && InsertOp(rows, id, op) == Commit(after)
    ensures LogMoved(db, after, false)
  {
    InsertOpens(db, rows, after, id, op);
  }

  lemma InsertOpens(db: Db, rows: Db, after: Db, id: Id, op: Operation)
    requires rows.ops == db.ops && rows.logs == db.logs && InsertOp(rows, id, op) == Commit(after)
    ensures Opened(db, after, id, op.createdAt)
  {
    assert after.logs[id]
           == WithEvent(WithEvent(LogOf(db, id), EvRequestReceived, NO_TAG, op.createdAt), EvAuthConfirmed, NO_TAG,
               op.createdAt);
  }

  lemma BeginLogs(db: Db, after: Db, id: Id, now: Time)
    requires after == Applied(db, BeginExecution(db, id, now))
    ensures LogMoved(db, after, false)
  {
    if BeginExecution(db, id, now).Commit? {
      assert Logged(db, after, id, EvCommandDispatching, NO_TAG, now);
    } else {
      assert after == db;
    }
  }

  /** Device events as the gateway classifies them: a device's CANCELLED arrives as ABORT_ACK. */
  predicate FromGateway(step: Step) {
    step.Report? ==> step.event.etype != EvCancelled
  }

  lemma ReportLogs(db: Db, after: Db, ev: DeviceEvent, stored: bool)
    requires after == Applied(db, OnDeviceEvent(db, ev, stored)) && ev.etype != EvCancelled
    ensures LogMoved(db, after, ev.etype == EvRfidConfirmed)
  {
    if ev.op !in db.ops || db.ops[ev.op].deviceId != ev.deviceId {
      assert after == db;
    } else if ReportsSuccess(ev.etype) {
      if db.ops[ev.op].action == Pickup {
        PickupLogs(db, after, ev.op, ev.at);
      } else {
        ReturnLogs(db, after, ev.op, ev.at);
      }
    } else if ReportsFailure(ev.etype) {
      AbandonLogs(db, after, ev.op, Fails(ev.code, ev.message), ev.at);
    } else {
      RecordLogs(db, after, ev, stored);
    }
  }

  lemma AskPickupLogs(db: Db, after: Db, q: PickupRequest)
    requires after == StartPickup(db, q).db
    ensures LogMoved(db, after, false)
  {
    if after != db {
      InsertLogs(db, db.(borrows := after.borrows), after, q.newOp, NewPickup(db, q).1);
    }
  }

  lemma AskReturnLogs(db: Db, after: Db, q: ReturnRequest)
    requires after == StartReturn(db, q).db
    ensures LogMoved(db, after, false)
  {
    if after != db {
      InsertLogs(db, db.(borrows := after.borrows), after, q.newOp, NewReturn(db, q));
    }
  }

  lemma AskDispenseLogs(db: Db, after: Db, q: DispenseRequest)
    requires after == DirectDispense(db, q).db
    ensures LogMoved(db, after, false)
  {
    if after != db {
      InsertLogs(db, db.(borrows := after.borrows), after, q.newOp, NewDispense(db, q).1);
    }
  }

  lemma StepLogs(db: Db, after: Db, step: Step)
    requires FromGateway(step) && after == After(db, step)
    ensures LogMoved(db, after, Confirming(step))
  {
    match step
    case AskPickup(q) => AskPickupLogs(db, after, q);
    case AskReturn(q) => AskReturnLogs(db, after, q);
    case AskDispense(q) => AskDispenseLogs(db, after, q);
    case Begin(op, now) => BeginLogs(db, after, op, now);
    case Report(ev, stored) => ReportLogs(db, after, ev, stored);
    case DispatchFails(op, message, now) => AbandonLogs(db, after, op, Fails("DEVICE_COMMAND_FAILED", message), now);
    case TimeoutOp(op, now) => AbandonLogs(db, after, op, TimesOut, now);
    case CancelOp(op, now) => AbandonLogs(db, after, op, IsCancelled, now);
    case _ => OtherLogs(db, after, step);
  }

  lemma OtherLogs(db: Db, after: Db, step: Step)
    requires step.SetDevice? || step.SetUser? || step.SeeSlot? || IsReservationStep(step)
    requires after == After(db, step)
    ensures Quiet(db, after)
  {
    if IsReservationStep(step) {
      ReservationRows(db, after, step);
    }
  }

  /** Every log of every reachable ledger is shaped. */
  lemma {:induction false} RunShaped(db: Db, steps: seq<Step>)
    requires LogsShaped(db) && forall i | 0 <= i < |steps| :: FromGateway(steps[i])
    ensures LogsShaped(Exec(db, steps))
  {
    if steps != [] {
      var before := steps[..|steps| - 1];
      RunShaped(db, before);
      StepShaped(Exec(db, before), Exec(db, steps), steps[|steps| - 1]);
    }
  }

  lemma StepShaped(db: Db, after: Db, step: Step)
    requires after == After(db, step) && FromGateway(step) && LogsShaped(db)
    ensures LogsShaped(after)
  {
    StepLogs(db, after, step);
    LogMoveShaped(db, after, Confirming(step));
  }

  /** How many ending events a log holds. */
  function EndingCount(log: seq<Event>): nat {
    if log == [] then 0
    else EndingCount(log[..|log| - 1]) + if IsEnding(log[|log| - 1].etype) then 1 else 0
  }

  /** A shaped log holds exactly one ending event if the operation is terminal, else none. */
  lemma ShapedEndings(log: seq<Event>, status: OpStatus)
    requires Shaped(log, status)
    ensures EndingCount(log) == if IsTerminal(status) then 1 else 0
  {
    NoEndings(log[..|log| - 1]);
  }

  lemma {:induction false} NoEndings(log: seq<Event>)
    requires forall i | 0 <= i < |log| :: !IsEnding(log[i].etype)
    ensures EndingCount(log) == 0
  {
    if log != [] {
      NoEndings(log[..|log| - 1]);
    }
  }

  /**
   * Without the gateway's renaming the shape would be lost exactly when a reported
   * CANCELLED is news: from the right cabinet, on an active operation, not yet stored.
   */
  lemma BareCancelledBreaksShape(db: Db, after: Db, ev: DeviceEvent, stored: bool)
    requires LogsShaped(db) && ev.etype == EvCancelled && after == Applied(db, OnDeviceEvent(db, ev, stored))
    ensures LogsShaped(after)
            <==> !(Active(db, ev.op) && db.ops[ev.op].deviceId == ev.deviceId
                   && EventKey(ev.deviceId, ev.msgId) !in db.eventKeys)
  {
    if ev.op in db.ops && db.ops[ev.op].deviceId == ev.deviceId {
      assert after == Applied(db, RecordEvent(db, ev, stored));
      if Active(db, ev.op) && EventKey(ev.deviceId, ev.msgId) !in db.eventKeys {
        CancelledIsLogged(db, after, ev, stored);
        CancelledSpoils(after, ev.op, LogOf(db, ev.op), ev.data, ev.at);
      } else {
        CancelledIsOldNews(db, after, ev, stored);
      }
    } else {
      assert after == db;
    }
  }

  lemma CancelledSpoils(after: Db, id: Id, log: seq<Event>, data: TagData, at: Time)
    requires Active(after, id) && LogOf(after, id) == WithEvent(log, EvCancelled, data, at)
    ensures !LogsShaped(after)
  {
    assert LogOf(after, id)[|log|].etype == EvCancelled;
    assert !Shaped(LogOf(after, id), after.ops[id].status);
  }

  lemma CancelledIsLogged(db: Db, after: Db, ev: DeviceEvent, stored: bool)
    requires ev.etype == EvCancelled && after == Applied(db, RecordEvent(db, ev, stored))
    requires Active(db, ev.op) && EventKey(ev.deviceId, ev.msgId) !in db.eventKeys
    ensures Active(after, ev.op) && LogOf(after, ev.op) == WithEvent(LogOf(db, ev.op), EvCancelled, ev.data, ev.at)
  {
    assert Tagged(db, ev, stored) == db;
  }

  lemma CancelledIsOldNews(db: Db, after: Db, ev: DeviceEvent, stored: bool)
    requires ev.etype == EvCancelled && after == Applied(db, RecordEvent(db, ev, stored))
    requires !Active(db, ev.op) || EventKey(ev.deviceId, ev.msgId) in db.eventKeys
    ensures after == db
  {
    assert Tagged(db, ev, stored) == db;
  }
}
