/**
 * Nothing happens by itself: over every run, each operation was asked for, and each one that has
 * begun or ended was begun or ended by a step of the run that says so, at the time it is stamped with.
 */
module Causes {
  import opened LedgerTypes
  import opened OperationTx
  import opened ReservationTx
  import opened Services
  import opened Steps
  import opened Moves
  import opened StartRules
  import opened EndRows

  /** The request that brought the operation, and whose it is. */
  predicate AskedBy(step: Step, id: Id, op: Operation) {
    match step
    case AskPickup(q) =>
      && q.newOp == id && op.action == Pickup && op.userId == q.user && op.requestId == q.request
      && op.reservationId == q.reservation && op.borrowId == q.newBorrow && op.createdAt == q.now
    case AskReturn(q) =>
      && q.newOp == id && op.action == Return && op.userId == q.user && op.requestId == q.request
      && op.borrowId == q.borrow && op.createdAt == q.now
    case AskDispense(q) =>
      && q.newOp == id && op.action == Pickup && op.userId == q.user && op.requestId == q.request
      && op.reservationId == BLANK && op.borrowId == q.newBorrow && op.deviceId == q.device && op.createdAt == q.now
    case _ => false
  }

  /** The operation's own cabinet reports on it, and the time of the report is the operation's end. */
  predicate ReportedAt(step: Step, id: Id, op: Operation) {
    step.Report? && step.event.op == id && step.event.deviceId == op.deviceId && op.finishedAt == Some(step.event.at)
  }

  /** What makes an operation what it is. */
  predicate Cause(step: Step, id: Id, op: Operation) {
    match op.status
    case OpCreated => false
    case OpSent => false
    case OpAuthorized => AskedBy(step, id, op) && op.finishedAt.None?
    case OpExecuting => step.Begin? && step.op == id && op.sentAt == Some(step.now) && op.finishedAt.None?
    case OpSuccess =>
      ReportedAt(step, id, op) && step.event.etype in {EvSuccess, EvPickupSuccess, EvReturnSuccess}
    case OpFailed =>
      || (ReportedAt(step, id, op) && op.errorCode == step.event.code && op.errorMessage == step.event.message
          && step.event.etype in {EvFailed, EvError, EvPickupFailed, EvReturnFailed, EvDoorOpenTimeout, EvMotorError,
              EvTimeout, EvKeyNotPresent})
      || (step.DispatchFails? && step.op == id && op.finishedAt == Some(step.now)
          && op.errorCode == "DEVICE_COMMAND_FAILED" && op.errorMessage == step.message)
    case OpTimeout =>
      && step.TimeoutOp? && step.op == id && op.finishedAt == Some(step.now)
      && op.errorCode == "OPERATION_TIMEOUT" && op.errorMessage == "device operation timed out"
    case OpCancelled =>
      step.CancelOp? && step.op == id && op.finishedAt == Some(step.now) && op.errorCode == "" && op.errorMessage == ""
  }

  /** All columns but the two that device events fill in on the way. */
  predicate AsItWas(a: Operation, b: Operation) {
    b == a.(ackAt := b.ackAt, scannedRfid := b.scannedRfid)
  }

  /** A step leaves an operation as it was or is the cause of what it is now; its task and birth never change. */
  ghost predicate Told(db: Db, after: Db, step: Step) {
    && (forall o | o in db.ops ::
          o in after.ops && SameTask(db.ops[o], after.ops[o]) && after.ops[o].createdAt == db.ops[o].createdAt)
    && (forall o | o in after.ops ::
          (o in db.ops && AsItWas(db.ops[o], after.ops[o])) || Cause(step, o, after.ops[o]))
    && (forall o | o in after.ops && o !in db.ops :: after.ops[o].status == OpAuthorized)
  }

  lemma SameOps(db: Db, after: Db, step: Step)
    requires after.ops == db.ops
    ensures Told(db, after, step)
  {
  }

  lemma OneNew(db: Db, after: Db, step: Step, id: Id, op: Operation)
    requires after.ops == db.ops[id := op]
    requires id in db.ops ==> SameTask(db.ops[id], op) && op.createdAt == db.ops[id].createdAt
    requires id !in db.ops ==> op.status == OpAuthorized
    requires (id in db.ops && AsItWas(db.ops[id], op)) || Cause(step, id, op)
    ensures Told(db, after, step)
  {
  }

  // ----- starting -----------------------------------------------------------------------------------

  lemma Inserted(db: Db, id: Id, op: Operation, after: Db)
    requires InsertOp(db, id, op) == Commit(after)
    ensures id !in db.ops && after.ops == db.ops[id := op.(status := OpAuthorized)]
  {
  }

  lemma AskPickupTold(db: Db, after: Db, q: PickupRequest)
    requires after == StartPickup(db, q).db
    ensures Told(db, after, AskPickup(q))
  {
    if after != db {
      var (borrow, op) := NewPickup(db, q);
      Inserted(db.(borrows := db.borrows[q.newBorrow := borrow]), q.newOp, op, after);
      OneNew(db, after, AskPickup(q), q.newOp, op);
    }
  }

  lemma AskReturnTold(db: Db, after: Db, q: ReturnRequest)
    requires after == StartReturn(db, q).db
    ensures Told(db, after, AskReturn(q))
  {
    if after != db {
      var op := NewReturn(db, q);
      var taken := db.(borrows := db.borrows[q.borrow := db.borrows[q.borrow].(status := Returning)]);
      Inserted(taken, q.newOp, op, after);
      OneNew(db, after, AskReturn(q), q.newOp, op);
    }
  }

  lemma AskDispenseTold(db: Db, after: Db, q: DispenseRequest)
    requires after == DirectDispense(db, q).db
    ensures Told(db, after, AskDispense(q))
  {
    if after != db {
      var (borrow, op) := NewDispense(db, q);
      Inserted(db.(borrows := db.borrows[q.newBorrow := borrow]), q.newOp, op, after);
      OneNew(db, after, AskDispense(q), q.newOp, op);
    }
  }

  lemma BeginTold(db: Db, after: Db, id: Id, now: Time)
    requires after == Applied(db, BeginExecution(db, id, now)) && NoneEnded(db)
    ensures Told(db, after, Begin(id, now))
  {
    BeginRows(db, id, now);
    if BeginExecution(db, id, now).Commit? {
      OneNew(db, after, Begin(id, now), id, after.ops[id]);
    }
  }

  /** Unfinished operations have no end. */
  ghost predicate NoneEnded(db: Db) {
    forall o | o in db.ops && Unfinished(db.ops[o]) :: db.ops[o].finishedAt.None?
  }

  // ----- reports --------------------------------------------------------------------------------------

  lemma DoneOrNot(db: Db, id: Id)
    requires id in db.ops && !Unfinished(db.ops[id])
    ensures !Active(db, id)
  {
    TwoHalves(db.ops[id].status);
  }

  lemma SuccessTold(db: Db, after: Db, ev: DeviceEvent, stored: bool)
    requires ev.op in db.ops && db.ops[ev.op].deviceId == ev.deviceId && ReportsSuccess(ev.etype)
    requires after == Applied(db, if db.ops[ev.op].action == Pickup then CompletePickup(db, ev.op, ev.at)
                                  else CompleteReturn(db, ev.op, ev.at))
    ensures Told(db, after, Report(ev, stored))
  {
    if after != db {
      assert Unfinished(db.ops[ev.op]) by { TwoHalves(db.ops[ev.op].status); }
      if db.ops[ev.op].action == Pickup {
        PickupRows(db, after, ev.op, ev.at);
      } else {
        ReturnRows(db, after, ev.op, ev.at);
      }
      OneNew(db, after, Report(ev, stored), ev.op, after.ops[ev.op]);
    }
  }

  lemma FailureTold(db: Db, after: Db, step: Step, id: Id, code: string, message: string, now: Time)
    requires after == Applied(db, Fail(db, id, code, message, now))
    requires forall op: Operation | op.status == OpFailed && op.finishedAt == Some(now) && op.errorCode == code
               && op.errorMessage == message && id in db.ops && op.deviceId == db.ops[id].deviceId ::
               Cause(step, id, op)
    ensures Told(db, after, step)
  {
    if after != db {
      assert Unfinished(db.ops[id]) by { TwoHalves(db.ops[id].status); }
      FailRows(db, after, id, code, message, now);
      OneNew(db, after, step, id, after.ops[id]);
    }
  }

  lemma RecordTold(db: Db, after: Db, ev: DeviceEvent, stored: bool)
    requires ev.op in db.ops && after == Applied(db, RecordEvent(db, ev, stored))
    ensures Told(db, after, Report(ev, stored))
  {
    var tagged := Tagged(db, ev, stored);
    AppendRows(tagged, ev.op, EventKey(ev.deviceId, ev.msgId), ev.etype, ev.data, ev.at);
    assert AsItWas(db.ops[ev.op], tagged.ops[ev.op]);
    assert AsItWas(tagged.ops[ev.op], after.ops[ev.op]);
    assert after.ops == db.ops[ev.op := after.ops[ev.op]];
    OneNew(db, after, Report(ev, stored), ev.op, after.ops[ev.op]);
  }

  lemma ReportTold(db: Db, after: Db, ev: DeviceEvent, stored: bool)
    requires after == Applied(db, OnDeviceEvent(db, ev, stored))
    ensures Told(db, after, Report(ev, stored))
  {
    if ev.op !in db.ops || db.ops[ev.op].deviceId != ev.deviceId {
      assert after == db;
    } else if ReportsSuccess(ev.etype) {
      SuccessTold(db, after, ev, stored);
    } else if ReportsFailure(ev.etype) {
      FailureTold(db, after, Report(ev, stored), ev.op, ev.code, ev.message, ev.at);
    } else {
      RecordTold(db, after, ev, stored);
    }
  }

  // ----- other endings ----------------------------------------------------------------------------------

  lemma TimeoutTold(db: Db, after: Db, id: Id, now: Time)
    requires after == Applied(db, Timeout(db, id, now))
    ensures Told(db, after, TimeoutOp(id, now))
  {
    if after != db {
      assert Unfinished(db.ops[id]) by { TwoHalves(db.ops[id].status); }
      TimeoutRows(db, after, id, now);
      OneNew(db, after, TimeoutOp(id, now), id, after.ops[id]);
    }
  }

  lemma CancelTold(db: Db, after: Db, id: Id, now: Time)
    requires after == Applied(db, Cancel(db, id, now))
    ensures Told(db, after, CancelOp(id, now))
  {
    if after != db {
      assert Unfinished(db.ops[id]) by { TwoHalves(db.ops[id].status); }
      CancelRows(db, after, id, now);
      OneNew(db, after, CancelOp(id, now), id, after.ops[id]);
    }
  }

  lemma StepTold(db: Db, after: Db, step: Step)
    requires after == After(db, step) && NoneEnded(db)
    ensures Told(db, after, step)
  {
    match step
    case AskPickup(q) => AskPickupTold(db, after, q);
    case AskReturn(q) => AskReturnTold(db, after, q);
    case AskDispense(q) => AskDispenseTold(db, after, q);
    case Begin(op, now) => BeginTold(db, after, op, now);
    case Report(ev, stored) => ReportTold(db, after, ev, stored);
    case DispatchFails(op, message, now) => FailureTold(db, after, step, op, "DEVICE_COMMAND_FAILED", message, now);
    case TimeoutOp(op, now) => TimeoutTold(db, after, op, now);
    case CancelOp(op, now) => CancelTold(db, after, op, now);
    case _ => OtherTold(db, after, step);
  }

  lemma OtherTold(db: Db, after: Db, step: Step)
    requires IsReservationStep(step) || step.SeeSlot? || step.SetDevice? || step.SetUser?
    requires after == After(db, step)
    ensures Told(db, after, step)
  {
    if IsReservationStep(step) {
      ReservationRows(db, after, step);
    }
    SameOps(db, after, step);
  }

  // ----- runs -----------------------------------------------------------------------------------------------

  /** A step of the run that made the operation what it is, and the step that asked for it. */
  ghost predicate HasCause(steps: seq<Step>, id: Id, op: Operation) {
    && (exists i | 0 <= i < |steps| :: Cause(steps[i], id, op))
    && (exists i | 0 <= i < |steps| :: AskedBy(steps[i], id, op))
  }

  ghost predicate AllCaused(db: Db, steps: seq<Step>) {
    forall o | o in db.ops :: HasCause(steps, o, db.ops[o])
  }

  /** Only what is there changes its cause. */
  lemma CauseStays(steps: seq<Step>, step: Step, id: Id, a: Operation, b: Operation)
    requires HasCause(steps, id, a) && SameTask(a, b) && b.createdAt == a.createdAt
    requires AsItWas(a, b) || Cause(step, id, b)
    ensures HasCause(steps + [step], id, b)
  {
    var more := steps + [step];
    var i :| 0 <= i < |steps| && AskedBy(steps[i], id, a);
    assert more[i] == steps[i] && AskedBy(more[i], id, b);
    if AsItWas(a, b) {
      var j :| 0 <= j < |steps| && Cause(steps[j], id, a);
      assert more[j] == steps[j] && Cause(more[j], id, b);
    } else {
      assert more[|steps|] == step;
    }
  }

  lemma NewHasCause(steps: seq<Step>, step: Step, id: Id, op: Operation)
    requires Cause(step, id, op) && op.status == OpAuthorized
    ensures HasCause(steps + [step], id, op)
  {
    assert (steps + [step])[|steps|] == step;
  }

  lemma CausedEnds(db: Db, steps: seq<Step>)
    requires AllCaused(db, steps)
    ensures NoneEnded(db)
  {
    forall o | o in db.ops && Unfinished(db.ops[o]) ensures db.ops[o].finishedAt.None? {
      assert HasCause(steps, o, db.ops[o]);
    }
  }

  lemma StepCaused(db: Db, after: Db, steps: seq<Step>, step: Step)
    requires AllCaused(db, steps) && Told(db, after, step)
    ensures AllCaused(after, steps + [step])
  {
    forall o | o in after.ops ensures HasCause(steps + [step], o, after.ops[o]) {
      if o in db.ops {
        CauseStays(steps, step, o, db.ops[o], after.ops[o]);
      } else {
        NewHasCause(steps, step, o, after.ops[o]);
      }
    }
  }

  /**
   * Over every run: each operation was asked for by the user it names, and a step of the run made
   * it what it is. What is EXECUTING was begun; what has SUCCEEDED or FAILED was reported so by its
   * own cabinet, with this code and text (or could not be sent); the rest was timed out or
   * cancelled; always at the time stamped.
   */
  lemma {:induction false} EveryOperationHasItsCause(db: Db, steps: seq<Step>)
    requires db.ops == map[]
    ensures AllCaused(Exec(db, steps), steps)
  {
    if steps != [] {
      var early := steps[..|steps| - 1];
      var last := steps[|steps| - 1];
      assert steps == early + [last];
      EveryOperationHasItsCause(db, early);
      NextCaused(Exec(db, early), Exec(db, steps), early, last);
    }
  }

  lemma NextCaused(db: Db, after: Db, steps: seq<Step>, step: Step)
    requires AllCaused(db, steps) && after == After(db, step)
    ensures AllCaused(after, steps + [step])
  {
    CausedEnds(db, steps);
    StepTold(db, after, step);
    StepCaused(db, after, steps, step);
  }
}
