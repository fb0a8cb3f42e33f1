/**
 * What a borrow record says, over every run: whose it is, when the key went out and when it came
 * back, and that the operations on it, its reservation and itself agree on all of that.
 */
module Loans {
  import opened LedgerTypes
  import opened OperationTx
  import opened ReservationTx
  import opened Services
  import opened Steps
  import opened Coupling
  import opened Moves
  import opened CouplingRuns
  import opened StartRules
  import opened EndRows
  import opened Causes
  import R = ReserveRules

  // ----- the columns that never change --------------------------------------------------------------

  predicate SameTerms(a: Borrow, b: Borrow) {
    && a.reservationId == b.reservationId && a.userId == b.userId && a.keyId == b.keyId && a.deviceId == b.deviceId
    && a.slotId == b.slotId && a.expectedReturnAt == b.expectedReturnAt && a.createdAt == b.createdAt
  }

  predicate SameReservation(a: Reservation, b: Reservation) {
    a.userId == b.userId && SameBooking(a, b)
  }

  ghost predicate Fixed(db: Db, after: Db) {
    && (forall b | b in db.borrows :: b in after.borrows && SameTerms(db.borrows[b], after.borrows[b]))
    && (forall r | r in db.reservations ::
          r in after.reservations && SameReservation(db.reservations[r], after.reservations[r]))
  }

  /** Besides the operation that starts or ends, and its record, nothing is touched. */
  ghost predicate OneLoan(db: Db, after: Db, id: Id, b: Id) {
    && id in after.ops && after.ops == db.ops[id := after.ops[id]] && (id in db.ops ==> Unfinished(db.ops[id]))
    && b in after.borrows && after.borrows == db.borrows[b := after.borrows[b]] && after.ops[id].borrowId == b
  }

  // ----- when ---------------------------------------------------------------------------------------------

  /** A successful operation on the record that ended at this time. */
  predicate SucceededOn(db: Db, o: Id, action: Action, b: Id, at: Option<Time>) {
    && o in db.ops && db.ops[o].action == action && db.ops[o].status == OpSuccess && db.ops[o].borrowId == b
    && db.ops[o].finishedAt == at
  }

  /** The record is stamped iff it has got that far, and each stamp is the end of a successful operation on it. */
  ghost predicate LoanRow(db: Db, b: Id)
    requires b in db.borrows
  {
    var row := db.borrows[b];
    && (row.borrowedAt.Some? <==> row.status in {Borrowed, Returning, Completed})
    && (row.returnedAt.Some? <==> row.status == Completed)
    && (row.borrowedAt.Some? ==> exists o :: SucceededOn(db, o, Pickup, b, row.borrowedAt))
    && (row.returnedAt.Some? ==> exists o :: SucceededOn(db, o, Return, b, row.returnedAt))
  }

  /** And each successful operation has left its stamp. */
  predicate SuccessRow(db: Db, o: Id)
    requires o in db.ops
  {
    var op := db.ops[o];
    op.status == OpSuccess ==>
      && op.finishedAt.Some? && op.borrowId in db.borrows
      && op.finishedAt == match op.action
                          case Pickup => db.borrows[op.borrowId].borrowedAt
                          case Return => db.borrows[op.borrowId].returnedAt
  }

  ghost predicate LoansTold(db: Db) {
    && (forall b | b in db.borrows :: LoanRow(db, b))
    && (forall o | o in db.ops :: SuccessRow(db, o))
  }

  lemma OthersStay(db: Db, after: Db, id: Id, b: Id)
    requires LoansTold(db) && OneLoan(db, after, id, b)
    ensures forall c | c in db.borrows && c != b :: LoanRow(after, c)
    ensures forall o | o in db.ops && o != id && db.ops[o].borrowId != b :: SuccessRow(after, o)
    ensures forall o, action, at | SucceededOn(db, o, action, b, at) :: SucceededOn(after, o, action, b, at)
  {
    forall c | c in db.borrows && c != b ensures LoanRow(after, c) {
      var row := db.borrows[c];
      assert LoanRow(db, c) && after.borrows[c] == row;
      if row.borrowedAt.Some? {
        var o :| SucceededOn(db, o, Pickup, c, row.borrowedAt);
        assert SucceededOn(after, o, Pickup, c, row.borrowedAt);
      }
      if row.returnedAt.Some? {
        var o :| SucceededOn(db, o, Return, c, row.returnedAt);
        assert SucceededOn(after, o, Return, c, row.returnedAt);
      }
    }
    forall o | o in db.ops && o != id && db.ops[o].borrowId != b ensures SuccessRow(after, o) {
      assert SuccessRow(db, o);
    }
  }

  /** A record whose stamps stay as they are while its operation starts, or ends without success. */
  lemma StampsStay(db: Db, after: Db, id: Id, b: Id)
    requires LoansTold(db) && OneLoan(db, after, id, b) && after.ops[id].status != OpSuccess
    requires after.borrows[b].borrowedAt == (if b in db.borrows then db.borrows[b].borrowedAt else None)
    requires after.borrows[b].returnedAt == (if b in db.borrows then db.borrows[b].returnedAt else None)
    requires after.borrows[b].borrowedAt.Some? <==> after.borrows[b].status in {Borrowed, Returning, Completed}
    requires after.borrows[b].returnedAt.Some? <==> after.borrows[b].status == Completed
    ensures LoansTold(after)
  {
    OthersStay(db, after, id, b);
    assert b in db.borrows ==> LoanRow(db, b);
    forall o | o in after.ops ensures SuccessRow(after, o) {
      if o != id {
        assert SuccessRow(db, o);
      }
    }
  }

  /** An unfinished operation and its record, which is at work. */
  ghost predicate Holding(db: Db, id: Id) {
    && id in db.ops && Unfinished(db.ops[id])
    && var op := db.ops[id];
    && op.borrowId != BLANK && op.borrowId in db.borrows
    && db.borrows[op.borrowId].status == (if op.action == Pickup then Borrowing else Returning)
  }

  lemma ActiveHolds(db: Db, id: Id)
    requires Coupled(db) && Active(db, id)
    ensures Holding(db, id)
  {
    TwoHalves(db.ops[id].status);
    assert Linked(db, db.ops[id]);
  }

  lemma SuccessLoans(db: Db, after: Db, id: Id, now: Time)
    requires LoansTold(db) && Holding(db, id) && OneLoan(db, after, id, db.ops[id].borrowId)
    requires EndedAs(db.ops[id], after.ops[id], OpSuccess, "", "", now)
    requires var was := db.borrows[db.ops[id].borrowId];
             var row := after.borrows[db.ops[id].borrowId];
             if db.ops[id].action == Pickup
             then row.status == Borrowed && row.borrowedAt == Some(now) && row.returnedAt == was.returnedAt
             else row.status == Completed && row.borrowedAt == was.borrowedAt && row.returnedAt == Some(now)
    ensures LoansTold(after)
  {
    var b := db.ops[id].borrowId;
    OthersStay(db, after, id, b);
    assert LoanRow(db, b);
    assert SucceededOn(after, id, db.ops[id].action, b, Some(now));
    forall o | o in after.ops ensures SuccessRow(after, o) {
      if o != id {
        assert SuccessRow(db, o);
      }
    }
  }

  lemma PickupLoans(db: Db, after: Db, id: Id, now: Time)
    requires LoansTold(db) && Holding(db, id) && CompletePickup(db, id, now) == Commit(after)
    ensures LoansTold(after) && Fixed(db, after)
  {
    PickupRows(db, after, id, now);
    SuccessLoans(db, after, id, now);
  }

  lemma ReturnLoans(db: Db, after: Db, id: Id, now: Time)
    requires LoansTold(db) && Holding(db, id) && CompleteReturn(db, id, now) == Commit(after)
    ensures LoansTold(after) && Fixed(db, after)
  {
    ReturnRows(db, after, id, now);
    SuccessLoans(db, after, id, now);
  }

  /** Any of the endings without success. */
  lemma AbandonLoans(db: Db, after: Db, id: Id, how: Ending, now: Time)
    requires LoansTold(db) && Holding(db, id) && Abandon(db, id, how, now) == Commit(after)
    ensures LoansTold(after) && Fixed(db, after)
  {
    AbandonedRow(db, after, id, how, now);
    assert LoanRow(db, db.ops[id].borrowId);
    StampsStay(db, after, id, db.ops[id].borrowId);
  }

  lemma AbandonedRow(db: Db, after: Db, id: Id, how: Ending, now: Time)
    requires Holding(db, id) && Abandon(db, id, how, now) == Commit(after)
    ensures OneLoan(db, after, id, db.ops[id].borrowId) && after.reservations == db.reservations
    ensures after.ops[id].status != OpSuccess
    ensures var b := db.ops[id].borrowId;
            after.borrows[b] == db.borrows[b].(status := if db.ops[id].action == Pickup then Exception else Borrowed,
                                               notes := after.borrows[b].notes)
  {
    match how {
      case Fails(code, message) => FailRows(db, after, id, code, message, now);
      case TimesOut => TimeoutRows(db, after, id, now);
      case IsCancelled => CancelRows(db, after, id, now);
    }
  }

  // ----- whose ------------------------------------------------------------------------------------------------

  /**
   * An operation is for the user, key, cabinet and slot of its record; a pickup against a
   * reservation is for the one who reserved the key, was started inside the pickup window, and lends
   * the key until the time reserved.
   */
  predicate Belongs(db: Db, op: Operation) {
    && op.borrowId in db.borrows
    && var b := db.borrows[op.borrowId];
    && b.userId == op.userId && b.keyId == op.keyId && b.deviceId == op.deviceId && b.slotId == op.slotId
    && (op.action == Pickup ==> b.reservationId == op.reservationId && b.createdAt == op.createdAt)
    && (op.action == Pickup && op.reservationId != BLANK ==>
          && op.reservationId in db.reservations
          && var r := db.reservations[op.reservationId];
          && r.userId == op.userId && r.keyId == op.keyId && r.returnAt == b.expectedReturnAt
          && r.windowStart <= op.createdAt <= r.windowEnd)
  }

  ghost predicate AllBelong(db: Db) {
    forall o | o in db.ops :: Belongs(db, db.ops[o])
  }

  lemma StillBelongs(db: Db, after: Db, a: Operation, b: Operation)
    requires Fixed(db, after) && Belongs(db, a) && SameTask(a, b) && b.createdAt == a.createdAt
    ensures Belongs(after, b)
  {
  }

  // ----- starting ---------------------------------------------------------------------------------------------

  /** What a start leaves, in short. */
  ghost predicate Started(db: Db, after: Db, id: Id) {
    && id !in db.ops && id in after.ops && after.ops[id].status == OpAuthorized && Belongs(after, after.ops[id])
    && OneLoan(db, after, id, after.ops[id].borrowId) && after.reservations == db.reservations
    && var b := after.ops[id].borrowId;
    && (b in db.borrows ==> db.borrows[b].status == Borrowed && after.borrows[b] == db.borrows[b].(status := Returning))
    && (b !in db.borrows ==>
          && after.borrows[b].status == Borrowing
          && after.borrows[b].borrowedAt.None? && after.borrows[b].returnedAt.None?)
  }

  lemma StartLoans(db: Db, after: Db, id: Id)
    requires LoansTold(db) && Started(db, after, id)
    ensures LoansTold(after) && Fixed(db, after)
  {
    var b := after.ops[id].borrowId;
    assert b in db.borrows ==> LoanRow(db, b);
    StampsStay(db, after, id, b);
  }

  lemma AskPickupStarts(db: Db, after: Db, q: PickupRequest)
    requires after == StartPickup(db, q).db
    ensures after == db || Started(db, after, q.newOp)
  {
    if after != db {
      var (borrow, op) := NewPickup(db, q);
      InsertedRows(db.(borrows := db.borrows[q.newBorrow := borrow]), q.newOp, op, after);
    }
  }

  lemma AskReturnStarts(db: Db, after: Db, q: ReturnRequest)
    requires after == StartReturn(db, q).db
    ensures after == db || Started(db, after, q.newOp)
  {
    if after != db {
      var taken := db.(borrows := db.borrows[q.borrow := db.borrows[q.borrow].(status := Returning)]);
      InsertedRows(taken, q.newOp, NewReturn(db, q), after);
    }
  }

  lemma AskDispenseStarts(db: Db, after: Db, q: DispenseRequest)
    requires after == DirectDispense(db, q).db
    ensures after == db || Started(db, after, q.newOp)
  {
    if after != db {
      var (borrow, op) := NewDispense(db, q);
      InsertedRows(db.(borrows := db.borrows[q.newBorrow := borrow]), q.newOp, op, after);
    }
  }

  // ----- every step ---------------------------------------------------------------------------------------------

  /** Only side columns of operations change. */
  lemma SideLoans(db: Db, after: Db)
    requires LoansTold(db) && after.borrows == db.borrows && after.ops.Keys == db.ops.Keys
    requires forall o | o in db.ops :: SameTask(db.ops[o], after.ops[o])
               && (db.ops[o].status == OpSuccess || after.ops[o].status == OpSuccess
                   ==> AsItWas(db.ops[o], after.ops[o]))
    ensures LoansTold(after)
  {
    forall b | b in after.borrows ensures LoanRow(after, b) {
      var row := db.borrows[b];
      assert LoanRow(db, b);
      if row.borrowedAt.Some? {
        var o :| SucceededOn(db, o, Pickup, b, row.borrowedAt);
        assert SucceededOn(after, o, Pickup, b, row.borrowedAt);
      }
      if row.returnedAt.Some? {
        var o :| SucceededOn(db, o, Return, b, row.returnedAt);
        assert SucceededOn(after, o, Return, b, row.returnedAt);
      }
    }
    forall o | o in after.ops ensures SuccessRow(after, o) {
      assert SuccessRow(db, o);
    }
  }

  lemma BeginLoans(db: Db, after: Db, id: Id, now: Time)
    requires LoansTold(db) && after == Applied(db, BeginExecution(db, id, now))
    ensures LoansTold(after) && Fixed(db, after)
  {
    BeginRows(db, id, now);
    SideLoans(db, after);
  }

  lemma RecordLoans(db: Db, after: Db, ev: DeviceEvent, stored: bool)
    requires LoansTold(db) && ev.op in db.ops && after == Applied(db, RecordEvent(db, ev, stored))
    ensures LoansTold(after) && Fixed(db, after)
  {
    var tagged := Tagged(db, ev, stored);
    AppendRows(tagged, ev.op, EventKey(ev.deviceId, ev.msgId), ev.etype, ev.data, ev.at);
    assert AsItWas(db.ops[ev.op], after.ops[ev.op]) && after.ops == db.ops[ev.op := after.ops[ev.op]];
    SideLoans(db, after);
  }

  lemma ReportLoans(db: Db, after: Db, ev: DeviceEvent, stored: bool)
    requires Coupled(db) && LoansTold(db) && after == Applied(db, OnDeviceEvent(db, ev, stored))
    ensures LoansTold(after) && Fixed(db, after)
  {
    if after != db {
      if ReportsSuccess(ev.etype) || ReportsFailure(ev.etype) {
        EndingLoans(db, after, ev);
      } else {
        RecordLoans(db, after, ev, stored);
      }
    }
  }

  lemma EndingLoans(db: Db, after: Db, ev: DeviceEvent)
    requires Coupled(db) && LoansTold(db) && after != db && ev.op in db.ops
    requires Commit(after) == if ReportsSuccess(ev.etype)
                              then if db.ops[ev.op].action == Pickup then CompletePickup(db, ev.op, ev.at)
                                   else CompleteReturn(db, ev.op, ev.at)
                              else Fail(db, ev.op, ev.code, ev.message, ev.at)
    ensures LoansTold(after) && Fixed(db, after)
  {
    ActiveHolds(db, ev.op);
    if !ReportsSuccess(ev.etype) {
      AbandonLoans(db, after, ev.op, Fails(ev.code, ev.message), ev.at);
    } else if db.ops[ev.op].action == Pickup {
      PickupLoans(db, after, ev.op, ev.at);
    } else {
      ReturnLoans(db, after, ev.op, ev.at);
    }
  }

  lemma AbandonStepLoans(db: Db, after: Db, id: Id, how: Ending, now: Time)
    requires Coupled(db) && LoansTold(db) && after == Applied(db, Abandon(db, id, how, now))
    ensures LoansTold(after) && Fixed(db, after)
  {
    if after != db {
      ActiveHolds(db, id);
      AbandonLoans(db, after, id, how, now);
    }
  }

  lemma RowsFixed(db: Db, after: Db, step: Step)
    requires IsReservationStep(step) || step.SeeSlot? || step.SetDevice? || step.SetUser?
    requires LoansTold(db) && after == After(db, step)
    ensures LoansTold(after) && Fixed(db, after)
  {
    R.StepTold(db, after, step);
    RowsSame(db, after, step);
    SideLoans(db, after);
  }

  lemma RowsSame(db: Db, after: Db, step: Step)
    requires IsReservationStep(step) || step.SeeSlot? || step.SetDevice? || step.SetUser?
    requires after == After(db, step)
    ensures after.ops == db.ops && after.borrows == db.borrows
  {
    if IsReservationStep(step) {
      ReservationRows(db, after, step);
    }
  }

  lemma StartStepLoans(db: Db, after: Db, step: Step)
    requires LoansTold(db) && (step.AskPickup? || step.AskReturn? || step.AskDispense?) && after == After(db, step)
    ensures LoansTold(after) && Fixed(db, after)
    ensures forall o | o in after.ops && o !in db.ops :: Belongs(after, after.ops[o])
  {
    match step {
      case AskPickup(q) => AskPickupStarts(db, after, q);
      case AskReturn(q) => AskReturnStarts(db, after, q);
      case AskDispense(q) => AskDispenseStarts(db, after, q);
    }
    if after != db {
      var id := Subject(step);
      assert Started(db, after, id);
      StartLoans(db, after, id);
    }
  }

  lemma StepLoans(db: Db, after: Db, step: Step)
    requires Coupled(db) && LoansTold(db) && after == After(db, step)
    ensures LoansTold(after) && Fixed(db, after)
  {
    match step
    case Begin(op, now) => BeginLoans(db, after, op, now);
    case Report(ev, stored) => ReportLoans(db, after, ev, stored);
    case DispatchFails(op, message, now) =>
      AbandonStepLoans(db, after, op, Fails("DEVICE_COMMAND_FAILED", message), now);
    case TimeoutOp(op, now) => AbandonStepLoans(db, after, op, TimesOut, now);
    case CancelOp(op, now) => AbandonStepLoans(db, after, op, IsCancelled, now);
    case AskPickup(_) => StartStepLoans(db, after, step);
    case AskReturn(_) => StartStepLoans(db, after, step);
    case AskDispense(_) => StartStepLoans(db, after, step);
    case _ => RowsFixed(db, after, step);
  }

  lemma StepBelongs(db: Db, after: Db, step: Step)
    requires LoansTold(db) && NoneEnded(db) && AllBelong(db) && Fixed(db, after) && after == After(db, step)
    ensures AllBelong(after)
  {
    StepTold(db, after, step);
    forall o | o in after.ops ensures Belongs(after, after.ops[o]) {
      if o in db.ops {
        StillBelongs(db, after, db.ops[o], after.ops[o]);
      } else {
        assert AskedBy(step, o, after.ops[o]);
        StartStepLoans(db, after, step);
      }
    }
  }

  // ----- runs ----------------------------------------------------------------------------------------------------

  /** Nothing has been asked for or lent yet. */
  predicate NothingYet(db: Db) {
    db.ops == map[] && db.borrows == map[]
  }

  /** Both, in every reachable ledger. */
  lemma {:induction false} RunLoans(db: Db, steps: seq<Step>)
    requires Coupled(db) && NothingYet(db)
    ensures LoansTold(Exec(db, steps)) && AllBelong(Exec(db, steps))
  {
    if steps != [] {
      var early := steps[..|steps| - 1];
      RunLoans(db, early);
      RunKeeps(db, early);
      EveryOperationHasItsCause(db, early);
      CausedEnds(Exec(db, early), early);
      StepLoans(Exec(db, early), Exec(db, steps), steps[|steps| - 1]);
      StepBelongs(Exec(db, early), Exec(db, steps), steps[|steps| - 1]);
    }
  }

  /** In the run, the cabinet reports success for an operation of this kind on the record, at this time. */
  ghost predicate SuccessReported(db: Db, steps: seq<Step>, b: Id, action: Action, at: Time) {
    exists i, o | 0 <= i < |steps| && o in db.ops ::
      SucceedsAt(steps[i], o, db.ops[o], b, action, at)
  }

  predicate SucceedsAt(step: Step, o: Id, op: Operation, b: Id, action: Action, at: Time) {
    && op.borrowId == b && op.action == action && op.status == OpSuccess
    && step.Report? && step.event.op == o && step.event.deviceId == op.deviceId && step.event.at == at
    && step.event.etype in {EvSuccess, EvPickupSuccess, EvReturnSuccess}
  }

  /**
   * In every reachable ledger: a record is COMPLETED iff it says when the key came back, and has
   * been lent iff it says when the key went out; and these are the times of the success reports of
   * a return of this very record, and of its pickup.
   */
  lemma LoanTimes(db: Db, steps: seq<Step>, b: Id)
    requires Coupled(db) && NothingYet(db) && b in Exec(db, steps).borrows
    ensures var end := Exec(db, steps);
            var row := end.borrows[b];
            && (row.returnedAt.Some? <==> row.status == Completed)
            && (row.borrowedAt.Some? <==> row.status in {Borrowed, Returning, Completed})
            && (row.returnedAt.Some? ==> SuccessReported(end, steps, b, Return, row.returnedAt.value))
            && (row.borrowedAt.Some? ==> SuccessReported(end, steps, b, Pickup, row.borrowedAt.value))
  {
    var end := Exec(db, steps);
    var row := end.borrows[b];
    RunLoans(db, steps);
    EveryOperationHasItsCause(db, steps);
    assert LoanRow(end, b);
    if row.returnedAt.Some? {
      var o :| SucceededOn(end, o, Return, b, row.returnedAt);
      CauseReports(end, steps, o, b, row.returnedAt.value);
    }
    if row.borrowedAt.Some? {
      var o :| SucceededOn(end, o, Pickup, b, row.borrowedAt);
      CauseReports(end, steps, o, b, row.borrowedAt.value);
    }
  }

  lemma CauseReports(end: Db, steps: seq<Step>, o: Id, b: Id, at: Time)
    requires AllCaused(end, steps) && o in end.ops && SucceededOn(end, o, end.ops[o].action, b, Some(at))
    ensures SuccessReported(end, steps, b, end.ops[o].action, at)
  {
    assert HasCause(steps, o, end.ops[o]);
    var i :| 0 <= i < |steps| && Cause(steps[i], o, end.ops[o]);
    assert SucceedsAt(steps[i], o, end.ops[o], b, end.ops[o].action, at);
  }

  /**
   * In every reachable ledger: whoever a key is handed to by a pickup against a reservation is the
   * one who made it, for that key, with the pickup started inside the window, and until the time
   * reserved; every operation is for the user, key, cabinet and slot of its record.
   */
  lemma OnlyOwnersPickUp(db: Db, steps: seq<Step>, o: Id)
    requires Coupled(db) && NothingYet(db) && o in Exec(db, steps).ops
    ensures var end := Exec(db, steps);
            var op := end.ops[o];
            && op.borrowId in end.borrows
            && var b := end.borrows[op.borrowId];
            && b.userId == op.userId && b.keyId == op.keyId && b.deviceId == op.deviceId && b.slotId == op.slotId
            && (op.action == Pickup && op.reservationId != BLANK ==>
                  && op.reservationId in end.reservations
                  && var r := end.reservations[op.reservationId];
                  && r.userId == op.userId == b.userId && r.keyId == op.keyId && b.expectedReturnAt == r.returnAt
                  && r.windowStart <= op.createdAt <= r.windowEnd)
  {
    RunLoans(db, steps);
    assert Belongs(Exec(db, steps), Exec(db, steps).ops[o]);
  }
}
