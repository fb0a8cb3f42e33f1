/** A request that has been prepared once is answered with its operation for good. */
module Idempotency {
  import opened LedgerTypes
  import opened Services
  import opened Steps
  import opened Coupling
  import opened Moves
  import opened CouplingRuns
  import opened OneWinner
  import opened Dispatch

  /** Request ids keep their operation, and operations their task. */
  ghost predicate RequestsKept(db: Db, after: Db) {
    && (forall q | q in db.requests :: q in after.requests && after.requests[q] == db.requests[q])
    && (forall o | o in db.ops :: o in after.ops && SameTask(db.ops[o], after.ops[o]))
  }

  lemma MoveKeepsRequests(db: Db, after: Db)
    requires Moved(db, after)
    ensures RequestsKept(db, after)
  {
    if OnlyTouched(db, after) || OnlySeen(db, after) || OnlyReserves(db, after) {
    } else if id :| Began(db, after, id) {
      StartKeepsRequests(db, after, id);
    } else {
      var id :| Finished(db, after, id);
      EndKeepsRequests(db, after, id);
    }
  }

  lemma StartKeepsRequests(db: Db, after: Db, id: Id)
    requires Starts(db, after, id)
    ensures RequestsKept(db, after)
  {
  }

  lemma EndKeepsRequests(db: Db, after: Db, id: Id)
    requires Ends(db, after, id)
    ensures RequestsKept(db, after)
  {
  }

  lemma KeptAcross(db: Db, between: Db, after: Db)
    requires RequestsKept(db, between) && RequestsKept(between, after)
    ensures RequestsKept(db, after)
  {
  }

  lemma StepKeepsRequests(db: Db, after: Db, step: Step)
    requires Coupled(db) && after == After(db, step)
    ensures RequestsKept(db, after)
  {
    StepMoves(db, step);
    MoveKeepsRequests(db, after);
  }

  lemma {:induction false} RunKeepsRequests(db: Db, steps: seq<Step>)
    requires Coupled(db)
    ensures RequestsKept(db, Exec(db, steps))
  {
    if steps != [] {
      var early := steps[..|steps| - 1];
      RunKeepsRequests(db, early);
      RunKeeps(db, early);
      StepKeepsRequests(Exec(db, early), Exec(db, steps), steps[|steps| - 1]);
      KeptAcross(db, Exec(db, early), Exec(db, steps));
    }
  }

  lemma RunIsIndexed(db: Db, steps: seq<Step>)
    requires Coupled(db)
    ensures RequestsKept(db, Exec(db, steps)) && RequestIndex(Exec(db, steps))
  {
    RunKeepsRequests(db, steps);
    RunKeeps(db, steps);
  }

  /** The cabinet an operation is for. */
  function DeviceOf(db: Db, id: Id): Id {
    if id in db.ops then db.ops[id].deviceId else BLANK
  }

  /**
   * However much has happened since a pickup was prepared: its request, made again, changes
   * nothing and is answered with that operation iff user, reservation and cabinet agree.
   */
  lemma PickupAnsweredForever(db: Db, asked: Db, q: PickupRequest, steps: seq<Step>, later: Db, again: PickupRequest)
    requires Coupled(db) && StartPickup(db, q) == Outcome(Prepared(q.newOp), asked) && later == Exec(asked, steps)
    requires again.request == q.request && again.user != BLANK && again.reservation != BLANK
    ensures StartPickup(later, again) == Outcome(
              if !Verified(later, again.user) || again.user != q.user then Refused(Forbidden)
              else if again.reservation == q.reservation && again.cabinet in {BLANK, DeviceOf(asked, q.newOp)}
              then Existing(q.newOp) else Refused(Conflict), later)
  {
    PreparedPickup(db, asked, q);
    PickupTask(db, asked, q);
    PreparedKeeps(db, asked, q);
    RunIsIndexed(asked, steps);
    PickupRetry(later, again);
  }

  lemma PickupTask(db: Db, asked: Db, q: PickupRequest)
    requires StartPickup(db, q) == Outcome(Prepared(q.newOp), asked)
    ensures q.request != BLANK && q.request in asked.requests && asked.requests[q.request] == q.newOp
    ensures q.newOp in asked.ops && asked.ops[q.newOp].userId == q.user
  {
  }

  /** The same for returns. */
  lemma ReturnAnsweredForever(db: Db, asked: Db, q: ReturnRequest, steps: seq<Step>, later: Db, again: ReturnRequest)
    requires Coupled(db) && StartReturn(db, q) == Outcome(Prepared(q.newOp), asked) && later == Exec(asked, steps)
    requires again.request == q.request && again.user != BLANK && again.borrow != BLANK
    ensures StartReturn(later, again) == Outcome(
              if again.user != q.user then Refused(Forbidden)
              else if again.borrow == q.borrow && again.device in {BLANK, DeviceOf(asked, q.newOp)}
              then Existing(q.newOp) else Refused(Conflict), later)
  {
    ReturnTask(db, asked, q);
    ReturnPreparedKeeps(db, asked, q);
    RunIsIndexed(asked, steps);
    ReturnRetry(later, again);
  }

  lemma ReturnTask(db: Db, asked: Db, q: ReturnRequest)
    requires StartReturn(db, q) == Outcome(Prepared(q.newOp), asked)
    ensures q.request != BLANK && q.request in asked.requests && asked.requests[q.request] == q.newOp
    ensures q.newOp in asked.ops
    ensures var op := asked.ops[q.newOp]; op.userId == q.user && op.action == Return && op.borrowId == q.borrow
  {
  }

  lemma ReturnPreparedKeeps(db: Db, asked: Db, q: ReturnRequest)
    requires Coupled(db) && StartReturn(db, q) == Outcome(Prepared(q.newOp), asked)
    ensures Coupled(asked)
  {
    AskReturnMoves(db, asked, q);
    if asked != db {
      BeganKeeps(db, asked, q.newOp);
    }
  }

  /**
   * And for direct dispensing, once cabinet and user are let through: a key is compared only if
   * the request names one, and the room never is.
   */
  lemma DispenseAnsweredForever(
    db: Db, asked: Db, q: DispenseRequest, steps: seq<Step>, later: Db, again: DispenseRequest)
    requires Coupled(db) && DirectDispense(db, q) == Outcome(Prepared(q.newOp), asked) && later == Exec(asked, steps)
    requires again.request == q.request && again.device != BLANK && (again.room != BLANK || again.key != BLANK)
    requires again.device in later.devices && later.devices[again.device] == Online
    requires again.user != BLANK && Verified(later, again.user)
    ensures DirectDispense(later, again) == Outcome(
              if again.user == q.user && again.device == q.device && again.key in {BLANK, Target(q)}
              then Existing(q.newOp) else Refused(Conflict), later)
  {
    DispenseTask(db, asked, q);
    DispensePreparedKeeps(db, asked, q);
    RunIsIndexed(asked, steps);
    DispenseRetry(later, again);
  }

  lemma DispenseTask(db: Db, asked: Db, q: DispenseRequest)
    requires DirectDispense(db, q) == Outcome(Prepared(q.newOp), asked)
    ensures q.request != BLANK && q.request in asked.requests && asked.requests[q.request] == q.newOp
    ensures q.newOp in asked.ops
    ensures var op := asked.ops[q.newOp];
            op.userId == q.user && op.action == Pickup && op.deviceId == q.device && op.keyId == Target(q)
  {
  }

  lemma DispensePreparedKeeps(db: Db, asked: Db, q: DispenseRequest)
    requires Coupled(db) && DirectDispense(db, q) == Outcome(Prepared(q.newOp), asked)
    ensures Coupled(asked)
  {
    AskDispenseMoves(db, asked, q);
    if asked != db {
      BeganKeeps(db, asked, q.newOp);
    }
  }
}
