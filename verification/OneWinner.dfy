/**
 * One winner: whichever of completion, failure, timeout and cancellation commits
 * first ends the operation; the others then change nothing, for good.
 */
module OneWinner {
  import opened LedgerTypes
  import opened OperationTx
  import opened ReservationTx
  import opened Services
  import opened Steps
  import opened Coupling
  import opened Moves
  import opened CouplingRuns

  datatype Conclusion = PickupDone | ReturnDone | Without(how: Ending)

  function Conclude(db: Db, id: Id, cause: Conclusion, now: Time): Tx {
    match cause
    case PickupDone => CompletePickup(db, id, now)
    case ReturnDone => CompleteReturn(db, id, now)
    case Without(how) => Abandon(db, id, how, now)
  }

  function WinnerStatus(cause: Conclusion): OpStatus {
    if cause.Without? then cause.how.Status() else OpSuccess
  }

  /** Where the winner leaves the borrow record. */
  function BorrowAfter(action: Action, winner: OpStatus): BorrowStatus {
    match action
    case Pickup => if winner == OpSuccess then Borrowed else Exception
    case Return => if winner == OpSuccess then Completed else Borrowed
  }

  /** The commit that ends an active operation fixes its status and its borrow's. */
  lemma WinnerDecides(db: Db, after: Db, id: Id, cause: Conclusion, now: Time)
    requires Coupled(db) && Active(db, id) && Conclude(db, id, cause, now) == Commit(after)
    ensures after.ops[id].status == WinnerStatus(cause)
    ensures db.ops[id].borrowId in after.borrows
    ensures after.borrows[db.ops[id].borrowId].status == BorrowAfter(db.ops[id].action, WinnerStatus(cause))
  {
    assert Linked(db, db.ops[id]);
    match cause
    case PickupDone => PickupShape(db, after, id, now);
    case ReturnDone => ReturnShape(db, after, id, now);
    case Without(how) =>
      AbandonMovesBorrow(db, id, how);
      AbandonShape(db, after, id, how, now);
  }

  /** On a terminal operation every conclusion leaves the ledger as it is; only Cancel complains. */
  lemma LosersChangeNothing(db: Db, id: Id, cause: Conclusion, now: Time)
    requires id in db.ops && IsTerminal(db.ops[id].status)
    ensures Applied(db, Conclude(db, id, cause, now)) == db
    ensures Conclude(db, id, cause, now).Rollback? <==> cause == Without(IsCancelled)
  {
  }

  // ----- for good ----------------------------------------------------------------------

  /** Ended operations and closed borrows of `db` are as they were in `after`. */
  ghost predicate Absorbed(db: Db, after: Db) {
    && (forall o | o in db.ops ::
          o in after.ops && (IsTerminal(db.ops[o].status) ==> after.ops[o].status == db.ops[o].status))
    && (forall b | b in db.borrows ::
          b in after.borrows && (!IsOpen(db.borrows[b].status) ==> after.borrows[b].status == db.borrows[b].status))
  }

  lemma MoveAbsorbs(db: Db, after: Db)
    requires Moved(db, after)
    ensures Absorbed(db, after)
  {
    if OnlyTouched(db, after) || OnlySeen(db, after) || OnlyReserves(db, after) {
    } else if id :| Began(db, after, id) {
      StartAbsorbs(db, after, id);
    } else {
      var id :| Finished(db, after, id);
      EndAbsorbs(db, after, id);
    }
  }

  lemma StartAbsorbs(db: Db, after: Db, id: Id)
    requires Began(db, after, id)
    ensures Absorbed(db, after)
  {
  }

  lemma EndAbsorbs(db: Db, after: Db, id: Id)
    requires Ends(db, after, id)
    ensures Absorbed(db, after)
  {
  }

  /** A terminal operation keeps its status, and a closed borrow is never reopened. */
  lemma {:induction false} EndedForever(db: Db, steps: seq<Step>)
    requires Coupled(db)
    ensures Absorbed(db, Exec(db, steps))
  {
    if steps != [] {
      EndedForever(db, steps[..|steps| - 1]);
      RunKeeps(db, steps[..|steps| - 1]);
      StepMoves(Exec(db, steps[..|steps| - 1]), steps[|steps| - 1]);
      MoveAbsorbs(Exec(db, steps[..|steps| - 1]), Exec(db, steps));
    }
  }

  /** How many steps of a run turn operation `id` from not terminal to terminal. */
  function Endings(db: Db, steps: seq<Step>, id: Id): nat {
    if steps == [] then 0
    else
      var before := Exec(db, steps[..|steps| - 1]);
      var after := After(before, steps[|steps| - 1]);
      var ended := id in after.ops && IsTerminal(after.ops[id].status)
                   && !(id in before.ops && IsTerminal(before.ops[id].status));
      Endings(db, steps[..|steps| - 1], id) + if ended then 1 else 0
  }

  /** In any run exactly one step ends an operation that is ended, and none one that is not. */
  lemma {:induction false} ExactlyOneEnding(db: Db, steps: seq<Step>, id: Id)
    requires Coupled(db) && !(id in db.ops && IsTerminal(db.ops[id].status))
    ensures Endings(db, steps, id)
         == if id in Exec(db, steps).ops && IsTerminal(Exec(db, steps).ops[id].status) then 1 else 0
  {
    if steps != [] {
      ExactlyOneEnding(db, steps[..|steps| - 1], id);
      RunKeeps(db, steps[..|steps| - 1]);
      StepMoves(Exec(db, steps[..|steps| - 1]), steps[|steps| - 1]);
      MoveAbsorbs(Exec(db, steps[..|steps| - 1]), Exec(db, steps));
    }
  }

  // ----- two writes that only the surroundings make safe ---------------------------------

  /** Update writes the row as it was read, whatever happened to it since, with the new tag. */
  function StaleUpdate(db: Db, id: Id, read: Operation, tag: string): Db {
    db.(ops := db.ops[id := read.(scannedRfid := tag)])
  }

  /**
   * Taken apart from its read, the update of a scanned tag leaves ended operations ended
   * exactly if the operation has not ended in between: a stale row reopens it.
   */
  lemma StaleUpdateAbsorbsIff(db: Db, id: Id, read: Operation, tag: string)
    requires id in db.ops && !IsTerminal(read.status)
    ensures Absorbed(db, StaleUpdate(db, id, read, tag)) <==> !IsTerminal(db.ops[id].status)
  {
    var after := StaleUpdate(db, id, read, tag);
    if IsTerminal(db.ops[id].status) {
      assert after.ops[id].status != db.ops[id].status;
    } else {
      assert forall o | o in db.ops && o != id :: after.ops[o] == db.ops[o];
    }
  }

  /** Fail on an active operation: closed borrows stay closed iff its own is open, or stays as it is. */
  lemma FailAbsorbsIff(db: Db, after: Db, id: Id, code: string, message: string, now: Time)
    requires Active(db, id) && db.ops[id].borrowId != BLANK && db.ops[id].borrowId in db.borrows
    requires Fail(db, id, code, message, now) == Commit(after)
    ensures var status := db.borrows[db.ops[id].borrowId].status;
            Absorbed(db, after) <==> IsOpen(status) || (status == Exception && db.ops[id].action == Pickup)
  {
    var b := db.ops[id].borrowId;
    assert after.borrows == db.borrows[b := AbandonedBorrow(db.borrows[b], db.ops[id].action, Fails(code, message))];
    assert forall o | o in db.ops && o != id :: after.ops[o] == db.ops[o];
  }

  /** The guards of Timeout and Cancel make this hold whatever the borrow is. */
  lemma GuardedAbsorb(db: Db, after: Db, id: Id, how: Ending, now: Time)
    requires !how.Fails? && Active(db, id) && Abandon(db, id, how, now) == Commit(after)
    ensures Absorbed(db, after)
  {
    var b := db.ops[id].borrowId;
    assert forall o | o in db.ops && o != id :: after.ops[o] == db.ops[o];
    if b in db.borrows && b != BLANK {
      assert after.borrows == db.borrows[b := AbandonedBorrow(db.borrows[b], db.ops[id].action, how)];
    }
  }

  // ----- what a borrow record tells about its operations ---------------------------------

  /** The statuses a borrow can have once one of its operations ended with `winner`. */
  predicate Tells(action: Action, winner: OpStatus, borrow: BorrowStatus) {
    match action
    case Pickup => if winner == OpSuccess then borrow in {Borrowed, Returning, Completed} else borrow == Exception
    case Return => if winner == OpSuccess then borrow == Completed else borrow in {Borrowed, Returning, Completed}
  }

  ghost predicate Outcomes(db: Db) {
    forall o | o in db.ops && IsTerminal(db.ops[o].status) ::
      db.ops[o].borrowId in db.borrows
      && Tells(db.ops[o].action, db.ops[o].status, db.borrows[db.ops[o].borrowId].status)
  }

  lemma MoveOutcomes(db: Db, after: Db)
    requires Outcomes(db) && Moved(db, after)
    ensures Outcomes(after)
  {
    if OnlyTouched(db, after) || OnlySeen(db, after) || OnlyReserves(db, after) {
    } else if id :| Began(db, after, id) {
      StartOutcomes(db, after, id);
    } else {
      var id :| Finished(db, after, id);
      EndOutcomes(db, after, id);
    }
  }

  lemma StartOutcomes(db: Db, after: Db, id: Id)
    requires Outcomes(db) && Began(db, after, id)
    ensures Outcomes(after)
  {
    forall o | o in after.ops && IsTerminal(after.ops[o].status)
      ensures after.ops[o].borrowId in after.borrows
      ensures Tells(after.ops[o].action, after.ops[o].status, after.borrows[after.ops[o].borrowId].status)
    {
      assert Tells(db.ops[o].action, db.ops[o].status, db.borrows[db.ops[o].borrowId].status);
    }
  }

  lemma EndOutcomes(db: Db, after: Db, id: Id)
    requires Outcomes(db) && Finished(db, after, id)
    ensures Outcomes(after)
  {
    forall o | o in after.ops && IsTerminal(after.ops[o].status)
      ensures after.ops[o].borrowId in after.borrows
      ensures Tells(after.ops[o].action, after.ops[o].status, after.borrows[after.ops[o].borrowId].status)
    {
      if o != id {
        assert Tells(db.ops[o].action, db.ops[o].status, db.borrows[db.ops[o].borrowId].status);
      }
    }
  }

  /** In every reachable ledger: a lost pickup stays an exception, a finished return a completed borrow. */
  lemma {:induction false} RunOutcomes(db: Db, steps: seq<Step>)
    requires Coupled(db) && Outcomes(db)
    ensures Outcomes(Exec(db, steps))
  {
    if steps != [] {
      var before := steps[..|steps| - 1];
      RunOutcomes(db, before);
      RunKeeps(db, before);
      StepMoves(Exec(db, before), steps[|steps| - 1]);
      MoveOutcomes(Exec(db, before), Exec(db, steps));
    }
  }

  // ----- when a success report completes its operation ------------------------------------

  /** A reported pickup completes iff its reservation (if it has one) is still active; everything else is guaranteed. */
  lemma PickupCommitsIff(db: Db, id: Id, now: Time)
    requires Coupled(db) && Active(db, id) && db.ops[id].action == Pickup && db.ops[id].status in {OpSent, OpExecuting}
    ensures CompletePickup(db, id, now).Commit? <==> ReservationUsable(db, db.ops[id].reservationId)
    ensures CompletePickup(db, id, now).Rollback? ==> CompletePickup(db, id, now) == Rollback(ReservationInactive)
  {
    assert Linked(db, db.ops[id]);
  }

  /** A reported return completes iff the RFID check has no objection. */
  lemma ReturnCommitsIff(db: Db, id: Id, now: Time)
    requires Coupled(db) && Active(db, id) && db.ops[id].action == Return && db.ops[id].status in {OpSent, OpExecuting}
    ensures var verdict := RfidVerdict(db, db.ops[id], LogOf(db, id));
            && (CompleteReturn(db, id, now).Commit? <==> verdict.None?)
            && (verdict.Some? ==> CompleteReturn(db, id, now) == Rollback(verdict.value))
  {
    assert Linked(db, db.ops[id]);
  }

  // ----- pickups that can no longer succeed --------------------------------------------------

  /** The reservation of an operation has ended without it. */
  predicate ReservationGone(db: Db, id: Id) {
    && id in db.ops && db.ops[id].action == Pickup && db.ops[id].reservationId in db.reservations
    && !IsActiveReservation(db.reservations[db.ops[id].reservationId].status)
  }

  /**
   * Any pickup that is prepared and begun, and whose reservation is cancelled before the
   * cabinet reports: the report is rolled back, so it will be delivered again and again.
   */
  lemma OvertakenReportRollsBack(
    db: Db, asked: Db, running: Db, end: Db, q: PickupRequest, begun: Time, ev: DeviceEvent, stored: bool)
    requires Coupled(db) && StartPickup(db, q) == Outcome(Prepared(q.newOp), asked)
    requires BeginExecution(asked, q.newOp, begun) == Commit(running)
    requires WriteCancelled(running, q.reservation) == Commit(end)
    requires ev.op == q.newOp && ReportsSuccess(ev.etype) && ev.deviceId == running.ops[q.newOp].deviceId
    ensures OnDeviceEvent(end, ev, stored) == Rollback(ReservationInactive)
  {
    PreparedPickup(db, asked, q);
    PreparedKeeps(db, asked, q);
    BegunPickup(asked, running, q.newOp, begun);
    CancelRollsBack(running, end, q.newOp, ev, stored);
  }

  lemma PreparedKeeps(db: Db, asked: Db, q: PickupRequest)
    requires Coupled(db) && StartPickup(db, q) == Outcome(Prepared(q.newOp), asked)
    ensures Coupled(asked)
  {
    AskPickupMoves(db, asked, q);
    if asked != db {
      BeganKeeps(db, asked, q.newOp);
    }
  }

  lemma BeganKeeps(db: Db, after: Db, id: Id)
    requires Coupled(db) && Began(db, after, id)
    ensures Coupled(after)
  {
    if StartsPickup(db, after, id) {
      StartsPickupKeeps(db, after, id);
    } else {
      StartsReturnKeeps(db, after, id);
    }
  }

  lemma BegunPickup(asked: Db, running: Db, id: Id, begun: Time)
    requires Coupled(asked) && running == Applied(asked, BeginExecution(asked, id, begun))
    requires id in asked.ops && asked.ops[id].status == OpAuthorized
    ensures Coupled(running) && running.reservations == asked.reservations
    ensures id in running.ops && running.ops[id].status == OpExecuting && SameTask(running.ops[id], asked.ops[id])
  {
    BeginOnly(asked, running, id, begun);
    TouchKeeps(asked, running);
  }

  lemma CancelRollsBack(running: Db, end: Db, id: Id, ev: DeviceEvent, stored: bool)
    requires Coupled(running) && id in running.ops && running.ops[id].status == OpExecuting
    requires running.ops[id].action == Pickup && running.ops[id].reservationId in running.reservations
    requires WriteCancelled(running, running.ops[id].reservationId) == Commit(end)
    requires ev.op == id && ev.deviceId == running.ops[id].deviceId && ReportsSuccess(ev.etype)
    ensures OnDeviceEvent(end, ev, stored) == Rollback(ReservationInactive)
  {
    CancelledIsGone(running, end, id);
    WrittenKeeps(running, end, running.ops[id].reservationId);
    PickupCommitsIff(end, id, ev.at);
  }

  lemma PreparedPickup(db: Db, asked: Db, q: PickupRequest)
    requires NoBlankRows(db) && StartPickup(db, q) == Outcome(Prepared(q.newOp), asked)
    ensures q.newOp in asked.ops && q.reservation in asked.reservations && q.reservation != BLANK
    ensures var op := asked.ops[q.newOp];
            op.action == Pickup && op.status == OpAuthorized && op.reservationId == q.reservation
  {
  }

  lemma CancelledIsGone(db: Db, after: Db, id: Id)
    requires id in db.ops && db.ops[id].action == Pickup && db.ops[id].reservationId in db.reservations
    requires WriteCancelled(db, db.ops[id].reservationId) == Commit(after)
    ensures ReservationGone(after, id) && after.ops == db.ops
  {
  }

  lemma WrittenKeeps(db: Db, after: Db, r: Id)
    requires Coupled(db) && r in db.reservations && WriteCancelled(db, r) == Commit(after)
    ensures Coupled(after)
  {
    ReleaseMoves(db, after, r, db.reservations[r].(status := ResCancelled, usedAt := None));
    ReservesKeeps(db, after);
  }

  lemma MoveStaysGone(db: Db, after: Db, id: Id)
    requires NoBlankRows(db) && Moved(db, after) && ReservationGone(db, id)
    ensures ReservationGone(after, id)
    ensures after.ops[id].status == OpSuccess ==> db.ops[id].status == OpSuccess
  {
    if OnlyTouched(db, after) {
      assert SameTask(db.ops[id], after.ops[id]);
    } else if OnlySeen(db, after) || OnlyReserves(db, after) {
    } else if o :| Began(db, after, o) {
      assert Starts(db, after, o);
    } else {
      var o :| Finished(db, after, o);
      FinishStaysGone(db, after, o, id);
    }
  }

  lemma FinishStaysGone(db: Db, after: Db, o: Id, id: Id)
    requires NoBlankRows(db) && Finished(db, after, o) && ReservationGone(db, id)
    ensures ReservationGone(after, id)
    ensures after.ops[id].status == OpSuccess ==> db.ops[id].status == OpSuccess
  {
    assert Ends(db, after, o);
    if o == id {
      assert Abandons(db, after, id);
    }
  }

  /**
   * Cancelling or expiring a reservation does not look at operations: a pickup it
   * overtakes can only fail, time out or be cancelled, whatever the cabinet reports.
   */
  lemma {:induction false} OvertakenPickupNeverSucceeds(db: Db, steps: seq<Step>, id: Id)
    requires Coupled(db) && ReservationGone(db, id) && db.ops[id].status != OpSuccess
    ensures ReservationGone(Exec(db, steps), id) && Exec(db, steps).ops[id].status != OpSuccess
  {
    if steps != [] {
      OvertakenPickupNeverSucceeds(db, steps[..|steps| - 1], id);
      RunKeeps(db, steps[..|steps| - 1]);
      StepMoves(Exec(db, steps[..|steps| - 1]), steps[|steps| - 1]);
      MoveStaysGone(Exec(db, steps[..|steps| - 1]), Exec(db, steps), id);
    }
  }
}
