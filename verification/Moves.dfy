/**
 * The few ways in which one step can move the ledger, and the proof that every step
 * moves it in one of them. Everything proved about runs goes through these shapes.
 */
module Moves {
  import opened LedgerTypes
  import opened OperationTx
  import opened ReservationTx
  import opened Services
  import opened Steps
  import opened Coupling

  /** The immutable columns of an operation. */
  predicate SameTask(a: Operation, b: Operation) {
    && a.requestId == b.requestId && a.userId == b.userId && a.reservationId == b.reservationId
    && a.borrowId == b.borrowId && a.deviceId == b.deviceId && a.slotId == b.slotId && a.keyId == b.keyId
    && a.action == b.action
  }

  /** Both active (and none goes back to waiting), or both ended the same way. */
  predicate SameHalf(a: OpStatus, b: OpStatus) {
    if IsTerminal(a) then a == b else !IsTerminal(b) && (b in {OpCreated, OpAuthorized} ==> a == b)
  }

  /** Only side columns of operations (and users, devices, logs) change. */
  ghost predicate OnlyTouched(db: Db, after: Db) {
    && after.requests == db.requests && after.borrows == db.borrows && after.reservations == db.reservations
    && after.keys == db.keys && after.slots == db.slots
    && after.ops.Keys == db.ops.Keys
    && forall o | o in db.ops :: SameTask(db.ops[o], after.ops[o]) && SameHalf(db.ops[o].status, after.ops[o].status)
  }

  /** The immutable columns of a borrow record. */
  predicate SameLoan(a: Borrow, b: Borrow) {
    a.reservationId == b.reservationId && a.keyId == b.keyId && a.createdAt == b.createdAt
        && a.expectedReturnAt == b.expectedReturnAt
  }

  /** `after` ends operation `id` and touches no rows but those of its borrow, key, slot and reservation. */
  ghost predicate Ends(db: Db, after: Db, id: Id) {
    && Active(db, id) && Linked(db, db.ops[id])
    && var op := db.ops[id];
    && after.requests == db.requests
    && after.ops.Keys == db.ops.Keys
    && IsTerminal(after.ops[id].status)
    && SameTask(op, after.ops[id])
    && (forall o | o in db.ops && o != id :: after.ops[o] == db.ops[o])
    && after.borrows.Keys == db.borrows.Keys
    && SameLoan(after.borrows[op.borrowId], db.borrows[op.borrowId])
    && after.borrows[op.borrowId].status !in {Borrowing, Returning}
    && (forall b | b in db.borrows && b != op.borrowId :: after.borrows[b] == db.borrows[b])
    && after.keys.Keys == db.keys.Keys
    && after.keys[op.keyId].slotId == op.slotId && after.keys[op.keyId].rfidTag == db.keys[op.keyId].rfidTag
    && (forall k | k in db.keys && k != op.keyId :: after.keys[k] == db.keys[k])
    && after.slots.Keys == db.slots.Keys
    && (forall s | s in db.slots && s != op.slotId :: after.slots[s] == db.slots[s])
    && after.reservations.Keys == db.reservations.Keys
    && (forall r | r in db.reservations && r != op.reservationId :: after.reservations[r] == db.reservations[r])
  }

  ghost predicate Abandons(db: Db, after: Db, id: Id) {
    && Ends(db, after, id)
    && after.ops[id].status != OpSuccess
    && after.keys == db.keys && after.slots == db.slots && after.reservations == db.reservations
    && after.borrows[db.ops[id].borrowId].status == (if db.ops[id].action == Pickup then Exception else Borrowed)
  }

  ghost predicate PicksUp(db: Db, after: Db, id: Id) {
    && Ends(db, after, id)
    && var op := db.ops[id];
    && op.action == Pickup && after.ops[id].status == OpSuccess
    && after.borrows[op.borrowId].status == Borrowed
    && after.keys[op.keyId].status == KeyBorrowed
    && after.slots[op.slotId].presence == Absent
    && (op.reservationId != BLANK ==>
          && op.reservationId in db.reservations && IsActiveReservation(db.reservations[op.reservationId].status)
          && SameBooking(after.reservations[op.reservationId], db.reservations[op.reservationId])
          && after.reservations[op.reservationId].status == ResUsed)
  }

  ghost predicate GivesBack(db: Db, after: Db, id: Id) {
    && Ends(db, after, id)
    && var op := db.ops[id];
    && op.action == Return && after.ops[id].status == OpSuccess
    && after.borrows[op.borrowId].status == Completed
    && after.keys[op.keyId].status == KeyAvailable
    && after.slots[op.slotId].presence == Present
    && after.reservations == db.reservations
  }

  /** `after` adds the active operation `id` and changes no rows but its borrow's. */
  ghost predicate Starts(db: Db, after: Db, id: Id) {
    && id !in db.ops && id != BLANK && Active(after, id) && Linked(after, after.ops[id])
    && var op := after.ops[id];
    && after.ops == db.ops[id := op]
    && op.requestId !in db.requests && after.requests == db.requests[op.requestId := id]
    && (forall o | Active(db, o) :: db.ops[o].keyId != op.keyId && db.ops[o].deviceId != op.deviceId)
    && after.keys == db.keys && after.slots == db.slots && after.reservations == db.reservations
    && op.borrowId != BLANK
    && (forall b | b in db.borrows && b != op.borrowId :: b in after.borrows && after.borrows[b] == db.borrows[b])
    && (forall b | b in after.borrows && b != op.borrowId :: b in db.borrows)
    && op.scannedRfid == ""
    && (op.borrowId in db.borrows ==> SameLoan(after.borrows[op.borrowId], db.borrows[op.borrowId]))
  }

  /** A pickup creates its borrow, for a key without an open one and free of foreign bookings. */
  ghost predicate StartsPickup(db: Db, after: Db, id: Id) {
    && Starts(db, after, id)
    && var op := after.ops[id];
    && var borrow := after.borrows[op.borrowId];
    && op.action == Pickup && op.borrowId !in db.borrows
    && !HasOpenBorrow(db, op.keyId)
    && (borrow.reservationId == BLANK ==> !HasConflict(db, op.keyId, borrow.createdAt, borrow.expectedReturnAt))
    && (borrow.reservationId != BLANK ==> ActiveFor(db, borrow.reservationId, op.keyId))
  }

  ghost predicate StartsReturn(db: Db, after: Db, id: Id) {
    && Starts(db, after, id)
    && var op := after.ops[id];
    && op.action == Return && op.borrowId in db.borrows
    && db.borrows[op.borrowId].status == Borrowed
    && after.borrows[op.borrowId] == db.borrows[op.borrowId].(status := Returning)
  }

  predicate SameBooking(a: Reservation, b: Reservation) {
    a.keyId == b.keyId && a.windowStart == b.windowStart && a.windowEnd == b.windowEnd && a.returnAt == b.returnAt
  }

  /** Key status moves only between AVAILABLE and RESERVED. */
  ghost predicate KeysOnlyReserved(db: Db, after: Db) {
    && after.keys.Keys == db.keys.Keys
    && forall k | k in db.keys ::
         && after.keys[k].slotId == db.keys[k].slotId && after.keys[k].rfidTag == db.keys[k].rfidTag
         && (after.keys[k].status == db.keys[k].status
             || (after.keys[k].status in {KeyAvailable, KeyReserved}
                  && db.keys[k].status in {KeyAvailable, KeyReserved}))
  }

  /** Reservations are added or end; no key is RESERVED for nothing. */
  ghost predicate WritesReservations(db: Db, after: Db) {
    && after.ops == db.ops && after.requests == db.requests && after.borrows == db.borrows && after.slots == db.slots
    && KeysOnlyReserved(db, after)
    && (forall r | r in db.reservations ::
          && r in after.reservations && SameBooking(after.reservations[r], db.reservations[r])
          && (IsActiveReservation(after.reservations[r].status) ==> IsActiveReservation(db.reservations[r].status)))
    && (forall r1, r2 | r1 in after.reservations && r2 in after.reservations
          && r1 !in db.reservations && r2 !in db.reservations :: r1 == r2)
    && (forall r | r in after.reservations && r !in db.reservations :: r != BLANK)
    && ReservedBacked(after)
  }

  /** A new reservation is well-ordered, and free of conflicts with active ones and open borrows. */
  ghost predicate OnlyReserves(db: Db, after: Db) {
    && WritesReservations(db, after)
    && (forall r | r in after.reservations && r !in db.reservations ::
          && var n := after.reservations[r];
          && n.windowStart < n.windowEnd < n.returnAt
          && !HasConflict(db, n.keyId, n.windowStart, n.returnAt)
          && !HasOpenBorrow(db, n.keyId))
  }

  ghost predicate Began(db: Db, after: Db, id: Id) {
    StartsPickup(db, after, id) || StartsReturn(db, after, id)
  }

  ghost predicate Finished(db: Db, after: Db, id: Id) {
    Abandons(db, after, id) || PicksUp(db, after, id) || GivesBack(db, after, id)
  }

  /** Only the presence of slots changes. */
  ghost predicate OnlySeen(db: Db, after: Db) {
    after == db.(slots := after.slots) && after.slots.Keys == db.slots.Keys
  }

  /** All the ways to move. */
  ghost predicate Moved(db: Db, after: Db) {
    || OnlyTouched(db, after)
    || OnlySeen(db, after)
    || OnlyReserves(db, after)
    || (exists id :: Began(db, after, id))
    || (exists id :: Finished(db, after, id))
  }

  lemma Unmoved(db: Db)
    ensures OnlyTouched(db, db)
  {
  }

  // ----- operation steps -----------------------------------------------------------

  lemma BeginOnly(db: Db, after: Db, id: Id, now: Time)
    requires after == Applied(db, BeginExecution(db, id, now))
    ensures OnlyTouched(db, after)
  {
    if BeginExecution(db, id, now).Rollback? {
      assert after == db;
    }
  }

  /**
   * Under the invariant the guards of Timeout and Cancel always let their update
   * through, so the unguarded Fail moves the borrow to the same status.
   */
  lemma AbandonMovesBorrow(db: Db, id: Id, how: Ending)
    requires Coupled(db) && Active(db, id)
    ensures Linked(db, db.ops[id]) && db.ops[id].borrowId != BLANK
    ensures db.borrows[db.ops[id].borrowId].status in {Borrowing, Returning}
    ensures AbandonedBorrow(db.borrows[db.ops[id].borrowId], db.ops[id].action, how).status
         == if db.ops[id].action == Pickup then Exception else Borrowed
  {
    assert Linked(db, db.ops[id]);
  }

  lemma AbandonShape(db: Db, after: Db, id: Id, how: Ending, now: Time)
    requires Active(db, id) && Linked(db, db.ops[id]) && db.ops[id].borrowId != BLANK
    requires after == Applied(db, Abandon(db, id, how, now))
    ensures Abandons(db, after, id) && after.ops[id].status == how.Status()
  {
    var bid := db.ops[id].borrowId;
    assert after.borrows == db.borrows[bid := AbandonedBorrow(db.borrows[bid], db.ops[id].action, how)];
    assert SameLoan(after.borrows[bid], db.borrows[bid]);
  }

  lemma AbandonMoves(db: Db, after: Db, id: Id, how: Ending, now: Time)
    requires Coupled(db) && after == Applied(db, Abandon(db, id, how, now))
    ensures after == db || Abandons(db, after, id)
  {
    if Active(db, id) {
      AbandonMovesBorrow(db, id, how);
      AbandonShape(db, after, id, how, now);
    } else {
      assert after == db;
    }
  }

  lemma PickupShape(db: Db, after: Db, id: Id, now: Time)
    requires NoBlankRows(db) && Active(db, id) && Linked(db, db.ops[id])
    requires CompletePickup(db, id, now) == Commit(after)
    ensures PicksUp(db, after, id)
  {
    var bid := db.ops[id].borrowId;
    assert SameLoan(after.borrows[bid], db.borrows[bid]);
  }

  lemma PickupMoves(db: Db, after: Db, id: Id, now: Time)
    requires Coupled(db) && after == Applied(db, CompletePickup(db, id, now))
    ensures after == db || PicksUp(db, after, id)
  {
    if Active(db, id) && CompletePickup(db, id, now).Commit? {
      PickupShape(db, after, id, now);
    } else {
      PickupElse(db, after, id, now);
    }
  }

  lemma PickupElse(db: Db, after: Db, id: Id, now: Time)
    requires after == Applied(db, CompletePickup(db, id, now))
    requires !Active(db, id) || CompletePickup(db, id, now).Rollback?
    ensures after == db
  {
  }

  lemma ReturnShape(db: Db, after: Db, id: Id, now: Time)
    requires NoBlankRows(db) && Active(db, id) && Linked(db, db.ops[id])
    requires CompleteReturn(db, id, now) == Commit(after)
    ensures GivesBack(db, after, id)
  {
    var bid := db.ops[id].borrowId;
    assert SameLoan(after.borrows[bid], db.borrows[bid]);
  }

  lemma ReturnElse(db: Db, after: Db, id: Id, now: Time)
    requires after == Applied(db, CompleteReturn(db, id, now))
    requires !Active(db, id) || CompleteReturn(db, id, now).Rollback?
    ensures after == db
  {
  }

  lemma ReturnMoves(db: Db, after: Db, id: Id, now: Time)
    requires Coupled(db) && after == Applied(db, CompleteReturn(db, id, now))
    ensures after == db || GivesBack(db, after, id)
  {
    if Active(db, id) && CompleteReturn(db, id, now).Commit? {
      ReturnShape(db, after, id, now);
    } else {
      ReturnElse(db, after, id, now);
    }
  }

  lemma AppendOnly(db: Db, after: Db, id: Id, key: EventKey, etype: EventType, data: TagData, at: Time)
    requires after == Applied(db, AppendEventIfActive(db, id, key, etype, data, at))
    ensures OnlyTouched(db, after)
  {
    if !Active(db, id) || key in db.eventKeys {
      assert after == db;
    } else if after.ops == db.ops {
    } else {
      assert after.ops[id] == db.ops[id].(ackAt := Some(at));
    }
  }

  lemma RecordOnly(db: Db, after: Db, ev: DeviceEvent, stored: bool)
    requires after == Applied(db, RecordEvent(db, ev, stored))
    ensures OnlyTouched(db, after)
  {
    var tagged := Tagged(db, ev, stored);
    assert OnlyTouched(db, tagged);
    AppendOnly(tagged, after, ev.op, EventKey(ev.deviceId, ev.msgId), ev.etype, ev.data, ev.at);
  }

  lemma ReportMoves(db: Db, after: Db, ev: DeviceEvent, stored: bool)
    requires Coupled(db) && after == Applied(db, OnDeviceEvent(db, ev, stored))
    ensures after == db || Finished(db, after, ev.op) || OnlyTouched(db, after)
  {
    if ev.op in db.ops && db.ops[ev.op].deviceId == ev.deviceId {
      if ReportsSuccess(ev.etype) {
        if db.ops[ev.op].action == Pickup {
          PickupMoves(db, after, ev.op, ev.at);
        } else {
          ReturnMoves(db, after, ev.op, ev.at);
        }
      } else if ReportsFailure(ev.etype) {
        AbandonMoves(db, after, ev.op, Fails(ev.code, ev.message), ev.at);
      } else {
        RecordOnly(db, after, ev, stored);
      }
    }
  }

  // ----- requests -----------------------------------------------------------------------

  lemma AskPickupMoves(db: Db, after: Db, q: PickupRequest)
    requires NoBlankRows(db) && after == StartPickup(db, q).db
    ensures after == db || Began(db, after, q.newOp)
  {
    if after != db {
      assert PickupObstacle(db, q).None?;
      assert ActiveFor(db, q.reservation, db.reservations[q.reservation].keyId);
      assert StartsPickup(db, after, q.newOp);
    }
  }

  lemma AskDispenseMoves(db: Db, after: Db, q: DispenseRequest)
    requires NoBlankRows(db) && after == DirectDispense(db, q).db
    ensures after == db || Began(db, after, q.newOp)
  {
    if after != db {
      assert DispenseObstacle(db, q).None?;
      assert StartsPickup(db, after, q.newOp);
    }
  }

  lemma AskReturnMoves(db: Db, after: Db, q: ReturnRequest)
    requires NoBlankRows(db) && after == StartReturn(db, q).db
    ensures after == db || Began(db, after, q.newOp)
  {
    if after != db {
      assert ReturnObstacle(db, q).None?;
      assert StartsReturn(db, after, q.newOp);
    }
  }

  // ----- reservation steps -------------------------------------------------------------

  lemma SwitchShape(db: Db, after: Db, key: Id, from: KeyStatus, to: KeyStatus)
    requires after == SwitchKey(db, key, from, to) && from != to && {from, to} == {KeyAvailable, KeyReserved}
    ensures after == db.(keys := after.keys) && KeysOnlyReserved(db, after)
    ensures forall k | k in db.keys && k != key :: after.keys[k] == db.keys[k]
    ensures key in db.keys ==> after.keys[key].status != from
  {
    if key in db.keys && db.keys[key].status == from {
    } else {
      assert after == db;
    }
  }

  lemma SameActive(db: Db, after: Db, key: Id)
    requires after.reservations == db.reservations && HasActive(db, key)
    ensures HasActive(after, key)
  {
    var r :| r in db.reservations && ActiveFor(db, r, key);
    assert ActiveFor(after, r, key);
  }

  lemma ReserveShape(db: Db, after: Db, id: RowId, reservation: Reservation)
    requires CreateRow(db, id, reservation) == Commit(after) && IsActiveReservation(reservation.status)
    ensures after == db.(reservations := db.reservations[id := reservation], keys := after.keys)
            && id !in db.reservations
    ensures KeysOnlyReserved(db, after)
    ensures forall k | k in db.keys && k != reservation.keyId :: after.keys[k] == db.keys[k]
    ensures !HasConflict(db, reservation.keyId, reservation.windowStart, reservation.returnAt)
  {
    var inserted := db.(reservations := db.reservations[id := reservation]);
    SwitchShape(inserted, after, reservation.keyId, KeyAvailable, KeyReserved);
  }

  lemma ReserveMoves(db: Db, after: Db, q: ReserveRequest)
    requires ReservedBacked(db) && after == Applied(db, CreateReservation(db, q))
    ensures Moved(db, after)
  {
    if CreateReservation(db, q).Commit? {
      ReserveShape(db, after, q.newReservation, NewReservation(db, q));
      assert ActiveFor(after, q.newReservation, q.key);
      OldStaysBacked(db, after, q.key);
      assert OnlyReserves(db, after);
    } else {
      Unmoved(db);
    }
  }

  /** Keys other than `key` keep their status, and their reservations. */
  lemma OldStaysBacked(db: Db, after: Db, key: Id)
    requires ReservedBacked(db) && after.keys.Keys == db.keys.Keys
    requires forall k | k in db.keys && k != key :: after.keys[k] == db.keys[k]
    requires forall r | r in db.reservations && db.reservations[r].keyId != key ::
               r in after.reservations && after.reservations[r] == db.reservations[r]
    requires key in after.keys && after.keys[key].status == KeyReserved ==> HasActive(after, key)
    ensures ReservedBacked(after)
  {
    forall k | k in after.keys && after.keys[k].status == KeyReserved ensures HasActive(after, k) {
      if k != key {
        var r :| r in db.reservations && ActiveFor(db, r, k);
        assert ActiveFor(after, r, k);
      }
    }
  }

  /** releaseKeyIfUnreserved leaves no key RESERVED for nothing. */
  lemma ReleaseShape(db: Db, after: Db, key: Id)
    requires after == ReleaseKey(db, key)
    ensures after == db.(keys := after.keys) && KeysOnlyReserved(db, after)
    ensures forall k | k in db.keys && k != key :: after.keys[k] == db.keys[k]
    ensures key in db.keys && after.keys[key].status == KeyReserved ==> HasActive(after, key)
  {
    if HasActive(db, key) {
      assert after == db;
    } else {
      SwitchShape(db, after, key, KeyReserved, KeyAvailable);
    }
  }

  /** Ending one reservation and then releasing its key if nothing else reserves it. */
  lemma ReleaseMoves(db: Db, after: Db, id: Id, row: Reservation)
    requires ReservedBacked(db) && id in db.reservations
    requires SameBooking(row, db.reservations[id]) && !IsActiveReservation(row.status)
    requires after == ReleaseKey(db.(reservations := db.reservations[id := row]), row.keyId)
    ensures OnlyReserves(db, after)
  {
    ReleaseShape(db.(reservations := db.reservations[id := row]), after, row.keyId);
    OldStaysBacked(db, after, db.reservations[id].keyId);
  }

  lemma ApproveMoves(db: Db, after: Db, id: Id)
    requires ReservedBacked(db) && id in db.reservations && db.reservations[id].status == ResPending
    requires after == SetStatus(db, id, ResApproved)
    ensures OnlyReserves(db, after)
  {
    forall k | k in after.keys && after.keys[k].status == KeyReserved ensures HasActive(after, k) {
      var r :| r in db.reservations && ActiveFor(db, r, k);
      assert ActiveFor(after, r, k);
    }
  }

  lemma ReviewMoves(db: Db, after: Db, id: Id, approved: bool, now: Time)
    requires ReservedBacked(db) && after == Applied(db, Review(db, id, approved, now).0)
    ensures Moved(db, after)
  {
    if Review(db, id, approved, now).0.Commit? {
      if db.reservations[id].windowEnd <= now {
        ReleaseMoves(db, after, id, db.reservations[id].(status := ResExpired));
      } else if approved {
        ApproveMoves(db, after, id);
      } else {
        ReleaseMoves(db, after, id, db.reservations[id].(status := ResRejected));
      }
    } else {
      Unmoved(db);
    }
  }

  lemma ExpireMoves(db: Db, after: Db, now: Time)
    requires ReservedBacked(db) && after == Expired(db, now)
    ensures OnlyReserves(db, after)
  {
    forall k | k in after.keys && after.keys[k].status == KeyReserved ensures HasActive(after, k) {
      var r :| r in db.reservations && ActiveFor(db, r, k);
      if Overdue(db.reservations[r], now) {
        assert !LeftUnreserved(db, k, now);
        r :| r in db.reservations && ActiveFor(db, r, k) && !Overdue(db.reservations[r], now);
      }
      assert ActiveFor(after, r, k);
    }
  }

  // ----- all steps ------------------------------------------------------------------------

  predicate IsReservationStep(step: Step) {
    step.Reserve? || step.CancelWrite? || step.ReviewIt? || step.ExpireAll?
  }

  lemma ReservationRows(db: Db, after: Db, step: Step)
    requires IsReservationStep(step) && after == After(db, step)
    ensures OnlyRows(db, after)
  {
    match step
    case Reserve(q) => if CreateReservation(db, q).Rollback? { assert after == db; }
    case CancelWrite(r) => assert WriteCancelled(db, r).Commit?;
    case ReviewIt(r, approved, now) => if Review(db, r, approved, now).0.Rollback? { assert after == db; }
    case ExpireAll(now) =>
  }

  lemma ReservationStepMoves(db: Db, after: Db, step: Step)
    requires ReservedBacked(db) && IsReservationStep(step) && after == After(db, step)
    ensures Moved(db, after)
  {
    match step
    case Reserve(q) => ReserveMoves(db, after, q);
    case CancelWrite(r) =>
      if r in db.reservations {
        ReleaseMoves(db, after, r, db.reservations[r].(status := ResCancelled, usedAt := None));
      } else {
        Unmoved(db);
      }
    case ReviewIt(r, approved, now) => ReviewMoves(db, after, r, approved, now);
    case ExpireAll(now) => ExpireMoves(db, after, now);
  }

  /** The operation a step is about. */
  function Subject(step: Step): Id {
    match step
    case AskPickup(q) => q.newOp
    case AskReturn(q) => q.newOp
    case AskDispense(q) => q.newOp
    case Report(ev, _) => ev.op
    case Begin(op, _) => op
    case DispatchFails(op, _, _) => op
    case TimeoutOp(op, _) => op
    case CancelOp(op, _) => op
    case _ => BLANK
  }

  lemma OperationStepMoves(db: Db, after: Db, step: Step)
    requires Coupled(db) && !IsReservationStep(step) && !step.SetDevice? && !step.SetUser? && !step.SeeSlot?
    requires after == After(db, step)
    ensures after == db || OnlyTouched(db, after) || Began(db, after, Subject(step))
            || Finished(db, after, Subject(step))
  {
    match step
    case AskPickup(q) => AskPickupMoves(db, after, q);
    case AskReturn(q) => AskReturnMoves(db, after, q);
    case AskDispense(q) => AskDispenseMoves(db, after, q);
    case Begin(op, now) => BeginOnly(db, after, op, now);
    case Report(ev, stored) => ReportMoves(db, after, ev, stored);
    case DispatchFails(op, message, now) => AbandonMoves(db, after, op, Fails("DEVICE_COMMAND_FAILED", message), now);
    case TimeoutOp(op, now) => AbandonMoves(db, after, op, TimesOut, now);
    case CancelOp(op, now) => AbandonMoves(db, after, op, IsCancelled, now);
  }

  lemma SeenMoves(db: Db, after: Db, slot: Id, presence: Presence)
    requires after == Seen(db, slot, presence)
    ensures OnlySeen(db, after)
  {
    if slot in db.slots {
      assert after.slots == db.slots[slot := db.slots[slot].(presence := presence)];
    }
  }

  lemma StepMoves(db: Db, step: Step)
    requires Coupled(db)
    ensures Moved(db, After(db, step))
  {
    var after := After(db, step);
    if IsReservationStep(step) {
      ReservationStepMoves(db, after, step);
    } else if step.SetDevice? || step.SetUser? || step.SeeSlot? {
      RowStepMoves(db, after, step);
    } else {
      Unmoved(db);
      OperationStepMoves(db, after, step);
    }
  }

  lemma RowStepMoves(db: Db, after: Db, step: Step)
    requires (step.SetDevice? || step.SetUser? || step.SeeSlot?) && after == After(db, step)
    ensures OnlyTouched(db, after) || OnlySeen(db, after)
  {
    if step.SeeSlot? {
      SeenMoves(db, after, step.slot, step.presence);
    } else {
      assert OnlyTouched(db, after);
    }
  }
}
