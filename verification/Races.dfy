/**
 * Between check and prepare: the services check one state of the ledger and write to a later
 * one. What the transaction checks again, and what it does not.
 */
module Races {
  import opened LedgerTypes
  import opened OperationTx
  import opened ReservationTx
  import opened Services
  import opened StartRules
  import opened Steps
  import opened Coupling
  import opened Moves
  import opened CouplingRuns
  import opened Bookings
  import opened Idempotency
  import opened Scenario

  // ----- any pickup that is prepared late ---------------------------------------------------

  /** The rows of a pickup as the services build them, for a key that is bound to its slot. */
  predicate FitsPickup(db: Db, borrowId: Id, borrow: Borrow, id: Id, op: Operation) {
    && borrowId != BLANK && id != BLANK && op.borrowId == borrowId
    && op.action == Pickup && op.scannedRfid == ""
    && borrow.status == Borrowing && borrow.keyId == op.keyId && borrow.reservationId == op.reservationId
    && op.keyId in db.keys && op.slotId in db.slots && db.keys[op.keyId].slotId == op.slotId
    && db.keys[op.keyId].status in {KeyAvailable, KeyReserved, KeyBorrowed}
    && (op.reservationId != BLANK ==>
          op.reservationId in db.reservations && db.reservations[op.reservationId].keyId == op.keyId)
  }

  /** Somebody else's reservation overlaps what the borrow record promises. */
  predicate PromisedToOthers(db: Db, borrow: Borrow) {
    exists r | r in db.reservations :: IsActiveReservation(db.reservations[r].status) && InTheWay(db, borrow, r)
  }

  lemma LateRows(db: Db, after: Db, borrowId: Id, borrow: Borrow, id: Id, op: Operation)
    requires PreparePickup(db, borrowId, borrow, id, op) == Commit(after)
    ensures borrowId !in db.borrows && after.borrows == db.borrows[borrowId := borrow]
    ensures id !in db.ops && after.ops == db.ops[id := op.(status := OpAuthorized)]
    ensures op.requestId !in db.requests && after.requests == db.requests[op.requestId := id]
    ensures !DeviceBusy(db, op.deviceId) && (op.keyId != BLANK ==> !KeyBusy(db, op.keyId))
    ensures after == db.(ops := after.ops, requests := after.requests, borrows := after.borrows, logs := after.logs)
  {
  }

  lemma OutHasOpen(db: Db, k: Id)
    requires Coupled(db)
    ensures IsOut(db, k) ==> HasOpenBorrow(db, k)
  {
    if IsOut(db, k) {
      var b :| KeepsOut(db, b, k);
      assert b in db.borrows && db.borrows[b].keyId == k && IsOpen(db.borrows[b].status);
    }
  }

  lemma LateStarts(db: Db, after: Db, borrowId: Id, borrow: Borrow, id: Id, op: Operation)
    requires NoBlankRows(db) && FitsPickup(db, borrowId, borrow, id, op) && !IsOut(db, op.keyId)
    requires PreparePickup(db, borrowId, borrow, id, op) == Commit(after)
    ensures Starts(db, after, id) && after.ops[id] == op.(status := OpAuthorized)
  {
    LateRows(db, after, borrowId, borrow, id, op);
    assert Linked(after, after.ops[id]);
  }

  lemma TwoOpen(db: Db, b1: Id, b2: Id)
    requires Open(db, b1) && Open(db, b2) && b1 != b2 && db.borrows[b1].keyId == db.borrows[b2].keyId
    ensures !Coupled(db)
  {
    assert !OneOpen(db);
  }

  /**
   * A pickup that is prepared late keeps the coupling invariant iff its key has no open
   * borrow by then. The other checks are repeated by the indexes on request, active device and
   * active key.
   */
  lemma LateCoupledIff(db: Db, after: Db, borrowId: Id, borrow: Borrow, id: Id, op: Operation)
    requires Coupled(db) && FitsPickup(db, borrowId, borrow, id, op)
    requires PreparePickup(db, borrowId, borrow, id, op) == Commit(after)
    ensures Coupled(after) <==> !HasOpenBorrow(db, op.keyId)
  {
    LateRows(db, after, borrowId, borrow, id, op);
    if HasOpenBorrow(db, op.keyId) {
      var b :| b in db.borrows && db.borrows[b].keyId == op.keyId && IsOpen(db.borrows[b].status);
      assert Open(after, b) && Open(after, borrowId);
      TwoOpen(after, b, borrowId);
    } else {
      OutHasOpen(db, op.keyId);
      LateStarts(db, after, borrowId, borrow, id, op);
      StartsPickupKeeps(db, after, id);
    }
  }

  /** It keeps bookings apart iff the time it promises has not been reserved by others meanwhile. */
  lemma LateBookedIff(db: Db, after: Db, borrowId: Id, borrow: Borrow, id: Id, op: Operation)
    requires Booked(db) && FitsPickup(db, borrowId, borrow, id, op)
    requires PreparePickup(db, borrowId, borrow, id, op) == Commit(after)
    ensures Booked(after) <==> !PromisedToOthers(db, borrow)
  {
    LateRows(db, after, borrowId, borrow, id, op);
    forall b ensures Open(after, b) <==> b == borrowId || Open(db, b) {}
    if PromisedToOthers(db, borrow) {
      var r :| r in db.reservations && IsActiveReservation(db.reservations[r].status) && InTheWay(db, borrow, r);
      assert Open(after, borrowId) && InTheWay(after, after.borrows[borrowId], r);
      assert !BorrowsApart(after);
    } else {
      LateApart(db, after, borrowId, borrow);
    }
  }

  lemma LateApart(db: Db, after: Db, borrowId: Id, borrow: Borrow)
    requires Booked(db) && !PromisedToOthers(db, borrow) && borrowId !in db.borrows
    requires after.borrows == db.borrows[borrowId := borrow] && after.reservations == db.reservations
    ensures Booked(after)
  {
    forall b, r | Open(after, b) && r in after.reservations && IsActiveReservation(after.reservations[r].status)
      ensures !InTheWay(after, after.borrows[b], r)
    {
      if b != borrowId {
        assert Open(db, b) && !InTheWay(db, db.borrows[b], r);
      }
    }
  }

  // ----- pickups against a reservation ---------------------------------------------------------

  /** startPickup with its checks made on `seen` and its transaction on `db`. */
  function LatePickup(seen: Db, db: Db, q: PickupRequest): Outcome
    requires PickupObstacle(seen, q).None?
  {
    var (borrow, op) := NewPickup(seen, q);
    Concluded(db, q.newOp, op, PreparePickup(db, q.newBorrow, borrow, q.newOp, op))
  }

  /** Bookings and bindings do not change; key status moves only between these three. */
  predicate SameBindings(seen: Db, db: Db, q: PickupRequest)
    requires q.reservation in seen.reservations
  {
    var k := seen.reservations[q.reservation].keyId;
    && q.reservation != BLANK && q.reservation in db.reservations && db.reservations[q.reservation].keyId == k
    && k in seen.keys && k in db.keys && db.keys[k].slotId == seen.keys[k].slotId && db.keys[k].slotId in db.slots
    && db.keys[k].status in {KeyAvailable, KeyReserved, KeyBorrowed}
  }

  /** Coupled iff the key has no open borrow by then. */
  lemma LatePickupCoupledIff(seen: Db, db: Db, q: PickupRequest)
    requires PickupObstacle(seen, q).None? && SameBindings(seen, db, q) && Coupled(db)
    requires LatePickup(seen, db, q).reply.Prepared?
    ensures Coupled(LatePickup(seen, db, q).db) <==> !HasOpenBorrow(db, seen.reservations[q.reservation].keyId)
  {
    var (borrow, op) := NewPickup(seen, q);
    LateCoupledIff(db, LatePickup(seen, db, q).db, q.newBorrow, borrow, q.newOp, op);
  }

  /** Booked iff no other active reservation clashes by then; while its own is active, none does. */
  lemma LatePickupBookedIff(seen: Db, db: Db, q: PickupRequest)
    requires PickupObstacle(seen, q).None? && SameBindings(seen, db, q) && Booked(db)
    requires LatePickup(seen, db, q).reply.Prepared?
    ensures Booked(LatePickup(seen, db, q).db) <==> !PromisedToOthers(db, NewPickup(seen, q).0)
    ensures IsActiveReservation(db.reservations[q.reservation].status) ==> Booked(LatePickup(seen, db, q).db)
  {
    var (borrow, op) := NewPickup(seen, q);
    LateBookedIff(db, LatePickup(seen, db, q).db, q.newBorrow, borrow, q.newOp, op);
    if IsActiveReservation(db.reservations[q.reservation].status) {
      forall r | r in db.reservations && IsActiveReservation(db.reservations[r].status)
        ensures !InTheWay(db, borrow, r)
      {
        assert r != q.reservation ==> !Clash(db.reservations[q.reservation], db.reservations[r]);
      }
    }
  }

  // ----- direct dispensing -----------------------------------------------------------------------

  /** DirectDispense with its checks made on `seen` and its transaction on `db`. */
  function LateDispense(seen: Db, db: Db, q: DispenseRequest): Tx
    requires DispenseObstacle(seen, q).None?
  {
    var (borrow, op) := NewDispense(seen, q);
    PreparePickup(db, q.newBorrow, borrow, q.newOp, op)
  }

  predicate SameTarget(seen: Db, db: Db, q: DispenseRequest) {
    && Target(q) in seen.keys && Target(q) in db.keys && db.keys[Target(q)].slotId == seen.keys[Target(q)].slotId
    && db.keys[Target(q)].slotId in db.slots
    && db.keys[Target(q)].status in {KeyAvailable, KeyReserved, KeyBorrowed}
  }

  /** Coupled and booked iff what FindActiveByKeyID and FindConflicts said still holds, each for its part. */
  lemma LateDispenseIff(seen: Db, db: Db, after: Db, q: DispenseRequest)
    requires DispenseObstacle(seen, q).None? && SameTarget(seen, db, q) && Coupled(db) && Booked(db)
    requires LateDispense(seen, db, q) == Commit(after)
    ensures Coupled(after) <==> !HasOpenBorrow(db, Target(q))
    ensures Booked(after) <==> !HasConflict(db, Target(q), q.now, q.now + LendingTime(seen.keys[Target(q)]))
  {
    var (borrow, op) := NewDispense(seen, q);
    LateCoupledIff(db, after, q.newBorrow, borrow, q.newOp, op);
    LateBookedIff(db, after, q.newBorrow, borrow, q.newOp, op);
    PromisedIsConflict(db, borrow);
  }

  lemma PromisedIsConflict(db: Db, borrow: Borrow)
    requires borrow.reservationId == BLANK
    ensures PromisedToOthers(db, borrow) <==> HasConflict(db, borrow.keyId, borrow.createdAt, borrow.expectedReturnAt)
  {
    if PromisedToOthers(db, borrow) {
      var r :| r in db.reservations && IsActiveReservation(db.reservations[r].status) && InTheWay(db, borrow, r);
      assert ActiveFor(db, r, borrow.keyId);
    }
    if HasConflict(db, borrow.keyId, borrow.createdAt, borrow.expectedReturnAt) {
      var r :| r in db.reservations && ActiveFor(db, r, borrow.keyId)
               && Overlap(db.reservations[r].windowStart, db.reservations[r].returnAt, borrow.createdAt,
                          borrow.expectedReturnAt);
      assert IsActiveReservation(db.reservations[r].status) && InTheWay(db, borrow, r);
    }
  }

  // ----- reservations ------------------------------------------------------------------------------

  /** CreateReservation with its checks made on `seen` and its transaction on `db`. */
  function LateReservation(seen: Db, db: Db, q: ReserveRequest): Tx
    requires ReserveObstacle(seen, q).None?
  {
    CreateRow(db, q.newReservation, NewReservation(seen, q))
  }

  /** An open borrow of the key was promised some of the time that is reserved. */
  predicate PromisedBefore(db: Db, n: Reservation) {
    exists b | b in db.borrows :: Open(db, b) && db.borrows[b].keyId == n.keyId && PromiseMeets(db, db.borrows[b], n)
  }

  predicate PromiseMeets(db: Db, borrow: Borrow, n: Reservation) {
    if borrow.reservationId == BLANK
    then Overlap(borrow.createdAt, borrow.expectedReturnAt, n.windowStart, n.returnAt)
    else borrow.reservationId in db.reservations && Clash(db.reservations[borrow.reservationId], n)
  }

  /** Always coupled: the transaction touches key status only where it is AVAILABLE. */
  lemma LateReservationCoupled(seen: Db, db: Db, after: Db, q: ReserveRequest)
    requires ReserveObstacle(seen, q).None? && Coupled(db) && LateReservation(seen, db, q) == Commit(after)
    ensures Coupled(after)
  {
    ReserveShape(db, after, q.newReservation, NewReservation(seen, q));
    assert ActiveFor(after, q.newReservation, q.key);
    OldStaysBacked(db, after, q.key);
    ReservesKeeps(db, after);
  }

  /** Booked iff no open borrow of the key was promised any of that time; reservations are checked again. */
  lemma LateReservationBookedIff(seen: Db, db: Db, after: Db, q: ReserveRequest)
    requires ReserveObstacle(seen, q).None? && Booked(db) && BackingKnown(db)
    requires LateReservation(seen, db, q) == Commit(after)
    ensures Booked(after) <==> !PromisedBefore(db, NewReservation(seen, q))
  {
    var n := NewReservation(seen, q);
    ReserveShape(db, after, q.newReservation, n);
    ReservedApart(db, after, q.newReservation, n);
    if PromisedBefore(db, n) {
      var b :| b in db.borrows && Open(db, b) && db.borrows[b].keyId == n.keyId && PromiseMeets(db, db.borrows[b], n);
      assert Open(after, b) && InTheWay(after, after.borrows[b], q.newReservation);
      assert !BorrowsApart(after);
    } else {
      ReservedBorrowsApart(db, after, q.newReservation, n);
    }
  }

  lemma ReservedApart(db: Db, after: Db, id: Id, n: Reservation)
    requires Booked(db) && id !in db.reservations && after.reservations == db.reservations[id := n]
    requires n.windowStart < n.returnAt && !HasConflict(db, n.keyId, n.windowStart, n.returnAt)
    ensures ActivesApart(after) && WellOrdered(after)
  {
    forall r | r in db.reservations && IsActiveReservation(db.reservations[r].status)
      ensures !Clash(db.reservations[r], n)
    {
      FreeOf(db, r, n);
    }
  }

  lemma ReservedBorrowsApart(db: Db, after: Db, id: Id, n: Reservation)
    requires Booked(db) && BackingKnown(db) && id !in db.reservations && !PromisedBefore(db, n)
    requires after.reservations == db.reservations[id := n] && after.borrows == db.borrows
    ensures BorrowsApart(after)
  {
    forall b, r | Open(after, b) && r in after.reservations && IsActiveReservation(after.reservations[r].status)
      ensures !InTheWay(after, after.borrows[b], r)
    {
      assert Open(db, b);
      if r == id {
        assert !(db.borrows[b].keyId == n.keyId && PromiseMeets(db, db.borrows[b], n));
      } else {
        assert !InTheWay(db, db.borrows[b], r);
      }
    }
  }

  // ----- returns -------------------------------------------------------------------------------------

  /** StartReturn with its checks made on `seen` and its transaction on `db`. */
  function LateReturn(seen: Db, db: Db, q: ReturnRequest): Outcome
    requires ReturnObstacle(seen, q).None?
  {
    var op := NewReturn(seen, q);
    Concluded(db, q.newOp, op, PrepareReturn(db, q.borrow, q.user, q.newOp, op))
  }

  /** The record is for the same key, bound to the same slot. */
  predicate SameReturn(seen: Db, db: Db, q: ReturnRequest)
    requires q.borrow in seen.borrows
  {
    var k := seen.borrows[q.borrow].keyId;
    && (q.borrow in db.borrows ==> db.borrows[q.borrow].keyId == k)
    && k in seen.keys && k in db.keys && db.keys[k].slotId == seen.keys[k].slotId && db.keys[k].slotId in db.slots
  }

  /** A return that is prepared late is safe: its transaction checks the borrow record again. */
  lemma LateReturnCoupled(seen: Db, db: Db, q: ReturnRequest)
    requires ReturnObstacle(seen, q).None? && SameReturn(seen, db, q) && Coupled(db)
    ensures Coupled(LateReturn(seen, db, q).db)
  {
    if LateReturn(seen, db, q).reply.Prepared? {
      LateReturnStarts(db, LateReturn(seen, db, q).db, q, NewReturn(seen, q));
      StartsReturnKeeps(db, LateReturn(seen, db, q).db, q.newOp);
    }
  }

  lemma LateReturnStarts(db: Db, after: Db, q: ReturnRequest, op: Operation)
    requires NoBlankRows(db) && PrepareReturn(db, q.borrow, q.user, q.newOp, op) == Commit(after)
    requires op.action == Return && op.borrowId == q.borrow && op.scannedRfid == ""
    requires op.keyId in db.keys && op.slotId == db.keys[op.keyId].slotId && op.slotId in db.slots
    requires q.borrow in db.borrows ==> db.borrows[q.borrow].keyId == op.keyId
    ensures StartsReturn(db, after, q.newOp)
  {
    LateReturnRows(db, after, q, op);
    assert Linked(after, after.ops[q.newOp]);
  }

  lemma LateReturnRows(db: Db, after: Db, q: ReturnRequest, op: Operation)
    requires PrepareReturn(db, q.borrow, q.user, q.newOp, op) == Commit(after)
    ensures q.borrow in db.borrows && db.borrows[q.borrow].status == Borrowed
    ensures after.borrows == db.borrows[q.borrow := db.borrows[q.borrow].(status := Returning)]
    ensures q.newOp !in db.ops && after.ops == db.ops[q.newOp := op.(status := OpAuthorized)]
    ensures op.requestId !in db.requests && after.requests == db.requests[op.requestId := q.newOp]
    ensures !DeviceBusy(db, op.deviceId) && (op.keyId != BLANK ==> !KeyBusy(db, op.keyId))
    ensures after == db.(ops := after.ops, requests := after.requests, borrows := after.borrows, logs := after.logs)
  {
  }

  // ----- what late callers are told ------------------------------------------------------------------------

  /** The rows of a late return's record, as its transaction finds them. */
  predicate StillBorrowed(db: Db, q: ReturnRequest) {
    q.borrow in db.borrows && db.borrows[q.borrow].userId == q.user && db.borrows[q.borrow].status == Borrowed
  }

  /**
   * A return whose transaction comes late and with a new request: it is prepared iff the record is
   * still the caller's and BORROWED and nothing goes on at its cabinet or with its key; otherwise it is
   * refused, and told which of the two it was.
   */
  lemma LateReturnAnswer(seen: Db, db: Db, q: ReturnRequest)
    requires ReturnObstacle(seen, q).None? && NewIds(db, q.request, q.newOp)
    ensures var b := seen.borrows[q.borrow];
            LateReturn(seen, db, q).reply ==
              if !StillBorrowed(db, q) then Refused(InvalidState)
              else if CabinetIdle(db, b.deviceId) && (b.keyId == BLANK || KeyIdle(db, b.keyId)) then Prepared(q.newOp)
              else Refused(Conflict)
  {
    var b := seen.borrows[q.borrow];
    IdleMeans(db, b.deviceId, b.keyId, BLANK);
    if StillBorrowed(db, q) {
      IdleMeans(db.(borrows := db.borrows[q.borrow := db.borrows[q.borrow].(status := Returning)]), b.deviceId, b.keyId,
                BLANK);
    }
  }

  /** The second of two returns: answered with the first if it is the same task, and refused otherwise. */
  lemma LateReturnTwin(seen: Db, db: Db, q: ReturnRequest)
    requires ReturnObstacle(seen, q).None? && RequestIndex(db) && q.request in db.requests
    ensures var first := db.ops[db.requests[q.request]];
            var b := seen.borrows[q.borrow];
            LateReturn(seen, db, q) == Outcome(
              if first.userId != q.user then Refused(Forbidden)
              else if first.deviceId == b.deviceId && first.action == Return && first.keyId == b.keyId
                      && first.reservationId == BLANK && first.borrowId == q.borrow
              then Existing(db.requests[q.request]) else Refused(Conflict), db)
  {
  }

  /**
   * A pickup whose transaction comes late and with a new request: it is prepared iff nothing goes on at
   * its cabinet or with its key; otherwise it is refused as a conflict.
   */
  lemma LatePickupAnswer(seen: Db, db: Db, q: PickupRequest)
    requires PickupObstacle(seen, q).None? && NewIds(db, q.request, q.newOp) && q.newBorrow !in db.borrows
    ensures var op := NewPickup(seen, q).1;
            LatePickup(seen, db, q).reply ==
              if CabinetIdle(db, op.deviceId) && (op.keyId == BLANK || KeyIdle(db, op.keyId)) then Prepared(q.newOp)
              else Refused(Conflict)
  {
    var (borrow, op) := NewPickup(seen, q);
    IdleMeans(db, op.deviceId, op.keyId, BLANK);
    IdleMeans(db.(borrows := db.borrows[q.newBorrow := borrow]), op.deviceId, op.keyId, BLANK);
  }

  // ----- two deliveries of one request ------------------------------------------------------------------

  /** Whoever prepares second finds the request taken. */
  lemma LateTwin(seen: Db, db: Db, q: PickupRequest)
    requires PickupObstacle(seen, q).None? && RequestIndex(db) && q.request in db.requests
    ensures var first := db.ops[db.requests[q.request]];
            var op := NewPickup(seen, q).1;
            LatePickup(seen, db, q) == Outcome(
              if first.userId != q.user then Refused(Forbidden)
              else if first.deviceId == op.deviceId && first.action == Pickup && first.keyId == op.keyId
                      && first.reservationId == q.reservation
              then Existing(db.requests[q.request]) else Refused(Conflict), db)
  {
  }

  /**
   * Two deliveries of one request, both past their checks: the first is prepared, anything may
   * happen, and the second changes nothing and is answered with the operation of the first.
   */
  lemma TwinsShareOneOperation(
    seen: Db, db: Db, first: PickupRequest, asked: Db, steps: seq<Step>, later: Db, second: PickupRequest)
    requires PickupObstacle(seen, first).None? && PickupObstacle(seen, second).None?
    requires second.user == first.user && second.reservation == first.reservation && second.request == first.request
    requires LatePickup(seen, db, first) == Outcome(Prepared(first.newOp), asked) && Coupled(asked)
    requires later == Exec(asked, steps)
    ensures LatePickup(seen, later, second) == Outcome(Existing(first.newOp), later)
  {
    FirstIsStored(seen, db, first, asked);
    RunIsIndexed(asked, steps);
    TwinAnswered(seen, asked, later, first, second);
  }

  lemma FirstIsStored(seen: Db, db: Db, first: PickupRequest, asked: Db)
    requires PickupObstacle(seen, first).None?
    requires LatePickup(seen, db, first) == Outcome(Prepared(first.newOp), asked)
    ensures first.newOp in asked.ops && asked.ops[first.newOp] == NewPickup(seen, first).1.(status := OpAuthorized)
    ensures first.request in asked.requests && asked.requests[first.request] == first.newOp
  {
    var (borrow, op) := NewPickup(seen, first);
    LateRows(db, asked, first.newBorrow, borrow, first.newOp, op);
  }

  lemma TwinAnswered(seen: Db, asked: Db, later: Db, first: PickupRequest, second: PickupRequest)
    requires PickupObstacle(seen, first).None? && PickupObstacle(seen, second).None?
    requires second.user == first.user && second.reservation == first.reservation && second.request == first.request
    requires first.newOp in asked.ops && asked.ops[first.newOp] == NewPickup(seen, first).1.(status := OpAuthorized)
    requires first.request in asked.requests && asked.requests[first.request] == first.newOp
    requires RequestsKept(asked, later) && RequestIndex(later)
    ensures LatePickup(seen, later, second) == Outcome(Existing(first.newOp), later)
  {
    LateTwin(seen, later, second);
  }

  // ----- an input --------------------------------------------------------------------------

  const SUCCESS := DeviceEvent(1, 1, 7, EvPickupSuccess, NO_TAG, MINUTE, "", "")
  const SECOND_PICKUP := PickupRequest(1, 1, 2, BLANK, 2, 2, 0, true)
  const SECOND_BORROW := BORROW
  const SECOND_TASK := TASK.(requestId := 2, borrowId := 2)

  const PICKED_UP := Reservation(1, 1, ResUsed, 0, 30 * MINUTE, 2 * HOUR, Some(MINUTE))

  /** The ledger once the first pickup has succeeded. */
  function Lent(): Db {
    Running().(
      ops := map[1 := TASK.(status := OpSuccess, sentAt := Some(0), ackAt := Some(MINUTE), finishedAt := Some(MINUTE))],
      borrows := map[1 := BORROW.(status := Borrowed, borrowedAt := Some(MINUTE))],
      reservations := map[1 := PICKED_UP], keys := map[1 := KEY.(status := KeyBorrowed)],
      slots := map[1 := Slot(1, Absent, true)],
      logs := map[1 := WithEvent(Running().logs[1], EvSuccess, NO_TAG, MINUTE)])
  }

  lemma PickedUpRows(db: Db)
    requires db == Running()
    ensures PickedUp(db, db.ops[1], MINUTE) == Lent().(ops := db.ops, logs := db.logs)
  {
    var back := PickedUp(db, db.ops[1], MINUTE);
    assert back.reservations == Lent().reservations && back.borrows == Lent().borrows;
    assert back.keys == Lent().keys && back.slots == Lent().slots;
  }

  lemma LentIsReached()
    ensures Exec(Start(), [Reserve(RESERVE), AskPickup(PICKUP), Begin(1, 0)] + [Report(SUCCESS, true)]) == Lent()
  {
    RunningIsReached();
    ExecMore(Start(), [Reserve(RESERVE), AskPickup(PICKUP), Begin(1, 0)], Report(SUCCESS, true));
    SuccessLends(Running());
  }

  lemma SuccessLends(db: Db)
    requires db == Running()
    ensures After(db, Report(SUCCESS, true)) == Lent()
  {
    PickedUpRows(db);
    Concludes(db, PickedUp(db, db.ops[1], MINUTE));
    assert CompletePickup(db, 1, MINUTE) == Commit(Lent());
    assert OnDeviceEvent(db, SUCCESS, true) == CompletePickup(db, 1, MINUTE);
  }

  lemma Concludes(db: Db, back: Db)
    requires db == Running() && back == Lent().(ops := db.ops, logs := db.logs)
    ensures EndOp(back, 1, OpSuccess, "", "", EvSuccess, MINUTE) == Lent()
  {
    var end := EndOp(back, 1, OpSuccess, "", "", EvSuccess, MINUTE);
    assert end.ops == Lent().ops;
    assert end.logs == Lent().logs;
  }

  lemma SecondPasses()
    ensures PickupObstacle(Reserved(), SECOND_PICKUP).None?
    ensures NewPickup(Reserved(), SECOND_PICKUP) == (SECOND_BORROW, SECOND_TASK)
  {
    assert PickupObstacle(Reserved(), SECOND_PICKUP) == None;
  }

  /** With fresh ids, an unused request and no active operation, nothing stops the transaction. */
  lemma LateIsPrepared(db: Db, borrowId: Id, borrow: Borrow, id: Id, op: Operation)
    requires borrowId !in db.borrows && id !in db.ops && op.requestId !in db.requests
    requires forall o | o in db.ops :: !Active(db, o)
    ensures PreparePickup(db, borrowId, borrow, id, op).Commit?
  {
  }

  /**
   * Two pickups of one key pass their checks; the first lends it, and then the second is prepared:
   * two open borrows.
   */
  lemma LentTwice()
    ensures PickupObstacle(Reserved(), SECOND_PICKUP).None?
    ensures var late := LatePickup(Reserved(), Lent(), SECOND_PICKUP);
            late.reply.Prepared? && Open(late.db, 1) && Open(late.db, 2) && !Coupled(late.db)
  {
    SecondPasses();
    SecondPrepared(Lent());
  }

  lemma SecondPrepared(lent: Db)
    requires lent == Lent() && PickupObstacle(Reserved(), SECOND_PICKUP).None?
    requires NewPickup(Reserved(), SECOND_PICKUP) == (SECOND_BORROW, SECOND_TASK)
    ensures var late := LatePickup(Reserved(), lent, SECOND_PICKUP);
            late.reply.Prepared? && Open(late.db, 1) && Open(late.db, 2) && !Coupled(late.db)
  {
    LateIsPrepared(lent, 2, SECOND_BORROW, 2, SECOND_TASK);
    SecondOpens(lent, PreparePickup(lent, 2, SECOND_BORROW, 2, SECOND_TASK).db);
  }

  lemma SecondOpens(lent: Db, after: Db)
    requires PreparePickup(lent, 2, SECOND_BORROW, 2, SECOND_TASK) == Commit(after)
    requires lent.borrows.Keys == {1} && lent.borrows[1].status == Borrowed && lent.borrows[1].keyId == 1
    ensures Open(after, 1) && Open(after, 2) && !Coupled(after)
  {
    LateRows(lent, after, 2, SECOND_BORROW, 2, SECOND_TASK);
    TwoOpen(after, 1, 2);
  }
}
