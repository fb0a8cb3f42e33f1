/** No double booking, and the availability answer. */
module Bookings {
  import opened LedgerTypes
  import opened ReservationTx
  import opened Services
  import opened Steps
  import opened Coupling
  import opened Moves
  import opened CouplingRuns
  import opened StartRules
  import opened ReserveRules

  /** Two reservations of one key ask for a common moment. */
  predicate Clash(a: Reservation, b: Reservation) {
    a.keyId == b.keyId && Overlap(a.windowStart, a.returnAt, b.windowStart, b.returnAt)
  }

  ghost predicate ActivesApart(db: Db) {
    forall r1, r2 | r1 in db.reservations && r2 in db.reservations && r1 != r2
      && IsActiveReservation(db.reservations[r1].status) && IsActiveReservation(db.reservations[r2].status) ::
      !Clash(db.reservations[r1], db.reservations[r2])
  }

  /** A borrow, for as long as it was promised, is in the way of reservation `r`. */
  predicate InTheWay(db: Db, borrow: Borrow, r: Id)
    requires r in db.reservations
  {
    && borrow.keyId == db.reservations[r].keyId
    && if borrow.reservationId == BLANK
       then Overlap(borrow.createdAt, borrow.expectedReturnAt, db.reservations[r].windowStart,
           db.reservations[r].returnAt)
       else && borrow.reservationId in db.reservations && r != borrow.reservationId
            && Clash(db.reservations[borrow.reservationId], db.reservations[r])
  }

  ghost predicate BorrowsApart(db: Db) {
    forall b, r | Open(db, b) && r in db.reservations && IsActiveReservation(db.reservations[r].status) ::
      !InTheWay(db, db.borrows[b], r)
  }

  ghost predicate WellOrdered(db: Db) {
    forall r | r in db.reservations :: db.reservations[r].windowStart < db.reservations[r].returnAt
  }

  ghost predicate Booked(db: Db) {
    ActivesApart(db) && BorrowsApart(db) && WellOrdered(db)
  }

  lemma ReservesApart(db: Db, after: Db)
    requires Booked(db) && OnlyReserves(db, after)
    ensures ActivesApart(after) && WellOrdered(after)
  {
    forall r1, r2 | r1 in after.reservations && r2 in after.reservations && r1 != r2
      && IsActiveReservation(after.reservations[r1].status) && IsActiveReservation(after.reservations[r2].status)
      ensures !Clash(after.reservations[r1], after.reservations[r2])
    {
      if r1 in db.reservations && r2 in db.reservations {
        assert !Clash(db.reservations[r1], db.reservations[r2]);
      } else {
        var (n, o) := if r1 in db.reservations then (r2, r1) else (r1, r2);
        FreeOf(db, o, after.reservations[n]);
      }
    }
  }

  lemma FreeOf(db: Db, r: Id, n: Reservation)
    requires r in db.reservations && IsActiveReservation(db.reservations[r].status)
    requires !HasConflict(db, n.keyId, n.windowStart, n.returnAt)
    ensures !Clash(db.reservations[r], n)
  {
    assert !(ActiveFor(db, r, n.keyId)
           && Overlap(db.reservations[r].windowStart, db.reservations[r].returnAt, n.windowStart, n.returnAt));
  }

  lemma ReservesBorrowsApart(db: Db, after: Db)
    requires Booked(db) && OnlyReserves(db, after)
    requires forall b | Open(db, b) && db.borrows[b].reservationId != BLANK ::
             db.borrows[b].reservationId in db.reservations
    ensures BorrowsApart(after)
  {
    forall b, r | Open(after, b) && r in after.reservations && IsActiveReservation(after.reservations[r].status)
      ensures !InTheWay(after, after.borrows[b], r)
    {
      assert Open(db, b);
      if r in db.reservations {
        assert !InTheWay(db, db.borrows[b], r);
      } else {
        assert !HasOpenBorrow(db, after.reservations[r].keyId);
      }
    }
  }

  /** Open reservation-backed borrows name an existing reservation. */
  ghost predicate BackingKnown(db: Db) {
    forall b | Open(db, b) && db.borrows[b].reservationId != BLANK :: db.borrows[b].reservationId in db.reservations
  }

  lemma BeginBooked(db: Db, after: Db, id: Id)
    requires Booked(db) && BackingKnown(db) && Began(db, after, id)
    ensures Booked(after) && BackingKnown(after)
  {
    var op := after.ops[id];
    forall b | Open(after, b) && b != op.borrowId ensures Open(db, b) {}
    forall b, r | Open(after, b) && r in after.reservations && IsActiveReservation(after.reservations[r].status)
      ensures !InTheWay(after, after.borrows[b], r)
    {
      if b in db.borrows {
        assert Open(db, b) && !InTheWay(db, db.borrows[b], r);
      } else {
        NewBorrowApart(db, after, id, r);
      }
    }
  }

  lemma NewBorrowApart(db: Db, after: Db, id: Id, r: Id)
    requires Booked(db) && StartsPickup(db, after, id)
    requires r in after.reservations && IsActiveReservation(after.reservations[r].status)
    ensures !InTheWay(after, after.borrows[after.ops[id].borrowId], r)
  {
    var borrow := after.borrows[after.ops[id].borrowId];
    if borrow.reservationId == BLANK {
      assert !(ActiveFor(db, r, borrow.keyId)
               && Overlap(db.reservations[r].windowStart, db.reservations[r].returnAt, borrow.createdAt,
                    borrow.expectedReturnAt));
    } else if r != borrow.reservationId {
      assert !Clash(db.reservations[borrow.reservationId], db.reservations[r]);
    }
  }

  lemma FinishBooked(db: Db, after: Db, id: Id)
    requires NoBlankRows(db) && Booked(db) && BackingKnown(db) && Finished(db, after, id)
    ensures Booked(after) && BackingKnown(after)
  {
    FinishSameBookings(db, after, id);
    FinishSameLoans(db, after, id);
    SameStaysBooked(db, after);
  }

  lemma FinishSameLoans(db: Db, after: Db, id: Id)
    requires Ends(db, after, id)
    ensures forall b | Open(after, b) :: Open(db, b) && SameLoan(after.borrows[b], db.borrows[b])
  {
    assert Linked(db, db.ops[id]);
  }

  /** Bookings that end, and borrows that end, leave the rest apart. */
  lemma SameStaysBooked(db: Db, after: Db)
    requires Booked(db) && BackingKnown(db) && after.reservations.Keys == db.reservations.Keys
    requires forall b | Open(after, b) :: Open(db, b) && SameLoan(after.borrows[b], db.borrows[b])
    requires forall r | r in db.reservations ::
               && SameBooking(after.reservations[r], db.reservations[r])
               && (IsActiveReservation(after.reservations[r].status) ==> IsActiveReservation(db.reservations[r].status))
    ensures Booked(after) && BackingKnown(after)
  {
    forall b, r | Open(after, b) && r in after.reservations && IsActiveReservation(after.reservations[r].status)
      ensures !InTheWay(after, after.borrows[b], r)
    {
      assert Open(db, b) && !InTheWay(db, db.borrows[b], r);
    }
  }

  lemma FinishSameBookings(db: Db, after: Db, id: Id)
    requires NoBlankRows(db) && Finished(db, after, id)
    ensures after.reservations.Keys == db.reservations.Keys
    ensures forall r | r in db.reservations ::
              && SameBooking(after.reservations[r], db.reservations[r])
              && (IsActiveReservation(after.reservations[r].status) ==> IsActiveReservation(db.reservations[r].status))
  {
  }

  lemma SeenBooked(db: Db, after: Db)
    requires Booked(db) && BackingKnown(db) && OnlySeen(db, after)
    ensures Booked(after) && BackingKnown(after)
  {
    forall b ensures Open(after, b) <==> Open(db, b) {}
    forall b, r | Open(after, b) && r in after.reservations && IsActiveReservation(after.reservations[r].status)
      ensures !InTheWay(after, after.borrows[b], r)
    {
      assert !InTheWay(db, db.borrows[b], r);
    }
  }

  lemma MoveBooked(db: Db, after: Db)
    requires NoBlankRows(db) && Booked(db) && BackingKnown(db) && Moved(db, after)
    ensures Booked(after) && BackingKnown(after)
  {
    if OnlyTouched(db, after) {
      forall b ensures Open(after, b) <==> Open(db, b) {}
      forall b, r | Open(after, b) && r in after.reservations && IsActiveReservation(after.reservations[r].status)
        ensures !InTheWay(after, after.borrows[b], r)
      {
        assert !InTheWay(db, db.borrows[b], r);
      }
    } else if OnlySeen(db, after) {
      SeenBooked(db, after);
    } else if OnlyReserves(db, after) {
      ReservesApart(db, after);
      ReservesBorrowsApart(db, after);
      forall b ensures Open(after, b) <==> Open(db, b) {}
    } else if id :| Began(db, after, id) {
      BeginBooked(db, after, id);
    } else {
      var id :| Finished(db, after, id);
      FinishBooked(db, after, id);
    }
  }

  /**
   * No double booking in any reachable ledger: active reservations of a key have disjoint
   * ranges, and none of them overlaps the time an open borrow of the key was promised.
   */
  lemma {:induction false} NeverDoubleBooked(db: Db, steps: seq<Step>)
    requires Coupled(db) && Booked(db) && BackingKnown(db)
    ensures Booked(Exec(db, steps)) && BackingKnown(Exec(db, steps))
  {
    if steps != [] {
      var before := steps[..|steps| - 1];
      NeverDoubleBooked(db, before);
      RunKeeps(db, before);
      StepMoves(Exec(db, before), steps[|steps| - 1]);
      MoveBooked(Exec(db, before), Exec(db, steps));
    }
  }

  // ----- availability ---------------------------------------------------------------

  /** On stored non-empty ranges the per-user check finds nothing FindConflicts would miss. */
  lemma UserCheckImplied(db: Db, user: Id, key: Id, start: Time, end: Time)
    requires WellOrdered(db) && start < end && UserHasConflict(db, user, key, start, end)
    ensures HasConflict(db, key, start, end)
  {
  }

  /** A wider free range contains every narrower one. */
  lemma FreeInside(db: Db, key: Id, s: Time, e: Time, start: Time, end: Time)
    requires s <= start && end <= e && !HasConflict(db, key, s, e)
    ensures !HasConflict(db, key, start, end)
  {
    forall r | r in db.reservations && ActiveFor(db, r, key)
      ensures !Overlap(db.reservations[r].windowStart, db.reservations[r].returnAt, start, end)
    {
      assert !Overlap(db.reservations[r].windowStart, db.reservations[r].returnAt, s, e);
    }
  }

  /** A proper request by a verified user: fresh id, window and return in order. */
  predicate ProperRequest(db: Db, q: ReserveRequest) {
    && q.user != BLANK && q.key != BLANK && Verified(db, q.user) && q.newReservation !in db.reservations
    && StartOf(q) < EndOf(q) < ReturnOf(q)
  }

  /** Reserving succeeds exactly if CanReserveKey says so for the reserved range. */
  lemma AvailabilityExact(db: Db, q: ReserveRequest, now: Time)
    requires WellOrdered(db) && ProperRequest(db, q)
    ensures CreateReservation(db, q).Commit?
            <==> CanReserveKey(db, q.key, Some(StartOf(q)), Some(ReturnOf(q)), now) == Some(true)
  {
    if UserHasConflict(db, q.user, q.key, StartOf(q), ReturnOf(q)) {
      UserCheckImplied(db, q.user, q.key, StartOf(q), ReturnOf(q));
    }
  }

  /** If [s, e) is announced free, every proper window inside it can be reserved. */
  lemma AvailabilitySound(db: Db, q: ReserveRequest, s: Time, e: Time, now: Time)
    requires WellOrdered(db) && ProperRequest(db, q)
    requires CanReserveKey(db, q.key, Some(s), Some(e), now) == Some(true)
    requires s <= StartOf(q) && ReturnOf(q) <= e
    ensures CreateReservation(db, q).Commit?
  {
    FreeInside(db, q.key, s, e, StartOf(q), ReturnOf(q));
    AvailabilityExact(db, q, now);
  }

  /**
   * What CanReserveKey answers for a key, on the rows: free iff it is in service and not lent, its
   * cabinet is online, and no reservation shares a moment with the time asked about, which is the next
   * two hours if nothing is said.
   */
  lemma AvailabilityIff(db: Db, key: Id, start: Option<Time>, end: Option<Time>, now: Time, from: Time, to: Time)
    requires from == (match start case Some(t) => t case None => now)
    requires to == (match end case Some(t) => t case None => from + 2 * 3600 * 1000)
    ensures CanReserveKey(db, key, start, end, now) == Some(true) <==>
              && key in db.keys && Offered(db.keys[key]) && NotLent(db, key)
              && db.keys[key].deviceId in db.devices && db.devices[db.keys[key].deviceId] == Online
              && from < to && Unreserved(db, key, from, to)
  {
    IdleMeans(db, BLANK, key, BLANK);
    UnreservedMeans(db, key, from, to);
    if key in db.keys {
      OfferedMeans(db.keys[key]);
    }
  }
}
