/**
 * The coupling invariant that ties operations, borrow records, reservations and keys
 * together. What slots report is another matter: see SlotReports. No single transaction states it;
 * every one of them relies on it.
 */
module Coupling {
  import opened LedgerTypes
  import opened OperationTx
  import opened ReservationTx

  ghost predicate NoBlankRows(db: Db) {
    BLANK !in db.ops && BLANK !in db.borrows && BLANK !in db.reservations && BLANK !in db.keys && BLANK !in db.slots
  }

  /** Bindings: no two keys share a slot. */
  ghost predicate Bound(db: Db) {
    forall k1, k2 | k1 in db.keys && k2 in db.keys :: db.keys[k1].slotId == db.keys[k2].slotId ==> k1 == k2
  }

  /** The unique index on request_id. */
  ghost predicate RequestIndex(db: Db) {
    && (forall q | q in db.requests :: db.requests[q] in db.ops && db.ops[db.requests[q]].requestId == q)
    && (forall o | o in db.ops :: db.ops[o].requestId in db.requests && db.requests[db.ops[o].requestId] == o)
  }

  function WorkingStatus(action: Action): BorrowStatus {
    if action == Pickup then Borrowing else Returning
  }

  /** An active operation owns a borrow in its working status, for a key in the matching state. */
  predicate Linked(db: Db, op: Operation) {
    && op.borrowId in db.borrows && op.keyId in db.keys && op.slotId in db.slots
    && var borrow := db.borrows[op.borrowId];
    && borrow.keyId == op.keyId
    && borrow.status == WorkingStatus(op.action)
    && db.keys[op.keyId].slotId == op.slotId
    && (op.action == Pickup ==>
          && borrow.reservationId == op.reservationId
          && db.keys[op.keyId].status in {KeyAvailable, KeyReserved}
          && (op.reservationId != BLANK ==>
                op.reservationId in db.reservations && db.reservations[op.reservationId].keyId == op.keyId))
  }

  ghost predicate OpsLinked(db: Db) {
    forall o | Active(db, o) :: Linked(db, db.ops[o])
  }

  /** The unique indexes on active device and active key. */
  ghost predicate OneActive(db: Db) {
    forall o1, o2 | Active(db, o1) && Active(db, o2) ::
      db.ops[o1].keyId == db.ops[o2].keyId || db.ops[o1].deviceId == db.ops[o2].deviceId ==> o1 == o2
  }

  predicate Holds(db: Db, o: Id, b: Id) {
    Active(db, o) && db.ops[o].borrowId == b && b in db.borrows
        && db.borrows[b].status == WorkingStatus(db.ops[o].action)
  }

  ghost predicate BorrowsHeld(db: Db) {
    forall b | b in db.borrows && db.borrows[b].status in {Borrowing, Returning} :: exists o :: Holds(db, o, b)
  }

  predicate Open(db: Db, b: Id) {
    b in db.borrows && IsOpen(db.borrows[b].status)
  }

  ghost predicate OneOpen(db: Db) {
    forall b1, b2 | Open(db, b1) && Open(db, b2) :: db.borrows[b1].keyId == db.borrows[b2].keyId ==> b1 == b2
  }

  /** Borrow b has key k out of its slot. */
  predicate KeepsOut(db: Db, b: Id, k: Id) {
    b in db.borrows && db.borrows[b].keyId == k && db.borrows[b].status in {Borrowed, Returning}
  }

  predicate IsOut(db: Db, k: Id) {
    k in db.keys && db.keys[k].status == KeyBorrowed
  }

  ghost predicate KeysOut(db: Db) {
    && (forall b, k | KeepsOut(db, b, k) :: IsOut(db, k))
    && (forall k | IsOut(db, k) :: exists b :: KeepsOut(db, b, k))
  }

  ghost predicate ReservedBacked(db: Db) {
    forall k | k in db.keys && db.keys[k].status == KeyReserved :: HasActive(db, k)
  }

  ghost predicate Coupled(db: Db) {
    && NoBlankRows(db) && Bound(db) && RequestIndex(db)
    && OpsLinked(db) && OneActive(db) && BorrowsHeld(db)
    && OneOpen(db) && KeysOut(db) && ReservedBacked(db)
  }

  // ----- what readers take from it --------------------------------------------

  /** The operation working on a borrow is unique. */
  lemma HolderUnique(db: Db, o1: Id, o2: Id, b: Id)
    requires Coupled(db) && Holds(db, o1, b) && Holds(db, o2, b)
    ensures o1 == o2
  {
    assert Linked(db, db.ops[o1]) && Linked(db, db.ops[o2]);
  }

  /** A borrow is BORROWING (RETURNING) iff exactly one active pickup (return) refers to it. */
  lemma WorkingIffHeld(db: Db, b: Id)
    requires Coupled(db) && b in db.borrows
    ensures forall action ::
      db.borrows[b].status == WorkingStatus(action)
      <==> exists o :: Active(db, o) && db.ops[o].borrowId == b && db.ops[o].action == action
    ensures forall o1, o2 | Active(db, o1) && Active(db, o2) && db.ops[o1].borrowId == b == db.ops[o2].borrowId ::
            o1 == o2
  {
    forall action ensures
      db.borrows[b].status == WorkingStatus(action)
      <==> exists o :: Active(db, o) && db.ops[o].borrowId == b && db.ops[o].action == action
    {
      if db.borrows[b].status == WorkingStatus(action) {
        var o :| Holds(db, o, b);
        assert Linked(db, db.ops[o]);
      }
      forall o | Active(db, o) && db.ops[o].borrowId == b && db.ops[o].action == action
        ensures db.borrows[b].status == WorkingStatus(action)
      {
        assert Linked(db, db.ops[o]);
      }
    }
    forall o1, o2 | Active(db, o1) && Active(db, o2) && db.ops[o1].borrowId == b == db.ops[o2].borrowId
      ensures o1 == o2
    {
      assert Linked(db, db.ops[o1]) && Linked(db, db.ops[o2]);
    }
  }

  /** A key is BORROWED iff its one open borrow is BORROWED or RETURNING. */
  lemma OutIffLent(db: Db, k: Id)
    requires Coupled(db) && k in db.keys
    ensures db.keys[k].status == KeyBorrowed
            <==> exists b :: Open(db, b) && db.borrows[b].keyId == k && db.borrows[b].status != Borrowing
  {
    if IsOut(db, k) {
      var b :| KeepsOut(db, b, k);
      assert Open(db, b);
    }
    forall b | Open(db, b) && db.borrows[b].keyId == k && db.borrows[b].status != Borrowing ensures IsOut(db, k) {
      assert KeepsOut(db, b, k);
    }
  }
}
