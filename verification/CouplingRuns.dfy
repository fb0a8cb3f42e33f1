/** Every move keeps the coupling invariant, so every reachable ledger satisfies it. */
module CouplingRuns {
  import opened LedgerTypes
  import opened OperationTx
  import opened ReservationTx
  import opened Services
  import opened Steps
  import opened Coupling
  import opened Moves

  lemma TouchKeepsLinks(db: Db, after: Db)
    requires OpsLinked(db) && BorrowsHeld(db) && OneActive(db) && OnlyTouched(db, after)
    ensures OpsLinked(after) && BorrowsHeld(after) && OneActive(after)
  {
    forall o ensures Active(after, o) <==> Active(db, o) {}
    forall o | Active(after, o) ensures Linked(after, after.ops[o]) {
      assert Linked(db, db.ops[o]);
    }
    forall b | b in after.borrows && after.borrows[b].status in {Borrowing, Returning}
      ensures exists o :: Holds(after, o, b)
    {
      var o :| Holds(db, o, b);
      assert Holds(after, o, b);
    }
  }

  /** The key clauses, when keys stay out (or in) with the same borrows. */
  lemma SameOut(db: Db, after: Db)
    requires KeysOut(db) && KeysOnlyReserved(db, after)
    requires forall b, k :: KeepsOut(after, b, k) <==> KeepsOut(db, b, k)
    ensures KeysOut(after)
  {
    forall k ensures IsOut(after, k) <==> IsOut(db, k) {}
  }

  lemma SameBacked(db: Db, after: Db)
    requires ReservedBacked(db)
    requires after.reservations == db.reservations && after.keys.Keys == db.keys.Keys
    requires forall k | k in db.keys && after.keys[k].status == KeyReserved :: db.keys[k].status == KeyReserved
    ensures ReservedBacked(after)
  {
    forall k | k in after.keys && after.keys[k].status == KeyReserved ensures HasActive(after, k) {
      SameActive(db, after, k);
    }
  }

  lemma TouchKeeps(db: Db, after: Db)
    requires Coupled(db) && OnlyTouched(db, after)
    ensures Coupled(after)
  {
    TouchKeepsLinks(db, after);
    forall b, k ensures KeepsOut(after, b, k) <==> KeepsOut(db, b, k) {}
    SameOut(db, after);
    SameBacked(db, after);
    forall b ensures Open(after, b) <==> Open(db, b) {}
  }

  /** What a slot reports touches nothing the invariant is about. */
  lemma SeenKeeps(db: Db, after: Db)
    requires Coupled(db) && OnlySeen(db, after)
    ensures Coupled(after)
  {
    forall o ensures Active(after, o) <==> Active(db, o) {}
    forall o | Active(after, o) ensures Linked(after, after.ops[o]) {
      assert Linked(db, db.ops[o]);
    }
    forall b | b in after.borrows && after.borrows[b].status in {Borrowing, Returning}
      ensures exists o :: Holds(after, o, b)
    {
      var o :| Holds(db, o, b);
      assert Holds(after, o, b);
    }
    forall b, k ensures KeepsOut(after, b, k) <==> KeepsOut(db, b, k) {}
    SameOut(db, after);
    SameBacked(db, after);
    forall b ensures Open(after, b) <==> Open(db, b) {}
  }

  lemma ReservesKeepsLinks(db: Db, after: Db)
    requires OpsLinked(db) && BorrowsHeld(db) && OneActive(db) && WritesReservations(db, after)
    ensures OpsLinked(after) && BorrowsHeld(after) && OneActive(after)
  {
    forall o ensures Active(after, o) <==> Active(db, o) {}
    forall o | Active(after, o) ensures Linked(after, after.ops[o]) {
      assert Linked(db, db.ops[o]);
    }
    forall b | b in after.borrows && after.borrows[b].status in {Borrowing, Returning}
      ensures exists o :: Holds(after, o, b)
    {
      var o :| Holds(db, o, b);
      assert Holds(after, o, b);
    }
  }

  lemma ReservesKeeps(db: Db, after: Db)
    requires Coupled(db) && WritesReservations(db, after)
    ensures Coupled(after)
  {
    ReservesKeepsLinks(db, after);
    forall b, k ensures KeepsOut(after, b, k) <==> KeepsOut(db, b, k) {}
    SameOut(db, after);
    forall b ensures Open(after, b) <==> Open(db, b) {}
  }

  // ----- starting ---------------------------------------------------------------------

  lemma StartsKeepsIndexes(db: Db, after: Db, id: Id)
    requires NoBlankRows(db) && Bound(db) && RequestIndex(db) && OneActive(db) && Starts(db, after, id)
    ensures NoBlankRows(after) && Bound(after) && RequestIndex(after) && OneActive(after)
  {
    forall o ensures Active(after, o) <==> o == id || Active(db, o) {}
  }

  lemma StartsKeepsLinks(db: Db, after: Db, id: Id)
    requires OpsLinked(db) && BorrowsHeld(db) && Starts(db, after, id)
    ensures OpsLinked(after) && BorrowsHeld(after)
  {
    var op := after.ops[id];
    forall o | Active(after, o) ensures Linked(after, after.ops[o]) {
      if o != id {
        assert Active(db, o) && Linked(db, db.ops[o]);
        assert db.ops[o].borrowId != op.borrowId;
      }
    }
    forall b | b in after.borrows && after.borrows[b].status in {Borrowing, Returning}
      ensures exists o :: Holds(after, o, b)
    {
      if b == op.borrowId {
        assert Holds(after, id, b);
      } else {
        var o :| Holds(db, o, b);
        assert Holds(after, o, b);
      }
    }
  }

  /** A new pickup on a key without an open borrow. */
  lemma StartsPickupKeeps(db: Db, after: Db, id: Id)
    requires Coupled(db) && Starts(db, after, id)
    requires after.ops[id].action == Pickup && after.ops[id].borrowId !in db.borrows
             && !HasOpenBorrow(db, after.ops[id].keyId)
    ensures Coupled(after)
  {
    var op := after.ops[id];
    StartsKeepsIndexes(db, after, id);
    StartsKeepsLinks(db, after, id);
    SameBacked(db, after);
    forall b ensures Open(after, b) <==> b == op.borrowId || Open(db, b) {}
    forall b | Open(db, b) ensures db.borrows[b].keyId != op.keyId {}
    forall b, k ensures KeepsOut(after, b, k) <==> KeepsOut(db, b, k) {}
    SameOut(db, after);
  }

  /** A return puts a BORROWED record to work; its key stays out. */
  lemma StartsReturnKeeps(db: Db, after: Db, id: Id)
    requires Coupled(db) && StartsReturn(db, after, id)
    ensures Coupled(after)
  {
    StartsKeepsIndexes(db, after, id);
    StartsKeepsLinks(db, after, id);
    SameBacked(db, after);
    forall b ensures Open(after, b) <==> Open(db, b) {}
    forall b, k ensures KeepsOut(after, b, k) <==> KeepsOut(db, b, k) {}
    SameOut(db, after);
  }

  // ----- ending ------------------------------------------------------------------------

  /** Another active operation shares neither borrow, key nor slot. */
  lemma OthersApart(db: Db, id: Id, o: Id)
    requires Bound(db) && OpsLinked(db) && OneActive(db) && Active(db, id) && Active(db, o) && o != id
    ensures Linked(db, db.ops[o])
    ensures db.ops[o].keyId != db.ops[id].keyId
    ensures db.ops[o].borrowId != db.ops[id].borrowId
    ensures db.ops[o].slotId != db.ops[id].slotId
  {
    assert Linked(db, db.ops[o]) && Linked(db, db.ops[id]);
  }

  lemma EndsKeepsIndexes(db: Db, after: Db, id: Id)
    requires NoBlankRows(db) && Bound(db) && RequestIndex(db) && OneActive(db) && Ends(db, after, id)
    ensures NoBlankRows(after) && Bound(after) && RequestIndex(after) && OneActive(after)
  {
    forall o ensures Active(after, o) <==> Active(db, o) && o != id {}
  }

  lemma EndsKeepsLinks(db: Db, after: Db, id: Id)
    requires Bound(db) && OpsLinked(db) && OneActive(db) && BorrowsHeld(db) && Ends(db, after, id)
    requires forall r | r in db.reservations :: after.reservations[r].keyId == db.reservations[r].keyId
    ensures OpsLinked(after) && BorrowsHeld(after)
  {
    forall o | Active(after, o) ensures Linked(after, after.ops[o]) {
      assert Active(db, o) && o != id;
      OthersApart(db, id, o);
    }
    forall b | b in after.borrows && after.borrows[b].status in {Borrowing, Returning}
      ensures exists o :: Holds(after, o, b)
    {
      var o :| Holds(db, o, b);
      assert Holds(after, o, b);
    }
  }

  lemma EndsKeepsOpen(db: Db, after: Db, id: Id)
    requires OneOpen(db) && Ends(db, after, id)
    ensures OneOpen(after)
  {
    forall b | Open(after, b) ensures Open(db, b) && after.borrows[b].keyId == db.borrows[b].keyId {}
  }

  lemma EndsKeepsRows(db: Db, after: Db, id: Id)
    requires Coupled(db) && Ends(db, after, id)
    requires forall r | r in db.reservations :: after.reservations[r].keyId == db.reservations[r].keyId
    ensures NoBlankRows(after) && Bound(after) && RequestIndex(after) && OneActive(after)
    ensures OpsLinked(after) && BorrowsHeld(after) && OneOpen(after)
  {
    EndsKeepsIndexes(db, after, id);
    EndsKeepsLinks(db, after, id);
    EndsKeepsOpen(db, after, id);
  }

  lemma AbandonsKeeps(db: Db, after: Db, id: Id)
    requires Coupled(db) && Abandons(db, after, id)
    ensures Coupled(after)
  {
    EndsKeepsRows(db, after, id);
    AbandonsSameOut(db, after, id);
    SameOut(db, after);
    SameBacked(db, after);
  }

  /** A failed return leaves its key out, a failed pickup leaves it in. */
  lemma AbandonsSameOut(db: Db, after: Db, id: Id)
    requires Abandons(db, after, id)
    ensures forall b, k :: KeepsOut(after, b, k) <==> KeepsOut(db, b, k)
  {
  }

  lemma PickupOut(db: Db, after: Db, id: Id)
    requires KeysOut(db) && Bound(db) && PicksUp(db, after, id)
    ensures KeysOut(after)
    ensures forall k :: IsOut(after, k) <==> k == db.ops[id].keyId || IsOut(db, k)
    ensures !IsOut(db, db.ops[id].keyId)
  {
    var op := db.ops[id];
    forall b, k
      ensures KeepsOut(after, b, k) <==> (b == op.borrowId && k == op.keyId) || (b != op.borrowId && KeepsOut(db, b, k))
    {}
    forall k ensures IsOut(after, k) <==> k == op.keyId || IsOut(db, k) {}
    forall b, k | KeepsOut(after, b, k) ensures IsOut(after, k) {
      if b != op.borrowId { assert IsOut(db, k); }
    }
    forall k | IsOut(after, k) ensures exists b :: KeepsOut(after, b, k) {
      if k == op.keyId {
        assert KeepsOut(after, op.borrowId, k);
      } else {
        var b :| KeepsOut(db, b, k);
        assert KeepsOut(after, b, k);
      }
    }
  }

  lemma PickupBacked(db: Db, after: Db, id: Id)
    requires NoBlankRows(db) && ReservedBacked(db) && PicksUp(db, after, id)
    ensures ReservedBacked(after)
  {
    var op := db.ops[id];
    forall k | k in after.keys && after.keys[k].status == KeyReserved ensures HasActive(after, k) {
      assert k != op.keyId && db.keys[k].status == KeyReserved;
      var r :| r in db.reservations && ActiveFor(db, r, k);
      assert r != op.reservationId;
      assert ActiveFor(after, r, k);
    }
  }

  lemma PicksUpKeeps(db: Db, after: Db, id: Id)
    requires Coupled(db) && PicksUp(db, after, id)
    ensures Coupled(after)
  {
    EndsKeepsRows(db, after, id);
    PickupOut(db, after, id);
    PickupBacked(db, after, id);
  }

  lemma ReturnIn(db: Db, after: Db, id: Id)
    requires KeysOut(db) && OneOpen(db) && Bound(db) && GivesBack(db, after, id)
    ensures KeysOut(after)
    ensures forall k :: IsOut(after, k) <==> k != db.ops[id].keyId && IsOut(db, k)
    ensures IsOut(db, db.ops[id].keyId)
  {
    var op := db.ops[id];
    assert Open(db, op.borrowId);
    assert KeepsOut(db, op.borrowId, op.keyId);
    forall b, k ensures KeepsOut(after, b, k) <==> b != op.borrowId && KeepsOut(db, b, k) {}
    forall b, k | KeepsOut(after, b, k) ensures IsOut(after, k) && k != op.keyId {
      assert Open(db, b);
      assert IsOut(db, k);
    }
    forall k | IsOut(after, k) ensures exists b :: KeepsOut(after, b, k) {
      assert IsOut(db, k) && k != op.keyId;
      var b :| KeepsOut(db, b, k);
      assert KeepsOut(after, b, k);
    }
  }

  lemma GivesBackKeeps(db: Db, after: Db, id: Id)
    requires Coupled(db) && GivesBack(db, after, id)
    ensures Coupled(after)
  {
    EndsKeepsRows(db, after, id);
    ReturnIn(db, after, id);
    ReturnBacked(db, after, id);
  }

  lemma ReturnBacked(db: Db, after: Db, id: Id)
    requires ReservedBacked(db) && GivesBack(db, after, id)
    ensures ReservedBacked(after)
  {
    SameBacked(db, after);
  }

  // ----- runs ------------------------------------------------------------------------------

  lemma MoveKeeps(db: Db, after: Db)
    requires Coupled(db) && Moved(db, after)
    ensures Coupled(after)
  {
    if OnlyTouched(db, after) {
      TouchKeeps(db, after);
    } else if OnlySeen(db, after) {
      SeenKeeps(db, after);
    } else if OnlyReserves(db, after) {
      ReservesKeeps(db, after);
    } else if id :| Began(db, after, id) {
      if StartsPickup(db, after, id) {
        StartsPickupKeeps(db, after, id);
      } else {
        StartsReturnKeeps(db, after, id);
      }
    } else {
      var id :| Finished(db, after, id);
      if Abandons(db, after, id) {
        AbandonsKeeps(db, after, id);
      } else if PicksUp(db, after, id) {
        PicksUpKeeps(db, after, id);
      } else {
        GivesBackKeeps(db, after, id);
      }
    }
  }

  lemma StepKeeps(db: Db, step: Step)
    requires Coupled(db)
    ensures Coupled(After(db, step))
  {
    StepMoves(db, step);
    MoveKeeps(db, After(db, step));
  }

  /** The coupling invariant holds in every reachable state. */
  lemma {:induction false} RunKeeps(db: Db, steps: seq<Step>)
    requires Coupled(db)
    ensures Coupled(Exec(db, steps))
  {
    if steps != [] {
      RunKeeps(db, steps[..|steps| - 1]);
      StepKeeps(Exec(db, steps[..|steps| - 1]), steps[|steps| - 1]);
    }
  }
}
