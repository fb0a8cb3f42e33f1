/** Timing operations out one by one: what a sweep without interference leaves behind. */
module SweepOrder {
  import opened LedgerTypes
  import opened OperationTx
  import opened Coupling

  function TimedOut(op: Operation, now: Time): Operation {
    op.(status := OpTimeout, errorCode := "OPERATION_TIMEOUT", errorMessage := "device operation timed out",
        ackAt := Some(now), finishedAt := Some(now))
  }

  function Abandoned(borrow: Borrow, action: Action): Borrow {
    borrow.(status := if action == Return then Borrowed else Exception, notes := TIMEOUT_NOTE)
  }

  ghost predicate Works(db: Db, done: set<Id>, b: Id) {
    exists o | o in done :: o in db.ops && db.ops[o].borrowId == b
  }

  ghost predicate SweptOps(db: Db, after: Db, done: set<Id>, now: Time) {
    && after.ops.Keys == db.ops.Keys
    && (forall o | o in db.ops :: after.ops[o] == if o in done then TimedOut(db.ops[o], now) else db.ops[o])
    && (forall o | o in db.ops ::
          LogOf(after, o) == if o in done then WithEvent(LogOf(db, o), EvTimeout, NO_TAG, now) else LogOf(db, o))
  }

  ghost predicate SweptBorrows(db: Db, after: Db, done: set<Id>) {
    && after.borrows.Keys == db.borrows.Keys
    && (forall o | o in done && o in db.ops ::
          db.ops[o].borrowId in db.borrows
          && after.borrows[db.ops[o].borrowId] == Abandoned(db.borrows[db.ops[o].borrowId], db.ops[o].action))
    && (forall b | b in db.borrows && !Works(db, done, b) :: after.borrows[b] == db.borrows[b])
  }

  /**
   * Exactly the operations in `done`, with their logs and borrow records, have been timed out; all
   * else is untouched.
   */
  ghost predicate Swept(db: Db, after: Db, done: set<Id>, now: Time) {
    && after == db.(ops := after.ops, borrows := after.borrows, logs := after.logs)
    && SweptOps(db, after, done, now) && SweptBorrows(db, after, done)
  }

  lemma SweptNone(db: Db, now: Time)
    ensures Swept(db, db, {}, now)
  {
  }

  /** The operations found are active, each at work on a borrow record of its own. */
  ghost predicate Apart(db: Db, found: set<Id>) {
    && (forall o | o in found ::
          && Active(db, o) && db.ops[o].borrowId != BLANK && db.ops[o].borrowId in db.borrows
          && db.borrows[db.ops[o].borrowId].status in {Borrowing, Returning})
    && (forall o1, o2 | o1 in found && o2 in found :: db.ops[o1].borrowId == db.ops[o2].borrowId ==> o1 == o2)
  }

  lemma ActiveApart(db: Db, found: set<Id>)
    requires Coupled(db) && forall o | o in found :: Active(db, o)
    ensures Apart(db, found)
  {
    forall o | o in found ensures Linked(db, db.ops[o]) {}
  }

  lemma TimeoutWrites(mid: Db, after: Db, o: Id, now: Time)
    requires Active(mid, o) && Timeout(mid, o, now) == Commit(after)
    requires mid.ops[o].borrowId != BLANK && mid.ops[o].borrowId in mid.borrows
    requires mid.borrows[mid.ops[o].borrowId].status in {Borrowing, Returning}
    ensures var b := mid.ops[o].borrowId;
            after == mid.(ops := mid.ops[o := TimedOut(mid.ops[o], now)],
                          borrows := mid.borrows[b := Abandoned(mid.borrows[b], mid.ops[o].action)],
                          logs := mid.logs[o := WithEvent(LogOf(mid, o), EvTimeout, NO_TAG, now)])
  {
  }

  lemma SweptOneMore(db: Db, mid: Db, after: Db, found: set<Id>, done: set<Id>, o: Id, now: Time)
    requires Apart(db, found) && done <= found && o in found && o !in done
    requires Swept(db, mid, done, now) && Timeout(mid, o, now) == Commit(after)
    ensures Swept(db, after, done + {o}, now)
  {
    assert !Works(db, done, db.ops[o].borrowId);
    TimeoutWrites(mid, after, o, now);
    WritesOneMore(db, mid, after, done, o, now);
  }

  lemma SweptNext(db: Db, mid: Db, after: Db, found: set<Id>, todo: set<Id>, o: Id, now: Time)
    requires Apart(db, found) && todo <= found && o in todo
    requires Swept(db, mid, found - todo, now) && after == Applied(mid, Timeout(mid, o, now))
    ensures Timeout(mid, o, now).Commit?
    ensures Swept(db, after, found - (todo - {o}), now)
  {
    assert o in mid.ops;
    DoneOneMore(found, todo, o);
    SweptOneMore(db, mid, after, found, found - todo, o, now);
  }

  lemma DoneOneMore(found: set<Id>, todo: set<Id>, o: Id)
    requires todo <= found && o in todo
    ensures found - todo + {o} == found - (todo - {o})
  {
  }

  lemma NoneDone(found: set<Id>)
    ensures found - found == {}
  {
  }

  lemma NoneLeft(found: set<Id>)
    ensures found - {} == found
  {
  }

  lemma WritesOneMore(db: Db, mid: Db, after: Db, done: set<Id>, o: Id, now: Time)
    requires o in db.ops && o !in done && db.ops[o].borrowId in db.borrows && !Works(db, done, db.ops[o].borrowId)
    requires Swept(db, mid, done, now)
    requires var b := db.ops[o].borrowId;
             after == mid.(ops := mid.ops[o := TimedOut(db.ops[o], now)],
                           borrows := mid.borrows[b := Abandoned(db.borrows[b], db.ops[o].action)],
                           logs := mid.logs[o := WithEvent(LogOf(db, o), EvTimeout, NO_TAG, now)])
    ensures Swept(db, after, done + {o}, now)
  {
    OpsOneMore(db, mid, after, done, o, now);
    BorrowsOneMore(db, mid, after, done, o);
  }

  lemma OpsOneMore(db: Db, mid: Db, after: Db, done: set<Id>, o: Id, now: Time)
    requires o in db.ops && o !in done && SweptOps(db, mid, done, now)
    requires after.ops == mid.ops[o := TimedOut(db.ops[o], now)]
    requires after.logs == mid.logs[o := WithEvent(LogOf(db, o), EvTimeout, NO_TAG, now)]
    ensures SweptOps(db, after, done + {o}, now)
  {
    forall x | x in db.ops && x != o ensures LogOf(after, x) == LogOf(mid, x) {}
  }

  lemma BorrowsOneMore(db: Db, mid: Db, after: Db, done: set<Id>, o: Id)
    requires o in db.ops && db.ops[o].borrowId in db.borrows && SweptBorrows(db, mid, done)
    requires after.borrows
             == mid.borrows[db.ops[o].borrowId := Abandoned(db.borrows[db.ops[o].borrowId], db.ops[o].action)]
    requires !Works(db, done, db.ops[o].borrowId)
    ensures SweptBorrows(db, after, done + {o})
  {
    forall d | d in done && d in db.ops ensures db.ops[d].borrowId != db.ops[o].borrowId {}
    forall b | b in db.borrows && !Works(db, done + {o}, b) ensures after.borrows[b] == db.borrows[b] {
      assert o in done + {o} && forall d | d in done :: d in done + {o};
    }
  }
}
