/** What the transactions on operations leave in the tables, column by column. */
module EndRows {
  import opened LedgerTypes
  import opened OperationTx
  import opened Steps
  import opened StartRules

  /** One event more in one log, with the next number. */
  predicate Logged(db: Db, after: Db, id: Id, etype: EventType, data: TagData, at: Time) {
    after.logs == db.logs[id := LogOf(db, id) + [Event(MaxSeq(LogOf(db, id)) + 1, etype, data, at)]]
  }

  /** The columns that say how and when an operation ended. */
  predicate EndedAs(before: Operation, op: Operation, status: OpStatus, code: string, message: string, now: Time) {
    op == before.(status := status, errorCode := code, errorMessage := message, ackAt := Some(now),
                  finishedAt := Some(now), scannedRfid := op.scannedRfid)
  }

  /** Only the operation's own row and log change, and the tables that are named. */
  predicate OnlyThis(db: Db, after: Db, id: Id, op: Operation) {
    after == db.(ops := db.ops[id := op], logs := after.logs, borrows := after.borrows, keys := after.keys,
                 slots := after.slots, reservations := after.reservations)
  }

  lemma CommitsIfUnfinished(db: Db, id: Id)
    requires id in db.ops && Unfinished(db.ops[id])
    ensures Active(db, id)
  {
    TwoHalves(db.ops[id].status);
  }

  /**
   * A pickup that succeeds: the reservation is USED, the record BORROWED from this moment on, the
   * key BORROWED, the slot ABSENT.
   */
  lemma PickupRows(db: Db, after: Db, id: Id, now: Time)
    requires id in db.ops && Unfinished(db.ops[id]) && CompletePickup(db, id, now) == Commit(after)
    ensures var op := db.ops[id];
            && op.action == Pickup && op.status in {OpSent, OpExecuting} && id in after.ops
            && EndedAs(op, after.ops[id], OpSuccess, "", "", now) && after.ops[id].scannedRfid == op.scannedRfid
            && OnlyThis(db, after, id, after.ops[id]) && Logged(db, after, id, EvSuccess, NO_TAG, now)
            && after.borrows == (if op.borrowId == BLANK || op.borrowId !in db.borrows then db.borrows else
                 db.borrows[op.borrowId := db.borrows[op.borrowId].(status := Borrowed, borrowedAt := Some(now))])
            && after.reservations == (if op.reservationId == BLANK || op.reservationId !in db.reservations
                 then db.reservations else
                 db.reservations[op.reservationId :=
                   db.reservations[op.reservationId].(status := ResUsed, usedAt := Some(now))])
            && KeyAndSlot(db, after, op, KeyBorrowed, Absent)
  {
    CommitsIfUnfinished(db, id);
  }

  predicate KeyAndSlot(db: Db, after: Db, op: Operation, status: KeyStatus, presence: Presence) {
    && after.keys == (if op.keyId == BLANK || op.keyId !in db.keys then db.keys else
         db.keys[op.keyId := db.keys[op.keyId].(status := status)])
    && after.slots == (if op.slotId == BLANK || op.slotId !in db.slots then db.slots else
         db.slots[op.slotId := db.slots[op.slotId].(presence := presence)])
  }

  /** Position of the last RFID confirmation in a log. */
  predicate LastConfirmation(log: seq<Event>, i: nat) {
    && i < |log| && log[i].etype == EvRfidConfirmed
    && forall j | i < j < |log| :: log[j].etype != EvRfidConfirmed
  }

  lemma {:induction false} LatestIsLast(log: seq<Event>, i: nat)
    requires LastConfirmation(log, i)
    ensures LatestRfid(log) == Some(log[i].data)
  {
    if i < |log| - 1 {
      assert LastConfirmation(log[..|log| - 1], i);
      LatestIsLast(log[..|log| - 1], i);
    }
  }

  /** The tag a return goes by: the one stored, or else what its last confirmation carries, in this order. */
  ghost predicate GoesBy(op: Operation, log: seq<Event>, tag: string) {
    if TrimSpace(op.scannedRfid) != "" then tag == TrimSpace(op.scannedRfid)
    else forall i: nat | LastConfirmation(log, i) ::
           tag == if log[i].data.scannedRfid != "" then log[i].data.scannedRfid
                  else if log[i].data.uid != "" then log[i].data.uid else log[i].data.rfidTag
  }

  /**
   * A return that succeeds: the record is COMPLETED at this moment, verified, with the tag it went
   * by and without notes, the key AVAILABLE, the slot PRESENT.
   */
  lemma ReturnRows(db: Db, after: Db, id: Id, now: Time)
    requires id in db.ops && Unfinished(db.ops[id]) && CompleteReturn(db, id, now) == Commit(after)
    ensures var op := db.ops[id];
            && op.action == Return && op.status in {OpSent, OpExecuting} && id in after.ops
            && op.borrowId in db.borrows && db.borrows[op.borrowId].status == Returning
            && EndedAs(op, after.ops[id], OpSuccess, "", "", now)
            && GoesBy(op, LogOf(db, id), after.ops[id].scannedRfid)
            && OnlyThis(db, after, id, after.ops[id]) && Logged(db, after, id, EvSuccess, NO_TAG, now)
            && after.borrows == db.borrows[op.borrowId := db.borrows[op.borrowId].(
                 status := Completed, returnedAt := Some(now), rfidVerified := true,
                 scannedRfid := after.ops[id].scannedRfid, notes := "")]
            && after.reservations == db.reservations && KeyAndSlot(db, after, op, KeyAvailable, Present)
  {
    CommitsIfUnfinished(db, id);
    if i: nat :| LastConfirmation(LogOf(db, id), i) {
      LatestIsLast(LogOf(db, id), i);
    }
  }

  /** The record of an operation that ends without success. */
  predicate BorrowLeft(db: Db, after: Db, op: Operation, status: BorrowStatus, notes: string) {
    after.borrows == if op.borrowId == BLANK || op.borrowId !in db.borrows then db.borrows
                     else db.borrows[op.borrowId := db.borrows[op.borrowId].(status := status, notes := notes)]
  }

  /** Keys, slots and reservations stay as they are. */
  predicate NothingMoved(db: Db, after: Db) {
    after.keys == db.keys && after.slots == db.slots && after.reservations == db.reservations
  }

  /**
   * A failure: the row tells code and text, and the record the text; a pickup's is an EXCEPTION, a
   * return's BORROWED.
   */
  lemma FailRows(db: Db, after: Db, id: Id, code: string, message: string, now: Time)
    requires id in db.ops && Unfinished(db.ops[id]) && Fail(db, id, code, message, now) == Commit(after)
    ensures var op := db.ops[id];
            && id in after.ops
            && EndedAs(op, after.ops[id], OpFailed, code, message, now) && after.ops[id].scannedRfid == op.scannedRfid
            && OnlyThis(db, after, id, after.ops[id]) && Logged(db, after, id, EvFailed, NO_TAG, now)
            && BorrowLeft(db, after, op, if op.action == Pickup then Exception else Borrowed, message)
            && NothingMoved(db, after)
  {
    CommitsIfUnfinished(db, id);
  }

  /** A record in its working status; others are left alone by timeouts and cancels. */
  predicate AtWork(db: Db, op: Operation) {
    op.borrowId in db.borrows && db.borrows[op.borrowId].status in {Borrowing, Returning}
  }

  lemma TimeoutRows(db: Db, after: Db, id: Id, now: Time)
    requires id in db.ops && Unfinished(db.ops[id]) && Timeout(db, id, now) == Commit(after)
    ensures var op := db.ops[id];
            && id in after.ops
            && EndedAs(op, after.ops[id], OpTimeout, "OPERATION_TIMEOUT", "device operation timed out", now)
            && after.ops[id].scannedRfid == op.scannedRfid
            && OnlyThis(db, after, id, after.ops[id]) && Logged(db, after, id, EvTimeout, NO_TAG, now)
            && (if AtWork(db, op)
                then BorrowLeft(db, after, op, if op.action == Pickup then Exception else Borrowed, "设备操作超时")
                else after.borrows == db.borrows)
            && NothingMoved(db, after)
  {
    CommitsIfUnfinished(db, id);
  }

  lemma CancelRows(db: Db, after: Db, id: Id, now: Time)
    requires id in db.ops && Unfinished(db.ops[id]) && Cancel(db, id, now) == Commit(after)
    ensures var op := db.ops[id];
            && id in after.ops
            && EndedAs(op, after.ops[id], OpCancelled, "", "", now) && after.ops[id].scannedRfid == op.scannedRfid
            && OnlyThis(db, after, id, after.ops[id]) && Logged(db, after, id, EvCancelled, NO_TAG, now)
            && (if AtWork(db, op)
                then BorrowLeft(db, after, op, if op.action == Pickup then Exception else Borrowed,
                                db.borrows[op.borrowId].notes)
                else after.borrows == db.borrows)
            && NothingMoved(db, after)
  {
    CommitsIfUnfinished(db, id);
  }

  /** An operation is begun iff it is AUTHORIZED; it is EXECUTING then, sent at this moment. */
  lemma BeginRows(db: Db, id: Id, now: Time)
    ensures BeginExecution(db, id, now).Commit? <==> id in db.ops && db.ops[id].status == OpAuthorized
    ensures var tx := BeginExecution(db, id, now);
            tx.Commit? ==>
              && tx.db == db.(ops := db.ops[id := db.ops[id].(status := OpExecuting, sentAt := Some(now))],
                              logs := tx.db.logs)
              && Logged(db, tx.db, id, EvCommandDispatching, NO_TAG, now)
    ensures var tx := BeginExecution(db, id, now);
            tx.Rollback? ==>
              tx.error == if id !in db.ops then NotFound
                          else if Unfinished(db.ops[id]) then InvalidState else OperationTerminal
  {
    if id in db.ops {
      TwoHalves(db.ops[id].status);
    }
  }

  /**
   * An event of an unfinished operation that is new is logged with its data and time, and the first
   * acknowledgement stamps the operation; all others leave no trace.
   */
  lemma AppendRows(db: Db, id: Id, key: EventKey, etype: EventType, data: TagData, at: Time)
    requires id in db.ops
    ensures var tx := AppendEventIfActive(db, id, key, etype, data, at);
            && tx.Commit?
            && if Unfinished(db.ops[id]) && key !in db.eventKeys then
                 && tx.db == db.(ops := tx.db.ops, logs := tx.db.logs, eventKeys := db.eventKeys + {key})
                 && tx.db.ops == db.ops[id := db.ops[id].(ackAt :=
                      if etype in {EvAck, EvReceived, EvCommandAck} && db.ops[id].ackAt.None? then Some(at)
                      else db.ops[id].ackAt)]
                 && Logged(db, tx.db, id, etype, data, at)
               else tx.db == db
  {
    TwoHalves(db.ops[id].status);
    assert db.ops[id].(ackAt := db.ops[id].ackAt) == db.ops[id];
  }

  // ----- which success reports are accepted ------------------------------------------------------

  predicate Confirmed(log: seq<Event>) {
    exists i | 0 <= i < |log| :: log[i].etype == EvRfidConfirmed
  }

  lemma {:induction false} ConfirmedMeans(log: seq<Event>)
    ensures LatestRfid(log).Some? <==> Confirmed(log)
    ensures Confirmed(log) ==> exists i: nat :: LastConfirmation(log, i)
  {
    if log != [] {
      var early := log[..|log| - 1];
      ConfirmedMeans(early);
      if log[|log| - 1].etype == EvRfidConfirmed {
        assert LastConfirmation(log, |log| - 1);
      } else {
        if i :| 0 <= i < |log| && log[i].etype == EvRfidConfirmed {
          assert early[i].etype == EvRfidConfirmed;
        }
        if i: nat :| LastConfirmation(early, i) {
          assert LastConfirmation(log, i) by { assert log[i] == early[i]; }
        }
      }
    }
  }

  predicate AllSpace(s: string) {
    forall i | 0 <= i < |s| :: IsSpace(s[i])
  }

  /** What is left of a text when the white space around it has gone. */
  lemma TrimMeans(s: string)
    ensures exists a, b :: s == a + TrimSpace(s) + b && AllSpace(a) && AllSpace(b)
    ensures var t := TrimSpace(s); t != "" ==> !IsSpace(t[0]) && !IsSpace(t[|t| - 1])
  {
    var a := TrimLeftMeans(s);
    var b := TrimRightMeans(TrimLeft(s));
    assert s == a + TrimSpace(s) + b;
    var t := TrimSpace(s);
    if t != "" {
      assert t[0] == TrimLeft(s)[0];
    }
  }

  lemma {:induction false} TrimLeftMeans(s: string) returns (a: string)
    ensures s == a + TrimLeft(s) && AllSpace(a) && (TrimLeft(s) != "" ==> !IsSpace(TrimLeft(s)[0]))
  {
    a := "";
    if s != "" && IsSpace(s[0]) {
      var rest := TrimLeftMeans(s[1..]);
      a := [s[0]] + rest;
    }
  }

  lemma {:induction false} TrimRightMeans(s: string) returns (b: string)
    ensures s == TrimRight(s) + b && AllSpace(b)
    ensures var t := TrimRight(s); t != "" ==> !IsSpace(t[|t| - 1])
  {
    b := "";
    if s != "" && IsSpace(s[|s| - 1]) {
      var rest := TrimRightMeans(s[..|s| - 1]);
      b := rest + [s[|s| - 1]];
    }
  }

  /** The same letter, in either case. */
  predicate SameLetter(a: char, b: char) {
    || a == b
    || ('A' <= a <= 'Z' && b as int == a as int + 32)
    || ('A' <= b <= 'Z' && a as int == b as int + 32)
  }

  lemma FoldMeans(a: string, b: string)
    ensures EqualFold(a, b) <==> |a| == |b| && forall i | 0 <= i < |a| :: SameLetter(a[i], b[i])
  {
    if |a| == |b| {
      forall i | 0 <= i < |a| ensures Lower(a[i]) == Lower(b[i]) <==> SameLetter(a[i], b[i]) {
        assert Lower(a[i]) as int == if 'A' <= a[i] <= 'Z' then a[i] as int + 32 else a[i] as int;
        assert Lower(b[i]) as int == if 'A' <= b[i] <= 'Z' then b[i] as int + 32 else b[i] as int;
      }
    }
  }

  /** The tag of the key, without spaces around it; "" if there is no key row or it has no tag. */
  function ExpectedTag(db: Db, op: Operation): string {
    if op.keyId == BLANK || op.keyId !in db.keys then "" else TrimSpace(db.keys[op.keyId].rfidTag)
  }

  /**
   * What a return must show, exactly: a confirmation or a stored tag; and if its key has a tag, a tag
   * that is the same up to letter case and spaces around it.
   */
  lemma VerdictIff(db: Db, op: Operation, log: seq<Event>, tag: string)
    requires GoesBy(op, log, tag) && (TrimSpace(op.scannedRfid) == "" && !Confirmed(log) ==> tag == "")
    ensures RfidVerdict(db, op, log)
            == if !Confirmed(log) && TrimSpace(op.scannedRfid) == "" then Some(RfidNotVerified)
               else if ExpectedTag(db, op) == "" then None
               else if tag == "" then Some(RfidNotVerified)
               else if EqualFold(TrimSpace(tag), ExpectedTag(db, op)) then None
               else Some(RfidMismatch)
  {
    ConfirmedMeans(log);
    assert ScannedTag(op, log) == tag by {
      if i: nat :| LastConfirmation(log, i) {
        LatestIsLast(log, i);
      }
    }
  }

  predicate RowsThere(db: Db, op: Operation) {
    (op.keyId == BLANK || op.keyId in db.keys) && (op.slotId == BLANK || op.slotId in db.slots)
  }

  /** Why a success report for an unfinished operation is not accepted as the end of a pickup, if it is not. */
  lemma PickupAccepted(db: Db, id: Id, now: Time)
    requires id in db.ops && Unfinished(db.ops[id])
    ensures var op := db.ops[id];
            var tx := CompletePickup(db, id, now);
            if op.action != Pickup then tx == Rollback(WrongAction)
            else if op.status !in {OpSent, OpExecuting} then tx == Rollback(InvalidState)
            else if op.reservationId != BLANK && !(op.reservationId in db.reservations
                      && db.reservations[op.reservationId].status in {ResPending, ResApproved, ResActive})
            then tx == Rollback(ReservationInactive)
            else if op.borrowId != BLANK && !(op.borrowId in db.borrows && db.borrows[op.borrowId].status == Borrowing)
            then tx == Rollback(BorrowNotReady)
            else if !RowsThere(db, op) then tx == Rollback(NotFound)
            else tx.Commit?
  {
    CommitsIfUnfinished(db, id);
  }

  /** The same for returns. */
  lemma ReturnAccepted(db: Db, id: Id, now: Time)
    requires id in db.ops && Unfinished(db.ops[id])
    ensures var op := db.ops[id];
            var verdict := RfidVerdict(db, op, LogOf(db, id));
            var tx := CompleteReturn(db, id, now);
            if op.action != Return then tx == Rollback(WrongAction)
            else if op.status !in {OpSent, OpExecuting} then tx == Rollback(InvalidState)
            else if op.borrowId == BLANK then tx == Rollback(NoBorrow)
            else if verdict.Some? then tx == Rollback(verdict.value)
            else if !(op.borrowId in db.borrows && db.borrows[op.borrowId].status == Returning)
            then tx == Rollback(BorrowNotReady)
            else if !RowsThere(db, op) then tx == Rollback(NotFound)
            else tx.Commit?
  {
    CommitsIfUnfinished(db, id);
  }

  /** What has ended is not ended again: reports and timeouts are accepted and change nothing, cancels are refused. */
  lemma EndedIsLeft(db: Db, id: Id, code: string, message: string, now: Time)
    requires id in db.ops && !Unfinished(db.ops[id])
    ensures CompletePickup(db, id, now) == CompleteReturn(db, id, now) == Commit(db)
    ensures Fail(db, id, code, message, now) == Timeout(db, id, now) == Commit(db)
    ensures Cancel(db, id, now) == Rollback(OperationTerminal)
  {
    TwoHalves(db.ops[id].status);
  }

  /** Reports on unknown operations, and from other cabinets, are refused. */
  lemma StrangersRefused(db: Db, ev: DeviceEvent, stored: bool)
    requires ev.op !in db.ops || db.ops[ev.op].deviceId != ev.deviceId
    ensures OnDeviceEvent(db, ev, stored) == Rollback(if ev.op in db.ops then Forbidden else NotFound)
  {
  }
}
