/**
 * The repositories as they work: one object whose tables are updated step by step inside
 * transactions, each proved to do what its function in OperationTx or ReservationTx says.
 */
module LedgerStore {
  import opened LedgerTypes
  import opened OperationTx
  import opened ReservationTx
  import opened ExpiryOrder
  import opened ReserveRules

  /** What a finished transaction method stands for: an error or the new tables. */
  function AsTx(error: Option<Error>, db: Db): Tx {
    match error
    case None => Commit(db)
    case Some(e) => Rollback(e)
  }

  class Ledger {
    var ops: map<Id, Operation>
    var requests: map<Id, Id>
    var borrows: map<Id, Borrow>
    var reservations: map<Id, Reservation>
    var keys: map<Id, Key>
    var slots: map<Id, Slot>
    var users: map<Id, User>
    var devices: map<Id, DeviceStatus>
    var logs: map<Id, seq<Event>>
    var eventKeys: set<EventKey>

    constructor (db: Db)
      ensures Tables() == db
    {
      ops, requests, borrows, reservations := db.ops, db.requests, db.borrows, db.reservations;
      keys, slots, users, devices := db.keys, db.slots, db.users, db.devices;
      logs, eventKeys := db.logs, db.eventKeys;
    }

    function Tables(): Db
      reads this
    {
      Db(ops, requests, borrows, reservations, keys, slots, users, devices, logs, eventKeys)
    }

    /** Rolls the open transaction back. */
    method Restore(saved: Db)
      modifies this
      ensures Tables() == saved
    {
      ops, requests, borrows, reservations := saved.ops, saved.requests, saved.borrows, saved.reservations;
      keys, slots, users, devices := saved.keys, saved.slots, saved.users, saved.devices;
      logs, eventKeys := saved.logs, saved.eventKeys;
    }

    // ----- statements inside transactions --------------------------------------------------

    method CreateEvent(id: Id, etype: EventType, now: Time)
      modifies this`logs
      ensures Tables() == LogEvent(old(Tables()), id, etype, now)
    {
      var log := if id in logs then logs[id] else [];
      var last := MaxSeq(log);
      logs := logs[id := log + [Event(last + 1, etype, NO_TAG, now)]];
    }

    method UpdateOperationStatus(id: Id, status: OpStatus, code: string, message: string, now: Time)
      requires id in ops
      modifies this`ops
      ensures ops == old(ops)[id := old(ops)[id].(status := status, errorCode := code, errorMessage := message,
                                                  ackAt := Some(now), finishedAt := Some(now))]
    {
      ops := ops[id := ops[id].(status := status, errorCode := code, errorMessage := message,
                                ackAt := Some(now), finishedAt := Some(now))];
    }

    /** The two statements every ending closes with. */
    method EndOperation(id: Id, status: OpStatus, code: string, message: string, event: EventType, now: Time)
      requires id in ops
      modifies this`ops, this`logs
      ensures Tables() == EndOp(old(Tables()), id, status, code, message, event, now)
    {
      UpdateOperationStatus(id, status, code, message, now);
      CreateEvent(id, event, now);
    }

    /** On a missing row the earlier writes stay; the caller rolls back. */
    method UpdateKeyAndSlot(keyId: Id, slotId: Id, status: KeyStatus, presence: Presence) returns (ok: bool)
      modifies this`keys, this`slots
      ensures ok == HasKeyAndSlot(old(Tables()), keyId, slotId)
      ensures ok ==> Tables() == WithKeyAndSlot(old(Tables()), keyId, slotId, status, presence)
    {
      if keyId != BLANK {
        if keyId !in keys {
          return false;
        }
        keys := keys[keyId := keys[keyId].(status := status)];
      }
      if slotId != BLANK {
        if slotId !in slots {
          return false;
        }
        slots := slots[slotId := slots[slotId].(presence := presence)];
      }
      return true;
    }

    method PrepareOperation(id: Id, operation: Operation) returns (error: Option<Error>)
      modifies this
      ensures InsertOp(old(Tables()), id, operation) == AsTx(error, Tables())
      ensures error.Some? ==> Tables() == old(Tables())
    {
      if id in ops || operation.requestId in requests {
        return Some(DuplicateRow);
      }
      if DeviceBusy(Tables(), operation.deviceId) || (operation.keyId != BLANK && KeyBusy(Tables(), operation.keyId)) {
        return Some(ActiveIndex);
      }
      ops := ops[id := operation.(status := OpAuthorized)];
      requests := requests[operation.requestId := id];
      CreateEvent(id, EvRequestReceived, operation.createdAt);
      CreateEvent(id, EvAuthConfirmed, operation.createdAt);
      return None;
    }

    // ----- operation transactions -------------------------------------------------------------

    method PreparePickup(borrowId: Id, borrow: Borrow, id: Id, operation: Operation) returns (error: Option<Error>)
      modifies this
      ensures OperationTx.PreparePickup(old(Tables()), borrowId, borrow, id, operation) == AsTx(error, Tables())
      ensures error.Some? ==> Tables() == old(Tables())
    {
      var saved := Tables();
      if borrowId in borrows {
        return Some(DuplicateRow);
      }
      borrows := borrows[borrowId := borrow];
      error := PrepareOperation(id, operation);
      if error.Some? {
        Restore(saved);
      }
    }

    method PrepareReturn(borrowId: Id, userId: Id, id: Id, operation: Operation) returns (error: Option<Error>)
      modifies this
      ensures OperationTx.PrepareReturn(old(Tables()), borrowId, userId, id, operation) == AsTx(error, Tables())
      ensures error.Some? ==> Tables() == old(Tables())
    {
      var saved := Tables();
      if borrowId !in borrows || borrows[borrowId].userId != userId || borrows[borrowId].status != Borrowed {
        return Some(InvalidState);
      }
      borrows := borrows[borrowId := borrows[borrowId].(status := Returning)];
      error := PrepareOperation(id, operation);
      if error.Some? {
        Restore(saved);
      }
    }

    method BeginExecution(id: Id, now: Time) returns (error: Option<Error>)
      modifies this
      ensures OperationTx.BeginExecution(old(Tables()), id, now) == AsTx(error, Tables())
      ensures error.Some? ==> Tables() == old(Tables())
    {
      if id !in ops {
        return Some(NotFound);
      }
      if IsTerminal(ops[id].status) {
        return Some(OperationTerminal);
      }
      if ops[id].status != OpAuthorized {
        return Some(InvalidState);
      }
      ops := ops[id := ops[id].(status := OpExecuting, sentAt := Some(now))];
      CreateEvent(id, EvCommandDispatching, now);
      return None;
    }

    method AppendEventIfActive(id: Id, key: EventKey, etype: EventType, data: TagData,
        at: Time) returns (error: Option<Error>)
      modifies this
      ensures OperationTx.AppendEventIfActive(old(Tables()), id, key, etype, data, at) == AsTx(error, Tables())
      ensures error.Some? ==> Tables() == old(Tables())
    {
      if id !in ops {
        return Some(NotFound);
      }
      if IsTerminal(ops[id].status) || key in eventKeys {
        return None;
      }
      var log := if id in logs then logs[id] else [];
      logs := logs[id := log + [Event(MaxSeq(log) + 1, etype, data, at)]];
      eventKeys := eventKeys + {key};
      if etype in {EvAck, EvReceived, EvCommandAck} && ops[id].ackAt == None {
        ops := ops[id := ops[id].(ackAt := Some(at))];
      }
      return None;
    }

    method CompletePickup(id: Id, now: Time) returns (error: Option<Error>)
      modifies this
      ensures OperationTx.CompletePickup(old(Tables()), id, now) == AsTx(error, Tables())
      ensures error.Some? ==> Tables() == old(Tables())
    {
      var saved := Tables();
      if id !in ops {
        return Some(NotFound);
      }
      var op := ops[id];
      if IsTerminal(op.status) {
        return None;
      }
      if op.action != Pickup {
        return Some(WrongAction);
      }
      if op.status != OpExecuting && op.status != OpSent {
        return Some(InvalidState);
      }
      error := UsePickedUp(op, now);
      if error.Some? {
        Restore(saved);
        return;
      }
      EndOperation(id, OpSuccess, "", "", EvSuccess, now);
    }

    /** What a pickup uses up and hands over; on an error the caller rolls back. */
    method UsePickedUp(op: Operation, now: Time) returns (error: Option<Error>)
      modifies this`reservations, this`borrows, this`keys, this`slots
      ensures var db := old(Tables());
              error == if !ReservationUsable(db, op.reservationId) then Some(ReservationInactive)
                       else if op.borrowId != BLANK && !BorrowInStatus(db, op.borrowId, Borrowing)
                       then Some(BorrowNotReady)
                       else if !HasKeyAndSlot(db, op.keyId, op.slotId) then Some(NotFound)
                       else None
      ensures error.None? ==> Tables() == PickedUp(old(Tables()), op, now)
    {
      if op.reservationId != BLANK {
        var r := op.reservationId;
        if r !in reservations || !IsActiveReservation(reservations[r].status) {
          return Some(ReservationInactive);
        }
        reservations := reservations[r := reservations[r].(status := ResUsed, usedAt := Some(now))];
      }
      if op.borrowId != BLANK {
        var b := op.borrowId;
        if b !in borrows || borrows[b].status != Borrowing {
          return Some(BorrowNotReady);
        }
        borrows := borrows[b := borrows[b].(status := Borrowed, borrowedAt := Some(now))];
      }
      var found := UpdateKeyAndSlot(op.keyId, op.slotId, KeyBorrowed, Absent);
      return if found then None else Some(NotFound);
    }

    method CompleteReturn(id: Id, now: Time) returns (error: Option<Error>)
      modifies this
      ensures OperationTx.CompleteReturn(old(Tables()), id, now) == AsTx(error, Tables())
      ensures error.Some? ==> Tables() == old(Tables())
    {
      if id !in ops {
        return Some(NotFound);
      }
      var op := ops[id];
      if IsTerminal(op.status) {
        return None;
      }
      if op.action != Return {
        return Some(WrongAction);
      }
      if op.status != OpExecuting && op.status != OpSent {
        return Some(InvalidState);
      }
      if op.borrowId == BLANK {
        return Some(NoBorrow);
      }
      var log := if id in logs then logs[id] else [];
      error := CheckRfid(op, log);
      if error.Some? {
        return;
      }
      error := AcceptReturn(id, op, ScannedTag(op, log), now);
    }

    /** The writes of a return whose tag has been accepted. */
    method AcceptReturn(id: Id, op: Operation, tag: string, now: Time) returns (error: Option<Error>)
      requires id in ops && ops[id] == op
      modifies this
      ensures var db := old(Tables());
              error == if !BorrowInStatus(db, op.borrowId, Returning) then Some(BorrowNotReady)
                       else if !HasKeyAndSlot(db, op.keyId, op.slotId) then Some(NotFound)
                       else None
      ensures error.None? ==>
                var back := GivenBack(old(Tables()), op, tag, now);
                Tables() == EndOp(back.(ops := back.ops[id := op.(scannedRfid := tag)]), id, OpSuccess, "", "",
                    EvSuccess, now)
      ensures error.Some? ==> Tables() == old(Tables())
    {
      var saved := Tables();
      error := TakeBack(op, tag, now);
      if error.Some? {
        Restore(saved);
        return;
      }
      ops := ops[id := op.(scannedRfid := tag)];
      EndOperation(id, OpSuccess, "", "", EvSuccess, now);
    }

    /** Closes the borrow record and puts the key back; on an error the caller rolls back. */
    method TakeBack(op: Operation, tag: string, now: Time) returns (error: Option<Error>)
      modifies this`borrows, this`keys, this`slots
      ensures var db := old(Tables());
              error == if !BorrowInStatus(db, op.borrowId, Returning) then Some(BorrowNotReady)
                       else if !HasKeyAndSlot(db, op.keyId, op.slotId) then Some(NotFound)
                       else None
      ensures error.None? ==> Tables() == GivenBack(old(Tables()), op, tag, now)
    {
      var b := op.borrowId;
      if b !in borrows || borrows[b].status != Returning {
        return Some(BorrowNotReady);
      }
      borrows := borrows[b := borrows[b].(status := Completed, returnedAt := Some(now),
                                          rfidVerified := true, scannedRfid := tag, notes := "")];
      var found := UpdateKeyAndSlot(op.keyId, op.slotId, KeyAvailable, Present);
      return if found then None else Some(NotFound);
    }

    /** The strict check of a return, on the confirmations in its log. */
    method CheckRfid(op: Operation, log: seq<Event>) returns (error: Option<Error>)
      ensures error == RfidVerdict(Tables(), op, log)
    {
      var scanned := TrimSpace(op.scannedRfid);
      var latest := LatestRfid(log);
      if latest == None && scanned == "" {
        return Some(RfidNotVerified);
      }
      if scanned == "" && latest.Some? {
        scanned := AnyTag(latest.value);
      }
      if op.keyId != BLANK && op.keyId in keys {
        var expected := TrimSpace(keys[op.keyId].rfidTag);
        if expected != "" {
          if scanned == "" {
            return Some(RfidNotVerified);
          }
          if !EqualFold(TrimSpace(scanned), expected) {
            return Some(RfidMismatch);
          }
        }
      }
      return None;
    }

    method Fail(id: Id, code: string, message: string, now: Time) returns (error: Option<Error>)
      modifies this
      ensures OperationTx.Fail(old(Tables()), id, code, message, now) == AsTx(error, Tables())
      ensures error.Some? ==> Tables() == old(Tables())
    {
      if id !in ops {
        return Some(NotFound);
      }
      var op := ops[id];
      if IsTerminal(op.status) {
        return None;
      }
      if op.borrowId != BLANK && op.borrowId in borrows {
        var status := Exception;
        if op.action == Return {
          status := Borrowed;
        }
        borrows := borrows[op.borrowId := borrows[op.borrowId].(status := status, notes := message)];
      }
      EndOperation(id, OpFailed, code, message, EvFailed, now);
      return None;
    }

    method Timeout(id: Id, now: Time) returns (error: Option<Error>)
      modifies this
      ensures OperationTx.Timeout(old(Tables()), id, now) == AsTx(error, Tables())
      ensures error.Some? ==> Tables() == old(Tables())
    {
      if id !in ops {
        return Some(NotFound);
      }
      var op := ops[id];
      if IsTerminal(op.status) {
        return None;
      }
      if op.borrowId != BLANK && op.borrowId in borrows {
        var status := Exception;
        if op.action == Return {
          status := Borrowed;
        }
        var borrow := borrows[op.borrowId];
        if borrow.status in {Borrowing, Returning} {
          borrows := borrows[op.borrowId := borrow.(status := status, notes := TIMEOUT_NOTE)];
        }
      }
      assert borrows == if op.borrowId in old(borrows) && op.borrowId != BLANK
                        then old(borrows)[op.borrowId :=
                               AbandonedBorrow(old(borrows)[op.borrowId], op.action, TimesOut)]
                        else old(borrows);
      EndOperation(id, OpTimeout, "OPERATION_TIMEOUT", "device operation timed out", EvTimeout, now);
      return None;
    }

    method Cancel(id: Id, now: Time) returns (error: Option<Error>)
      modifies this
      ensures OperationTx.Cancel(old(Tables()), id, now) == AsTx(error, Tables())
      ensures error.Some? ==> Tables() == old(Tables())
    {
      if id !in ops {
        return Some(NotFound);
      }
      var op := ops[id];
      if IsTerminal(op.status) {
        return Some(OperationTerminal);
      }
      if op.borrowId != BLANK && op.borrowId in borrows {
        var status := Borrowed;
        if op.action == Pickup {
          status := Exception;
        }
        var borrow := borrows[op.borrowId];
        if borrow.status in {Borrowing, Returning} {
          borrows := borrows[op.borrowId := borrow.(status := status)];
        }
      }
      assert borrows == if op.borrowId in old(borrows) && op.borrowId != BLANK
                        then old(borrows)[op.borrowId :=
                               AbandonedBorrow(old(borrows)[op.borrowId], op.action, IsCancelled)]
                        else old(borrows);
      EndOperation(id, OpCancelled, "", "", EvCancelled, now);
      return None;
    }

    // ----- reservation transactions ----------------------------------------------------------------

    method UpdateKeyStatus(key: Id, from: KeyStatus, to: KeyStatus)
      modifies this`keys
      ensures Tables() == SwitchKey(old(Tables()), key, from, to)
    {
      if key in keys && keys[key].status == from {
        keys := keys[key := keys[key].(status := to)];
      }
    }

    method ReleaseKeyIfUnreserved(key: Id)
      modifies this`keys
      ensures Tables() == ReleaseKey(old(Tables()), key)
    {
      if !HasActive(Tables(), key) {
        UpdateKeyStatus(key, KeyReserved, KeyAvailable);
      }
    }

    method Create(id: Id, reservation: Reservation) returns (error: Option<Error>)
      modifies this
      ensures CreateRow(old(Tables()), id, reservation) == AsTx(error, Tables())
      ensures error.Some? ==> Tables() == old(Tables())
    {
      if id in reservations {
        return Some(DuplicateRow);
      }
      if IsActiveReservation(reservation.status)
         && HasConflict(Tables(), reservation.keyId, reservation.windowStart, reservation.returnAt) {
        return Some(Conflict);
      }
      reservations := reservations[id := reservation];
      if !IsActiveReservation(reservation.status) {
        return None;
      }
      UpdateKeyStatus(reservation.keyId, KeyAvailable, KeyReserved);
      return None;
    }

    /** Update, as CancelReservation uses it. */
    method UpdateCancelled(id: Id) returns (error: Option<Error>)
      modifies this
      ensures WriteCancelled(old(Tables()), id) == AsTx(error, Tables())
    {
      if id in reservations {
        reservations := reservations[id := reservations[id].(status := ResCancelled, usedAt := None)];
        ReleaseKeyIfUnreserved(reservations[id].keyId);
      }
      return None;
    }

    /** `approved` reviews that find the window over commit the expiry and still report an invalid state. */
    method Review(id: Id, approved: bool, now: Time) returns (error: Option<Error>)
      modifies this
      ensures var (tx, done) := ReservationTx.Review(old(Tables()), id, approved, now);
              && (tx.Commit? ==> Tables() == tx.db && error == if done then None else Some(InvalidState))
              && (tx.Rollback? ==> Tables() == old(Tables()) && error == Some(tx.error))
    {
      if id !in reservations {
        return Some(NotFound);
      }
      var reservation := reservations[id];
      if reservation.status != ResPending {
        return Some(InvalidState);
      }
      if now >= reservation.windowEnd {
        reservations := reservations[id := reservation.(status := ResExpired)];
        ReleaseKeyIfUnreserved(reservation.keyId);
        return Some(InvalidState);
      }
      if reservation.userId !in users {
        return Some(NotFound);
      }
      if !users[reservation.userId].active || !users[reservation.userId].verified {
        return Some(InvalidState);
      }
      reservations := reservations[id := reservation.(status := if approved then ResApproved else ResRejected)];
      if !approved {
        ReleaseKeyIfUnreserved(reservation.keyId);
      }
      return None;
    }

    method ExpireOne(r: Id) returns (affected: nat)
      requires r in reservations
      modifies this`reservations, this`keys
      ensures affected == if IsActiveReservation(old(reservations)[r].status) then 1 else 0
      ensures affected == 1 ==>
                Tables() == ReleaseKey(SetStatus(old(Tables()), r, ResExpired), old(reservations)[r].keyId)
      ensures affected == 0 ==> Tables() == old(Tables())
    {
      if !IsActiveReservation(reservations[r].status) {
        return 0;
      }
      reservations := reservations[r := reservations[r].(status := ResExpired)];
      ReleaseKeyIfUnreserved(reservations[r].keyId);
      return 1;
    }

    method ExpireNext(r: Id, ghost before: Db, ghost done: set<Id>) returns (affected: nat)
      requires Tables() == ExpiredSome(before, done) && r !in done
      requires r in before.reservations && IsActiveReservation(before.reservations[r].status)
      modifies this`reservations, this`keys
      ensures affected == 1 && Tables() == ExpiredSome(before, done + {r})
    {
      ExpireOneMore(before, done, r);
      affected := ExpireOne(r);
    }

    /** The rows that were selected, in whatever order the database returns them. */
    method ExpireEach(found: set<Id>) returns (count: nat)
      requires forall r | r in found :: r in reservations && IsActiveReservation(reservations[r].status)
      modifies this`reservations, this`keys
      ensures Tables() == ExpiredSome(old(Tables()), found) && count == |found|
    {
      ghost var before := Tables();
      var todo := found;
      ghost var done: set<Id> := {};
      count := 0;
      NoneExpiredYet(before);
      while todo != {}
        invariant done !! todo && done + todo == found && count == |done|
        invariant Tables() == ExpiredSome(before, done)
        decreases |todo|
      {
        var r :| r in todo;
        var affected := ExpireNext(r, before, done);
        count := count + affected;
        todo := todo - {r};
        done := done + {r};
      }
      assert done == found;
    }

    /**
     * ExpireBefore: just those whose windows have passed expire, and keys that lose their last
     * reservation are free.
     */
    method ExpireBefore(now: Time) returns (count: nat)
      modifies this
      ensures Tables() == Expired(old(Tables()), now)
      ensures WindowsSwept(old(Tables()), Tables(), now)
      ensures count == |PassedIds(old(Tables()), now)|
    {
      ghost var before := Tables();
      var found := OverdueIds(Tables(), now);
      count := ExpireEach(found);
      AllExpired(before, now);
      ExpiredRows(before, now);
      PassedMeans(before, now);
    }
  }
}
