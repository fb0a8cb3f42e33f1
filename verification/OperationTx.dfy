/**
 * The transactions of the operation repository
 * (server/internal/infrastructure/postgres/operation_repository.go), each as a
 * function from the tables to a commit or a rollback.
 */
module OperationTx {
  import opened LedgerTypes

  // ----- event rows ---------------------------------------------------------

  /** SELECT COALESCE(MAX(seq), 0). */
  function MaxSeq(log: seq<Event>): nat {
    if log == [] then 0
    else
      var before := MaxSeq(log[..|log| - 1]);
      var last := log[|log| - 1].seqNo;
      if before < last then last else before
  }

  function WithEvent(log: seq<Event>, etype: EventType, data: TagData, at: Time): seq<Event> {
    log + [Event(MaxSeq(log) + 1, etype, data, at)]
  }

  /** createEventTx. */
  function LogEvent(db: Db, op: Id, etype: EventType, at: Time): Db {
    db.(logs := db.logs[op := WithEvent(LogOf(db, op), etype, NO_TAG, at)])
  }

  // ----- preparing ----------------------------------------------------------

  predicate Active(db: Db, op: Id) {
    op in db.ops && !IsTerminal(db.ops[op].status)
  }

  predicate DeviceBusy(db: Db, device: Id) {
    exists o | o in db.ops :: Active(db, o) && db.ops[o].deviceId == device
  }

  predicate KeyBusy(db: Db, key: Id) {
    exists o | o in db.ops :: Active(db, o) && db.ops[o].keyId == key
  }

  /**
   * prepareOperationTx: the row is stored AUTHORIZED with its first two events,
   * if the primary key and the unique indexes on request, active device and
   * active key admit it.
   */
  function InsertOp(db: Db, id: Id, op: Operation): (r: Tx)
    ensures r.Commit? ==> r.db.eventKeys == db.eventKeys
  {
    if id in db.ops || op.requestId in db.requests then Rollback(DuplicateRow)
    else if DeviceBusy(db, op.deviceId) || (op.keyId != BLANK && KeyBusy(db, op.keyId)) then Rollback(ActiveIndex)
    else
      var inserted := db.(
        ops := db.ops[id := op.(status := OpAuthorized)],
        requests := db.requests[op.requestId := id]);
      Commit(LogEvent(LogEvent(inserted, id, EvRequestReceived, op.createdAt), id, EvAuthConfirmed, op.createdAt))
  }

  function PreparePickup(db: Db, borrowId: Id, borrow: Borrow, id: Id, op: Operation): Tx {
    if borrowId in db.borrows then Rollback(DuplicateRow)
    else InsertOp(db.(borrows := db.borrows[borrowId := borrow]), id, op)
  }

  function PrepareReturn(db: Db, borrowId: Id, userId: Id, id: Id, op: Operation): Tx {
    if borrowId in db.borrows && db.borrows[borrowId].userId == userId && db.borrows[borrowId].status == Borrowed then
      InsertOp(db.(borrows := db.borrows[borrowId := db.borrows[borrowId].(status := Returning)]), id, op)
    else Rollback(InvalidState)
  }

  // ----- execution ----------------------------------------------------------

  function BeginExecution(db: Db, id: Id, now: Time): Tx {
    if id !in db.ops then Rollback(NotFound)
    else if IsTerminal(db.ops[id].status) then Rollback(OperationTerminal)
    else if db.ops[id].status != OpAuthorized then Rollback(InvalidState)
    else
      var begun := db.(ops := db.ops[id := db.ops[id].(status := OpExecuting, sentAt := Some(now))]);
      Commit(LogEvent(begun, id, EvCommandDispatching, now))
  }

  /** AppendEventIfActive: terminal operations and stored event keys are skipped. */
  function AppendEventIfActive(db: Db, id: Id, key: EventKey, etype: EventType, data: TagData, at: Time): Tx {
    if id !in db.ops then Rollback(NotFound)
    else if IsTerminal(db.ops[id].status) || key in db.eventKeys then Commit(db)
    else
      var acked := if etype in {EvAck, EvReceived, EvCommandAck} && db.ops[id].ackAt == None
                   then db.ops[id := db.ops[id].(ackAt := Some(at))] else db.ops;
      Commit(db.(
        ops := acked,
        logs := db.logs[id := WithEvent(LogOf(db, id), etype, data, at)],
        eventKeys := db.eventKeys + {key}))
  }

  // ----- ending -------------------------------------------------------------

  /** updateOperationStatus followed by createEventTx. */
  function EndOp(db: Db, id: Id, status: OpStatus, code: string, message: string, event: EventType, now: Time): (r: Db)
    requires id in db.ops
    ensures r.eventKeys == db.eventKeys
  {
    var ended := db.ops[id].(status := status, errorCode := code, errorMessage := message,
                             ackAt := Some(now), finishedAt := Some(now));
    LogEvent(db.(ops := db.ops[id := ended]), id, event, now)
  }

  /** updateKeyAndSlot: blank references are skipped, missing rows are an error. */
  predicate HasKeyAndSlot(db: Db, keyId: Id, slotId: Id) {
    (keyId == BLANK || keyId in db.keys) && (slotId == BLANK || slotId in db.slots)
  }

  function WithKeyAndSlot(db: Db, keyId: Id, slotId: Id, status: KeyStatus, presence: Presence): Db
    requires HasKeyAndSlot(db, keyId, slotId)
  {
    db.(
      keys := if keyId == BLANK then db.keys else db.keys[keyId := db.keys[keyId].(status := status)],
      slots := if slotId == BLANK then db.slots else db.slots[slotId := db.slots[slotId].(presence := presence)])
  }

  predicate ReservationUsable(db: Db, r: Id) {
    r == BLANK || (r in db.reservations && IsActiveReservation(db.reservations[r].status))
  }

  predicate BorrowInStatus(db: Db, b: Id, status: BorrowStatus) {
    b in db.borrows && db.borrows[b].status == status
  }

  function CompletePickup(db: Db, id: Id, now: Time): Tx {
    if id !in db.ops then Rollback(NotFound)
    else
      var op := db.ops[id];
      if IsTerminal(op.status) then Commit(db)
      else if op.action != Pickup then Rollback(WrongAction)
      else if op.status != OpExecuting && op.status != OpSent then Rollback(InvalidState)
      else if !ReservationUsable(db, op.reservationId) then Rollback(ReservationInactive)
      else if op.borrowId != BLANK && !BorrowInStatus(db, op.borrowId, Borrowing) then Rollback(BorrowNotReady)
      else if !HasKeyAndSlot(db, op.keyId, op.slotId) then Rollback(NotFound)
      else Commit(EndOp(PickedUp(db, op, now), id, OpSuccess, "", "", EvSuccess, now))
  }

  /** The rows a finished pickup touches besides its operation. */
  function PickedUp(db: Db, op: Operation, now: Time): (r: Db)
    requires ReservationUsable(db, op.reservationId)
    requires op.borrowId == BLANK || op.borrowId in db.borrows
    requires HasKeyAndSlot(db, op.keyId, op.slotId)
    ensures r.ops == db.ops
  {
    var used := if op.reservationId == BLANK then db.reservations
                else db.reservations[op.reservationId :=
                  db.reservations[op.reservationId].(status := ResUsed, usedAt := Some(now))];
    var borrowed := if op.borrowId == BLANK then db.borrows
                    else db.borrows[op.borrowId := db.borrows[op.borrowId].(status := Borrowed,
                        borrowedAt := Some(now))];
    WithKeyAndSlot(db.(reservations := used, borrows := borrowed), op.keyId, op.slotId, KeyBorrowed, Absent)
  }

  /** The tag data of the latest RFID confirmation, if there is one. */
  function LatestRfid(log: seq<Event>): Option<TagData> {
    if log == [] then None
    else if log[|log| - 1].etype == EvRfidConfirmed then Some(log[|log| - 1].data)
    else LatestRfid(log[..|log| - 1])
  }

  function AnyTag(data: TagData): string {
    if data.scannedRfid != "" then data.scannedRfid else if data.uid != "" then data.uid else data.rfidTag
  }

  /** The tag a return is judged by: the one stored on the operation, else the one in its latest confirmation. */
  function ScannedTag(op: Operation, log: seq<Event>): string {
    var stored := TrimSpace(op.scannedRfid);
    if stored != "" then stored
    else match LatestRfid(log)
         case Some(data) => AnyTag(data)
         case None => ""
  }

  /** The strict RFID check; a missing key row skips the comparison. */
  function RfidVerdict(db: Db, op: Operation, log: seq<Event>): Option<Error> {
    if LatestRfid(log) == None && TrimSpace(op.scannedRfid) == "" then Some(RfidNotVerified)
    else if op.keyId == BLANK || op.keyId !in db.keys then None
    else
      var expected := TrimSpace(db.keys[op.keyId].rfidTag);
      var scanned := ScannedTag(op, log);
      if expected == "" then None
      else if scanned == "" then Some(RfidNotVerified)
      else if !EqualFold(TrimSpace(scanned), expected) then Some(RfidMismatch)
      else None
  }

  function CompleteReturn(db: Db, id: Id, now: Time): Tx {
    if id !in db.ops then Rollback(NotFound)
    else
      var op := db.ops[id];
      var verdict := RfidVerdict(db, op, LogOf(db, id));
      if IsTerminal(op.status) then Commit(db)
      else if op.action != Return then Rollback(WrongAction)
      else if op.status != OpExecuting && op.status != OpSent then Rollback(InvalidState)
      else if op.borrowId == BLANK then Rollback(NoBorrow)
      else if verdict.Some? then Rollback(verdict.value)
      else if !BorrowInStatus(db, op.borrowId, Returning) then Rollback(BorrowNotReady)
      else if !HasKeyAndSlot(db, op.keyId, op.slotId) then Rollback(NotFound)
      else
        var tag := ScannedTag(op, LogOf(db, id));
        var back := GivenBack(db, op, tag, now);
        var tagged := back.(ops := back.ops[id := op.(scannedRfid := tag)]);
        Commit(EndOp(tagged, id, OpSuccess, "", "", EvSuccess, now))
  }

  /** The rows a finished return touches besides its operation. */
  function GivenBack(db: Db, op: Operation, tag: string, now: Time): (r: Db)
    requires op.borrowId in db.borrows
    requires HasKeyAndSlot(db, op.keyId, op.slotId)
    ensures r.ops == db.ops
  {
    var borrow := db.borrows[op.borrowId].(status := Completed, returnedAt := Some(now),
                                           rfidVerified := true, scannedRfid := tag, notes := "");
    WithKeyAndSlot(db.(borrows := db.borrows[op.borrowId := borrow]), op.keyId, op.slotId, KeyAvailable, Present)
  }

  /** The three ways an operation ends without success. */
  datatype Ending = Fails(code: string, message: string) | TimesOut | IsCancelled {

    function Status(): OpStatus {
      match this case Fails(_, _) => OpFailed case TimesOut => OpTimeout case IsCancelled => OpCancelled
    }

    function Event(): EventType {
      match this case Fails(_, _) => EvFailed case TimesOut => EvTimeout case IsCancelled => EvCancelled
    }

    function Code(): string {
      match this case Fails(code, _) => code case TimesOut => "OPERATION_TIMEOUT" case IsCancelled => ""
    }

    function Message(): string {
      match this case Fails(_, message) => message case TimesOut => "device operation timed out" case IsCancelled => ""
    }
  }

  const TIMEOUT_NOTE := "设备操作超时"

  /**
   * The borrow row after an unsuccessful end. Fail overwrites the status whatever it
   * is; Timeout and Cancel only touch a borrow that is BORROWING or RETURNING.
   */
  function AbandonedBorrow(borrow: Borrow, action: Action, how: Ending): Borrow {
    var status := if action == Return then Borrowed else Exception;
    match how
    case Fails(_, message) => borrow.(status := status, notes := message)
    case TimesOut =>
      if borrow.status in {Borrowing, Returning} then borrow.(status := status, notes := TIMEOUT_NOTE) else borrow
    case IsCancelled => if borrow.status in {Borrowing, Returning} then borrow.(status := status) else borrow
  }

  /** Fail, Timeout and Cancel; only Cancel reports an operation that is already terminal. */
  function Abandon(db: Db, id: Id, how: Ending, now: Time): Tx {
    if id !in db.ops then Rollback(NotFound)
    else if IsTerminal(db.ops[id].status) then
      if how.IsCancelled? then Rollback(OperationTerminal) else Commit(db)
    else
      var op := db.ops[id];
      var borrows := if op.borrowId in db.borrows && op.borrowId != BLANK
                     then db.borrows[op.borrowId := AbandonedBorrow(db.borrows[op.borrowId], op.action, how)]
                     else db.borrows;
      Commit(EndOp(db.(borrows := borrows), id, how.Status(), how.Code(), how.Message(), how.Event(), now))
  }

  function Fail(db: Db, id: Id, code: string, message: string, now: Time): Tx {
    Abandon(db, id, Fails(code, message), now)
  }

  function Timeout(db: Db, id: Id, now: Time): Tx {
    Abandon(db, id, TimesOut, now)
  }

  function Cancel(db: Db, id: Id, now: Time): Tx {
    Abandon(db, id, IsCancelled, now)
  }
}
