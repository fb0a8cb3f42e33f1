/**
 * The rows of the key-lending ledger: operations, borrow records, reservations,
 * keys, slots and operation events (server/internal/repository).
 */
module LedgerTypes {

  /** Row identifiers. BLANK is Go's empty string: "no such reference". */
  type Id = nat
  const BLANK: Id := 0

  /** Identifiers the server generates. */
  type RowId = id: Id | id != BLANK witness 1

  type Time = int

  datatype Option<+T> = None | Some(value: T)

  datatype Action = Pickup | Return

  datatype OpStatus =
    | OpCreated | OpAuthorized | OpSent | OpExecuting
    | OpSuccess | OpFailed | OpTimeout | OpCancelled

  datatype BorrowStatus = Borrowing | Borrowed | Returning | Completed | Exception

  datatype ReservationStatus = ResPending | ResApproved | ResActive | ResUsed | ResRejected | ResCancelled | ResExpired

  datatype KeyStatus = KeyAvailable | KeyReserved | KeyBorrowed | KeyOverdue | KeyMaintenance | KeyDisabled

  datatype Presence = Present | Absent | Unknown | Fault

  datatype DeviceStatus = Online | Busy | Offline | OutOfService

  /** Event types after trimming and upper-casing. */
  datatype EventType =
    | EvRequestReceived | EvAuthConfirmed | EvCommandDispatching
    | EvSuccess | EvPickupSuccess | EvReturnSuccess
    | EvFailed | EvError | EvPickupFailed | EvReturnFailed
    | EvDoorOpenTimeout | EvMotorError | EvTimeout | EvKeyNotPresent
    | EvRfidConfirmed | EvAck | EvReceived | EvCommandAck
    | EvAbortAck | EvAborted | EvAbortFailed | EvCancelled
    | EvOther(name: string)

  /** The tag fields an event may carry; "" where the field is missing or not a string. */
  datatype TagData = TagData(scannedRfid: string, uid: string, rfidTag: string)

  datatype Operation = Operation(
    requestId: Id, userId: Id, reservationId: Id, borrowId: Id, deviceId: Id, slotId: Id, keyId: Id,
    action: Action, status: OpStatus, scannedRfid: string,
    createdAt: Time, startedAt: Option<Time>, sentAt: Option<Time>, ackAt: Option<Time>, finishedAt: Option<Time>,
    errorCode: string, errorMessage: string)

  datatype Borrow = Borrow(
    reservationId: Id, userId: Id, keyId: Id, deviceId: Id, slotId: Id, status: BorrowStatus,
    borrowedAt: Option<Time>, expectedReturnAt: Time, returnedAt: Option<Time>,
    rfidVerified: bool, scannedRfid: string, notes: string, createdAt: Time)

  datatype Reservation = Reservation(
    userId: Id, keyId: Id, status: ReservationStatus,
    windowStart: Time, windowEnd: Time, returnAt: Time, usedAt: Option<Time>)

  datatype Key = Key(
    status: KeyStatus, rfidTag: string, deviceId: Id, slotId: Id,
    enabled: bool, requiresApproval: bool, isLab: bool)

  datatype Slot = Slot(deviceId: Id, presence: Presence, enabled: bool)

  datatype User = User(active: bool, verified: bool)

  datatype Event = Event(seqNo: nat, etype: EventType, data: TagData, at: Time)

  /** The primary key of an event that came from a device; hashing is taken to be injective. */
  datatype EventKey = EventKey(deviceId: Id, msgId: Id)

  /**
   * All tables. `requests` is the unique index on request_id; `eventKeys` the
   * primary keys of the stored device events; `logs` the event rows of each operation.
   */
  datatype Db = Db(
    ops: map<Id, Operation>, requests: map<Id, Id>, borrows: map<Id, Borrow>,
    reservations: map<Id, Reservation>, keys: map<Id, Key>, slots: map<Id, Slot>,
    users: map<Id, User>, devices: map<Id, DeviceStatus>,
    logs: map<Id, seq<Event>>, eventKeys: set<EventKey>)

  datatype Error =
    | InvalidInput | Unauthorized | Forbidden | NotFound | Conflict | InvalidState | TooEarly | WindowExpired
    | Unavailable | Internal | DuplicateRow | ActiveIndex | OperationTerminal | WrongAction
    | ReservationInactive | BorrowNotReady | NoBorrow | RfidNotVerified | RfidMismatch

  /** The outcome of one database transaction. */
  datatype Tx = Commit(db: Db) | Rollback(error: Error)

  /** The tables after a transaction: a rolled-back one leaves no trace. */
  function Applied(db: Db, tx: Tx): Db {
    if tx.Commit? then tx.db else db
  }

  predicate IsTerminal(status: OpStatus) {
    status in {OpSuccess, OpFailed, OpTimeout, OpCancelled}
  }

  predicate IsOpen(status: BorrowStatus) {
    status in {Borrowing, Borrowed, Returning}
  }

  predicate IsActiveReservation(status: ReservationStatus) {
    status in {ResPending, ResApproved, ResActive}
  }

  const NO_TAG := TagData("", "", "")

  function LogOf(db: Db, op: Id): seq<Event> {
    if op in db.logs then db.logs[op] else []
  }

  /** PostgreSQL's && on the half-open ranges [a, b) and [c, d): they share a point. */
  predicate Overlap(a: Time, b: Time, c: Time, d: Time) {
    a < b && c < d && a < d && c < b
  }

  /** Unicode's White_Space. */
  predicate IsSpace(c: char) {
    || '\U{0009}' <= c <= '\U{000D}' || '\U{2000}' <= c <= '\U{200A}'
    || c in {' ', '\U{0085}', '\U{00A0}', '\U{1680}', '\U{2028}', '\U{2029}', '\U{202F}', '\U{205F}', '\U{3000}'}
  }

  function TrimLeft(s: string): string {
    if s != "" && IsSpace(s[0]) then TrimLeft(s[1..]) else s
  }

  function TrimRight(s: string): string {
    if s != "" && IsSpace(s[|s| - 1]) then TrimRight(s[..|s| - 1]) else s
  }

  function TrimSpace(s: string): string {
    TrimRight(TrimLeft(s))
  }

  function Lower(c: char): char {
    if 'A' <= c <= 'Z' then c - 'A' + 'a' else c
  }

  /** Equal up to ASCII letter case. */
  predicate EqualFold(a: string, b: string) {
    |a| == |b| && forall i :: 0 <= i < |a| ==> Lower(a[i]) == Lower(b[i])
  }
}
