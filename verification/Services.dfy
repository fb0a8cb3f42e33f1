/**
 * The request-facing services: starting pickups and returns, dispensing directly,
 * and reserving keys (server/internal/service). Each check-then-write is one step.
 */
module Services {
  import opened LedgerTypes
  import opened OperationTx
  import opened ReservationTx

  const SECOND := 1000
  const MINUTE := 60 * SECOND
  const HOUR := 60 * MINUTE

  /** What a caller of a start service is told. */
  datatype Reply = Refused(error: Error) | Existing(op: Id) | Prepared(op: Id)

  datatype Outcome = Outcome(reply: Reply, db: Db)

  predicate Verified(db: Db, user: Id) {
    user in db.users && db.users[user].active && db.users[user].verified
  }

  /** FindActiveByKeyID of the borrow repository returns a row. */
  predicate HasOpenBorrow(db: Db, key: Id) {
    exists b | b in db.borrows :: db.borrows[b].keyId == key && IsOpen(db.borrows[b].status)
  }

  /** FindActiveByReservation returns a row. */
  predicate ReservationBusy(db: Db, r: Id) {
    exists o | o in db.ops :: Active(db, o) && db.ops[o].reservationId == r
  }

  /** ensureDeviceReady; the gateway's own answer is an input. */
  function DeviceReady(db: Db, device: Id, gatewayOnline: bool): Option<Error> {
    if device !in db.devices then Some(NotFound)
    else if db.devices[device] == Busy then Some(Conflict)
    else if db.devices[device] != Online then Some(Unavailable)
    else if !gatewayOnline then Some(Unavailable)
    else None
  }

  /** resolvePrepareError: a lost race on the request id still finds the winner, if it is the same task. */
  function ResolvePrepareError(db: Db, op: Operation, error: Error): Reply {
    if op.requestId in db.requests && db.requests[op.requestId] in db.ops then
      var existing := db.ops[db.requests[op.requestId]];
      if existing.userId != op.userId then Refused(Forbidden)
      else if existing.deviceId != op.deviceId || existing.action != op.action || existing.keyId != op.keyId
              || existing.reservationId != op.reservationId
              || (op.action == Return && existing.borrowId != op.borrowId) then Refused(Conflict)
      else Existing(db.requests[op.requestId])
    else if error == ActiveIndex then Refused(Conflict)
    else if error == InvalidState then Refused(InvalidState)
    else Refused(Internal)
  }

  function Concluded(db: Db, id: Id, op: Operation, tx: Tx): Outcome {
    match tx
    case Commit(after) => Outcome(Prepared(id), after)
    case Rollback(error) => Outcome(ResolvePrepareError(db, op, error), db)
  }

  // ----- pickups against a reservation ---------------------------------------

  datatype PickupRequest = PickupRequest(
    user: Id, reservation: Id, request: Id, cabinet: Id, newBorrow: RowId, newOp: RowId, now: Time, gatewayOnline: bool)

  function NewPickup(db: Db, q: PickupRequest): (Borrow, Operation)
    requires q.reservation in db.reservations && db.reservations[q.reservation].keyId in db.keys
  {
    var r := db.reservations[q.reservation];
    var key := db.keys[r.keyId];
    (Borrow(q.reservation, q.user, r.keyId, key.deviceId, key.slotId, Borrowing,
            None, r.returnAt, None, false, "", "", q.now),
     Operation(q.request, q.user, q.reservation, q.newBorrow, key.deviceId, key.slotId, r.keyId,
               Pickup, OpAuthorized, "", q.now, Some(q.now), None, None, None, "", ""))
  }

  /** The checks of startPickup after the idempotency lookup, in order; None lets it prepare. */
  function PickupObstacle(db: Db, q: PickupRequest): Option<Error> {
    if q.reservation !in db.reservations || db.reservations[q.reservation].userId != q.user then Some(NotFound)
    else
      var r := db.reservations[q.reservation];
      var ready := r.status == ResActive || r.status == ResApproved;
      if ready && q.now < r.windowStart then Some(TooEarly)
      else if ready && q.now > r.windowEnd then Some(WindowExpired)
      else if !ready then Some(InvalidState)
      else if r.keyId !in db.keys || db.keys[r.keyId].slotId !in db.slots then Some(NotFound)
      else
        var key := db.keys[r.keyId];
        var slot := db.slots[key.slotId];
        var offline := DeviceReady(db, key.deviceId, q.gatewayOnline);
        if key.deviceId == BLANK || slot.deviceId != key.deviceId then Some(InvalidState)
        else if q.cabinet != BLANK && key.deviceId != q.cabinet then Some(Forbidden)
        else if key.status != KeyAvailable && key.status != KeyReserved then Some(InvalidState)
        else if !slot.enabled || slot.presence != Present then Some(InvalidState)
        else if offline.Some? then offline
        else if ReservationBusy(db, q.reservation) || DeviceBusy(db, key.deviceId)
            || KeyBusy(db, r.keyId) then Some(Conflict)
        else if HasOpenBorrow(db, r.keyId) then Some(Conflict)
        else None
  }

  /** startPickup up to the prepared operation; StartCabinetPickup passes its cabinet, StartPickup BLANK. */
  function StartPickup(db: Db, q: PickupRequest): Outcome {
    if q.user == BLANK || q.reservation == BLANK || q.request == BLANK then Outcome(Refused(InvalidInput), db)
    else if !Verified(db, q.user) then Outcome(Refused(Forbidden), db)
    else if q.request in db.requests && db.requests[q.request] in db.ops then
      var existing := db.ops[db.requests[q.request]];
      if existing.userId != q.user then Outcome(Refused(Forbidden), db)
      else if existing.action != Pickup || existing.reservationId != q.reservation
              || (q.cabinet != BLANK && existing.deviceId != q.cabinet) then Outcome(Refused(Conflict), db)
      else Outcome(Existing(db.requests[q.request]), db)
    else
      match PickupObstacle(db, q)
      case Some(error) => Outcome(Refused(error), db)
      case None =>
        var (borrow, op) := NewPickup(db, q);
        Concluded(db, q.newOp, op, PreparePickup(db, q.newBorrow, borrow, q.newOp, op))
  }

  // ----- returns --------------------------------------------------------------

  datatype ReturnRequest = ReturnRequest(
    user: Id, borrow: Id, device: Id, request: Id, newOp: RowId, now: Time, gatewayOnline: bool)

  function NewReturn(db: Db, q: ReturnRequest): Operation
    requires q.borrow in db.borrows && db.borrows[q.borrow].keyId in db.keys
  {
    var b := db.borrows[q.borrow];
    Operation(q.request, q.user, BLANK, q.borrow, b.deviceId, db.keys[b.keyId].slotId, b.keyId,
              Return, OpAuthorized, "", q.now, Some(q.now), None, None, None, "", "")
  }

  function ReturnObstacle(db: Db, q: ReturnRequest): Option<Error> {
    if q.borrow !in db.borrows || db.borrows[q.borrow].userId != q.user then Some(NotFound)
    else
      var b := db.borrows[q.borrow];
      var offline := DeviceReady(db, b.deviceId, q.gatewayOnline);
      if q.device != BLANK && q.device != b.deviceId then Some(InvalidState)
      else if b.keyId !in db.keys || db.keys[b.keyId].slotId !in db.slots then Some(NotFound)
      else if db.keys[b.keyId].slotId != b.slotId then Some(InvalidState)
      else if offline.Some? then offline
      else if DeviceBusy(db, b.deviceId) || KeyBusy(db, b.keyId) then Some(Conflict)
      else if b.status != Borrowed then Some(InvalidState)
      else None
  }

  /** StartReturn up to the prepared operation. */
  function StartReturn(db: Db, q: ReturnRequest): Outcome {
    if q.user == BLANK || q.borrow == BLANK || q.request == BLANK then Outcome(Refused(InvalidInput), db)
    else if q.request in db.requests && db.requests[q.request] in db.ops then
      var existing := db.ops[db.requests[q.request]];
      if existing.userId != q.user then Outcome(Refused(Forbidden), db)
      else if existing.action != Return || existing.borrowId != q.borrow
              || (q.device != BLANK && existing.deviceId != q.device) then Outcome(Refused(Conflict), db)
      else Outcome(Existing(db.requests[q.request]), db)
    else
      match ReturnObstacle(db, q)
      case Some(error) => Outcome(Refused(error), db)
      case None =>
        var op := NewReturn(db, q);
        Concluded(db, q.newOp, op, PrepareReturn(db, q.borrow, q.user, q.newOp, op))
  }

  // ----- direct dispensing ------------------------------------------------------

  /** `matched` is the key found by room number, used when no key is named; BLANK if there is none. */
  datatype DispenseRequest = DispenseRequest(
    request: Id, device: Id, room: Id, key: Id, matched: Id, user: Id, newBorrow: RowId, newOp: RowId, now: Time)

  function Target(q: DispenseRequest): Id {
    if q.key != BLANK then q.key else q.matched
  }

  function LendingTime(key: Key): Time {
    if key.isLab then 8 * HOUR else 4 * HOUR
  }

  function NewDispense(db: Db, q: DispenseRequest): (Borrow, Operation)
    requires Target(q) in db.keys
  {
    var key := db.keys[Target(q)];
    (Borrow(BLANK, q.user, Target(q), q.device, key.slotId, Borrowing,
            None, q.now + LendingTime(key), None, false, "", "", q.now),
     Operation(q.request, q.user, BLANK, q.newBorrow, q.device, key.slotId, Target(q),
               Pickup, OpAuthorized, "", q.now, Some(q.now), None, None, None, "", ""))
  }

  function DispenseObstacle(db: Db, q: DispenseRequest): Option<Error> {
    if Target(q) == BLANK || Target(q) !in db.keys then Some(NotFound)
    else
      var key := db.keys[Target(q)];
      if key.deviceId != q.device then Some(Forbidden)
      else if !key.enabled then Some(Forbidden)
      else if key.status != KeyAvailable then Some(Conflict)
      else if key.requiresApproval then Some(Forbidden)
      else if key.slotId !in db.slots then Some(NotFound)
      else
        var slot := db.slots[key.slotId];
        if !slot.enabled then Some(Forbidden)
        else if slot.deviceId != q.device then Some(InvalidState)
        else if slot.presence != Present then Some(Conflict)
        else if HasOpenBorrow(db, Target(q)) then Some(Conflict)
        else if DeviceBusy(db, q.device) then Some(Conflict)
        else if HasConflict(db, Target(q), q.now, q.now + LendingTime(key)) then Some(Conflict)
        else None
  }

  /** DirectDispense up to the prepared operation. */
  function DirectDispense(db: Db, q: DispenseRequest): Outcome {
    if q.request == BLANK || q.device == BLANK then Outcome(Refused(InvalidInput), db)
    else if q.user == BLANK then Outcome(Refused(Unauthorized), db)
    else if q.room == BLANK && q.key == BLANK then Outcome(Refused(InvalidInput), db)
    else if q.device !in db.devices then Outcome(Refused(NotFound), db)
    else if db.devices[q.device] != Online then Outcome(Refused(Forbidden), db)
    else if q.user !in db.users then Outcome(Refused(NotFound), db)
    else if !Verified(db, q.user) then Outcome(Refused(Forbidden), db)
    else if q.request in db.requests && db.requests[q.request] in db.ops then
      var existing := db.ops[db.requests[q.request]];
      if existing.userId != q.user || existing.deviceId != q.device || existing.action != Pickup
         || (q.key != BLANK && existing.keyId != q.key) then Outcome(Refused(Conflict), db)
      else Outcome(Existing(db.requests[q.request]), db)
    else
      match DispenseObstacle(db, q)
      case Some(error) => Outcome(Refused(error), db)
      case None =>
        var (borrow, op) := NewDispense(db, q);
        match PreparePickup(db, q.newBorrow, borrow, q.newOp, op)
        case Commit(after) => Outcome(Prepared(q.newOp), after)
        case Rollback(_) => Outcome(Refused(Internal), db)
  }

  // ----- reservations -------------------------------------------------------------

  /** Times left out of a request (Go's zero time) are None. */
  datatype ReserveRequest = ReserveRequest(
    user: Id, key: Id, start: Option<Time>, end: Option<Time>, returnAt: Option<Time>, duration: Time,
    newReservation: RowId, now: Time)

  function StartOf(q: ReserveRequest): Time {
    if q.start.Some? then q.start.value else q.now
  }

  function EndOf(q: ReserveRequest): Time {
    if q.end.Some? then q.end.value else StartOf(q) + 30 * MINUTE
  }

  function ReturnOf(q: ReserveRequest): Time {
    if q.returnAt.Some? then q.returnAt.value
    else StartOf(q) + (if q.duration <= 0 then 2 * HOUR else q.duration)
  }

  /** Key and device are such that reserving is possible at all. */
  predicate KeyOffered(key: Key) {
    key.enabled && key.status !in {KeyDisabled, KeyMaintenance, KeyBorrowed, KeyOverdue}
  }

  /** timeRangesOverlap, which does not look at empty ranges. */
  predicate TimeRangesOverlap(startA: Time, endA: Time, startB: Time, endB: Time) {
    startA < endB && endA > startB
  }

  predicate UserHasConflict(db: Db, user: Id, key: Id, start: Time, end: Time) {
    exists r | r in db.reservations ::
      && db.reservations[r].userId == user
      && ActiveFor(db, r, key)
      && TimeRangesOverlap(db.reservations[r].windowStart, db.reservations[r].returnAt, start, end)
  }

  function ReserveObstacle(db: Db, q: ReserveRequest): Option<Error> {
    if q.user == BLANK || q.key == BLANK then Some(InvalidInput)
    else if !Verified(db, q.user) then Some(Forbidden)
    else if q.key !in db.keys then Some(NotFound)
    else
      var key := db.keys[q.key];
      if !KeyOffered(key) then Some(InvalidState)
      else if key.deviceId !in db.devices then Some(NotFound)
      else if db.devices[key.deviceId] != Online then Some(Unavailable)
      else if HasOpenBorrow(db, q.key) then Some(Conflict)
      else if StartOf(q) >= EndOf(q) || EndOf(q) >= ReturnOf(q) then Some(InvalidInput)
      else if UserHasConflict(db, q.user, q.key, StartOf(q), ReturnOf(q)) then Some(Conflict)
      else if HasConflict(db, q.key, StartOf(q), ReturnOf(q)) then Some(Conflict)
      else None
  }

  function NewReservation(db: Db, q: ReserveRequest): Reservation
    requires q.key in db.keys
  {
    Reservation(q.user, q.key, if db.keys[q.key].requiresApproval then ResPending else ResActive,
                StartOf(q), EndOf(q), ReturnOf(q), None)
  }

  function CreateReservation(db: Db, q: ReserveRequest): Tx {
    match ReserveObstacle(db, q)
    case Some(error) => Rollback(error)
    case None => CreateRow(db, q.newReservation, NewReservation(db, q))
  }

  /** CanReserveKey; None is the refusal to answer an empty range or an unknown key. */
  function CanReserveKey(db: Db, key: Id, start: Option<Time>, end: Option<Time>, now: Time): Option<bool> {
    var from := if start.Some? then start.value else now;
    var to := if end.Some? then end.value else from + 2 * HOUR;
    if key !in db.keys then None
    else if !KeyOffered(db.keys[key]) then Some(false)
    else if db.keys[key].deviceId !in db.devices || db.devices[db.keys[key].deviceId] != Online then Some(false)
    else if HasOpenBorrow(db, key) then Some(false)
    else if from >= to then None
    else Some(!HasConflict(db, key, from, to))
  }

  /** CancelReservation: a check of an earlier state `seen`, then the unguarded write. */
  function CancelReservation(seen: Db, db: Db, user: Id, id: Id): Tx {
    if id == BLANK then Rollback(InvalidInput)
    else if id !in seen.reservations || seen.reservations[id].userId != user then Rollback(NotFound)
    else if !IsActiveReservation(seen.reservations[id].status) then Rollback(InvalidState)
    else WriteCancelled(db, id)
  }
}
