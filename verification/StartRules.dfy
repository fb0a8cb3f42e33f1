/**
 * Who is handed what: which requests are prepared, what a refused one is told, and the rows
 * a prepared one leaves, all read off the columns of the tables.
 */
module StartRules {
  import opened LedgerTypes
  import opened OperationTx
  import opened ReservationTx
  import opened Services

  predicate Unfinished(op: Operation) {
    op.status in {OpCreated, OpAuthorized, OpSent, OpExecuting}
  }

  ghost predicate CabinetIdle(db: Db, device: Id) {
    forall o | o in db.ops && db.ops[o].deviceId == device :: !Unfinished(db.ops[o])
  }

  ghost predicate KeyIdle(db: Db, key: Id) {
    forall o | o in db.ops && db.ops[o].keyId == key :: !Unfinished(db.ops[o])
  }

  ghost predicate ReservationIdle(db: Db, reservation: Id) {
    forall o | o in db.ops && db.ops[o].reservationId == reservation :: !Unfinished(db.ops[o])
  }

  ghost predicate NotLent(db: Db, key: Id) {
    forall b | b in db.borrows && db.borrows[b].keyId == key ::
      db.borrows[b].status in {Completed, Exception}
  }

  predicate ActiveVerified(db: Db, user: Id) {
    user in db.users && db.users[user] == User(active := true, verified := true)
  }

  /** The ids a request brings are new. */
  predicate NewIds(db: Db, request: Id, op: Id) {
    request !in db.requests && op !in db.ops && op !in db.logs
  }

  /** A prepared operation has been stored with the two events that open its log. */
  predicate Stored(db: Db, after: Db, id: Id, op: Operation) {
    after == db.(ops := db.ops[id := op], requests := db.requests[op.requestId := id], borrows := after.borrows,
                 logs := db.logs[id := [Event(1, EvRequestReceived, NO_TAG, op.createdAt),
                                        Event(2, EvAuthConfirmed, NO_TAG, op.createdAt)]])
  }

  lemma TwoEvents(log: seq<Event>, at: Time)
    requires log == []
    ensures WithEvent(WithEvent(log, EvRequestReceived, NO_TAG, at), EvAuthConfirmed, NO_TAG, at)
            == [Event(1, EvRequestReceived, NO_TAG, at), Event(2, EvAuthConfirmed, NO_TAG, at)]
  {
    var one := Event(1, EvRequestReceived, NO_TAG, at);
    assert WithEvent(log, EvRequestReceived, NO_TAG, at) == [one];
    OneEvent(one);
    assert WithEvent([one], EvAuthConfirmed, NO_TAG, at) == [one] + [Event(2, EvAuthConfirmed, NO_TAG, at)];
  }

  lemma OneEvent(e: Event)
    ensures MaxSeq([e]) == e.seqNo
  {
    assert [e][..|[e]| - 1] == [];
  }

  /** The indexes on active operations see what is unfinished. */
  lemma IdleMeans(db: Db, device: Id, key: Id, reservation: Id)
    ensures CabinetIdle(db, device) <==> !DeviceBusy(db, device)
    ensures KeyIdle(db, key) <==> !KeyBusy(db, key)
    ensures ReservationIdle(db, reservation) <==> !ReservationBusy(db, reservation)
    ensures NotLent(db, key) <==> !HasOpenBorrow(db, key)
  {
    forall o | o in db.ops ensures Active(db, o) <==> Unfinished(db.ops[o]) {
      TwoHalves(db.ops[o].status);
    }
    forall b | b in db.borrows ensures IsOpen(db.borrows[b].status)
                                       <==> db.borrows[b].status !in {Completed, Exception}
    {
      OpenOrClosed(db.borrows[b].status);
    }
  }

  lemma TwoHalves(status: OpStatus)
    ensures status in {OpCreated, OpAuthorized, OpSent, OpExecuting} <==> !IsTerminal(status)
  {
    match status
    case OpCreated => case OpAuthorized => case OpSent => case OpExecuting =>
    case OpSuccess => case OpFailed => case OpTimeout => case OpCancelled =>
  }

  lemma OpenOrClosed(status: BorrowStatus)
    ensures IsOpen(status) <==> status !in {Completed, Exception}
  {
    match status
    case Borrowing => case Borrowed => case Returning => case Completed => case Exception =>
  }

  /** No index stands in the way of a new operation on an idle cabinet and key. */
  lemma Admitted(db: Db, id: Id, op: Operation, after: Db)
    requires NewIds(db, op.requestId, id) && CabinetIdle(db, op.deviceId)
             && (op.keyId != BLANK ==> KeyIdle(db, op.keyId))
    requires op.status == OpAuthorized
    requires after == db.(ops := db.ops[id := op], requests := db.requests[op.requestId := id],
                          logs := db.logs[id := [Event(1, EvRequestReceived, NO_TAG, op.createdAt),
                                                 Event(2, EvAuthConfirmed, NO_TAG, op.createdAt)]])
    ensures InsertOp(db, id, op) == Commit(after)
  {
    IdleMeans(db, op.deviceId, op.keyId, BLANK);
    var inserted := db.(ops := db.ops[id := op], requests := db.requests[op.requestId := id]);
    assert LogOf(inserted, id) == [];
    var requested := LogEvent(inserted, id, EvRequestReceived, op.createdAt);
    TwoEvents([], op.createdAt);
    assert LogEvent(requested, id, EvAuthConfirmed, op.createdAt).logs == after.logs;
    assert op.(status := OpAuthorized) == op;
  }

  lemma InsertedRows(db: Db, id: Id, op: Operation, after: Db)
    requires InsertOp(db, id, op) == Commit(after) && op.status == OpAuthorized
    ensures id !in db.ops && after.ops == db.ops[id := op]
    ensures after.borrows == db.borrows && after.reservations == db.reservations
  {
    assert op.(status := OpAuthorized) == op;
  }

  // ----- pickups against a reservation -----------------------------------------------------------

  predicate FilledIn(q: PickupRequest) {
    q.user != BLANK && q.reservation != BLANK && q.request != BLANK
  }

  /** The reservation is the caller's own. */
  predicate OwnReservation(db: Db, q: PickupRequest) {
    q.reservation in db.reservations && db.reservations[q.reservation].userId == q.user
  }

  predicate Granted(r: Reservation) {
    r.status in {ResActive, ResApproved}
  }

  predicate WindowOpen(r: Reservation, now: Time) {
    r.windowStart <= now <= r.windowEnd
  }

  /** Key and slot have rows. */
  predicate Kept(db: Db, key: Id) {
    key in db.keys && db.keys[key].slotId in db.slots
  }

  predicate SameCabinet(db: Db, key: Id)
    requires Kept(db, key)
  {
    db.keys[key].deviceId != BLANK && db.slots[db.keys[key].slotId].deviceId == db.keys[key].deviceId
  }

  predicate InPlace(db: Db, key: Id)
    requires Kept(db, key)
  {
    && db.keys[key].status in {KeyAvailable, KeyReserved}
    && db.slots[db.keys[key].slotId].enabled && db.slots[db.keys[key].slotId].presence == Present
  }

  predicate CabinetReady(db: Db, device: Id, gatewayOnline: bool) {
    device in db.devices && db.devices[device] == Online && gatewayOnline
  }

  ghost predicate NothingGoesOn(db: Db, q: PickupRequest, key: Id)
    requires key in db.keys
  {
    && ReservationIdle(db, q.reservation) && CabinetIdle(db, db.keys[key].deviceId) && KeyIdle(db, key)
    && NotLent(db, key)
  }

  /** Everything a pickup takes. */
  ghost predicate PickupAllowed(db: Db, q: PickupRequest) {
    && FilledIn(q) && ActiveVerified(db, q.user) && OwnReservation(db, q)
    && var r := db.reservations[q.reservation];
    && Granted(r) && WindowOpen(r, q.now) && Kept(db, r.keyId)
    && SameCabinet(db, r.keyId) && q.cabinet in {BLANK, db.keys[r.keyId].deviceId}
    && InPlace(db, r.keyId) && CabinetReady(db, db.keys[r.keyId].deviceId, q.gatewayOnline)
    && NothingGoesOn(db, q, r.keyId)
  }

  predicate NewPickupIds(db: Db, q: PickupRequest) {
    NewIds(db, q.request, q.newOp) && q.newBorrow !in db.borrows
  }

  /** What a prepared pickup is: the reservation's key, for the caller, until the time reserved. */
  predicate PickupStored(db: Db, after: Db, q: PickupRequest)
    requires q.reservation in db.reservations && db.reservations[q.reservation].keyId in db.keys
  {
    var r := db.reservations[q.reservation];
    var key := db.keys[r.keyId];
    && after.borrows == db.borrows[q.newBorrow := Borrow(
         reservationId := q.reservation, userId := q.user, keyId := r.keyId, deviceId := key.deviceId,
         slotId := key.slotId, status := Borrowing, borrowedAt := None, expectedReturnAt := r.returnAt,
         returnedAt := None, rfidVerified := false, scannedRfid := "", notes := "", createdAt := q.now)]
    && Stored(db, after, q.newOp, Operation(
         requestId := q.request, userId := q.user, reservationId := q.reservation, borrowId := q.newBorrow,
         deviceId := key.deviceId, slotId := key.slotId, keyId := r.keyId, action := Pickup,
         status := OpAuthorized, scannedRfid := "", createdAt := q.now, startedAt := Some(q.now), sentAt := None,
         ackAt := None, finishedAt := None, errorCode := "", errorMessage := ""))
  }

  /** A new request for a pickup is prepared iff all of that holds. */
  lemma PickupPreparedIff(db: Db, q: PickupRequest)
    requires NewPickupIds(db, q)
    ensures StartPickup(db, q).reply == Prepared(q.newOp) <==> PickupAllowed(db, q)
    ensures if PickupAllowed(db, q) then PickupStored(db, StartPickup(db, q).db, q)
            else StartPickup(db, q).reply.Refused? && StartPickup(db, q).db == db
  {
    if PickupAllowed(db, q) {
      AllowedPickup(db, q);
    } else {
      PickupRefusals(db, q);
    }
  }

  lemma AllowedPickup(db: Db, q: PickupRequest)
    requires NewPickupIds(db, q) && PickupAllowed(db, q)
    ensures StartPickup(db, q).reply == Prepared(q.newOp) && PickupStored(db, StartPickup(db, q).db, q)
  {
    var r := db.reservations[q.reservation];
    IdleMeans(db, db.keys[r.keyId].deviceId, r.keyId, q.reservation);
    assert PickupObstacle(db, q).None?;
    var (borrow, op) := NewPickup(db, q);
    var lent := db.(borrows := db.borrows[q.newBorrow := borrow]);
    var after := lent.(ops := db.ops[q.newOp := op], requests := db.requests[q.request := q.newOp],
                       logs := db.logs[q.newOp := [Event(1, EvRequestReceived, NO_TAG, q.now),
                                                   Event(2, EvAuthConfirmed, NO_TAG, q.now)]]);
    Admitted(lent, q.newOp, op, after);
    assert PreparePickup(db, q.newBorrow, borrow, q.newOp, op) == Commit(after);
  }

  /** What a refused one is told: the first thing that is missing, in this order. */
  lemma PickupRefusals(db: Db, q: PickupRequest)
    requires NewPickupIds(db, q) && !PickupAllowed(db, q)
    ensures StartPickup(db, q) == Outcome(Refused(PickupRefusal(db, q)), db)
  {
    if FilledIn(q) && ActiveVerified(db, q.user) {
      PickupStops(db, q);
    }
  }

  lemma PickupStops(db: Db, q: PickupRequest)
    requires !PickupAllowed(db, q) && FilledIn(q) && ActiveVerified(db, q.user)
    ensures PickupObstacle(db, q) == Some(PickupRefusal(db, q))
  {
    if OwnReservation(db, q) && Kept(db, db.reservations[q.reservation].keyId) {
      var r := db.reservations[q.reservation];
      IdleMeans(db, db.keys[r.keyId].deviceId, r.keyId, q.reservation);
    }
  }

  /** The cases, one by one. */
  ghost function PickupRefusal(db: Db, q: PickupRequest): Error
    requires !PickupAllowed(db, q)
  {
    if !FilledIn(q) then InvalidInput
    else if !ActiveVerified(db, q.user) then Forbidden
    else if !OwnReservation(db, q) then NotFound
    else
      var r := db.reservations[q.reservation];
      if !Granted(r) then InvalidState
      else if !WindowOpen(r, q.now) then (if q.now < r.windowStart then TooEarly else WindowExpired)
      else if !Kept(db, r.keyId) then NotFound
      else if !SameCabinet(db, r.keyId) then InvalidState
      else if q.cabinet !in {BLANK, db.keys[r.keyId].deviceId} then Forbidden
      else if !InPlace(db, r.keyId) then InvalidState
      else if !CabinetReady(db, db.keys[r.keyId].deviceId, q.gatewayOnline)
      then CabinetRefusal(db, db.keys[r.keyId].deviceId)
      else Conflict
  }

  function CabinetRefusal(db: Db, device: Id): Error {
    if device !in db.devices then NotFound
    else if db.devices[device] == Busy then Conflict
    else Unavailable
  }

  // ----- returns -------------------------------------------------------------------------------------

  predicate ReturnFilledIn(q: ReturnRequest) {
    q.user != BLANK && q.borrow != BLANK && q.request != BLANK
  }

  /** The record is the caller's own. */
  predicate OwnBorrow(db: Db, q: ReturnRequest) {
    q.borrow in db.borrows && db.borrows[q.borrow].userId == q.user
  }

  ghost predicate ReturnAllowed(db: Db, q: ReturnRequest) {
    && ReturnFilledIn(q) && OwnBorrow(db, q)
    && var b := db.borrows[q.borrow];
    && q.device in {BLANK, b.deviceId} && Kept(db, b.keyId) && db.keys[b.keyId].slotId == b.slotId
    && CabinetReady(db, b.deviceId, q.gatewayOnline)
    && CabinetIdle(db, b.deviceId) && KeyIdle(db, b.keyId) && b.status == Borrowed
  }

  /** A prepared return is for the key, slot and cabinet of the record, which is RETURNING and otherwise as it was. */
  predicate ReturnStored(db: Db, after: Db, q: ReturnRequest)
    requires q.borrow in db.borrows
  {
    var b := db.borrows[q.borrow];
    && after.borrows == db.borrows[q.borrow := b.(status := Returning)]
    && Stored(db, after, q.newOp, Operation(
         requestId := q.request, userId := q.user, reservationId := BLANK, borrowId := q.borrow,
         deviceId := b.deviceId, slotId := b.slotId, keyId := b.keyId, action := Return,
         status := OpAuthorized, scannedRfid := "", createdAt := q.now, startedAt := Some(q.now), sentAt := None,
         ackAt := None, finishedAt := None, errorCode := "", errorMessage := ""))
  }

  ghost function ReturnRefusal(db: Db, q: ReturnRequest): Error
    requires !ReturnAllowed(db, q)
  {
    if !ReturnFilledIn(q) then InvalidInput
    else if !OwnBorrow(db, q) then NotFound
    else
      var b := db.borrows[q.borrow];
      if q.device !in {BLANK, b.deviceId} then InvalidState
      else if !Kept(db, b.keyId) then NotFound
      else if db.keys[b.keyId].slotId != b.slotId then InvalidState
      else if !CabinetReady(db, b.deviceId, q.gatewayOnline) then CabinetRefusal(db, b.deviceId)
      else if !(CabinetIdle(db, b.deviceId) && KeyIdle(db, b.keyId)) then Conflict
      else InvalidState
  }

  /** A new request for a return is prepared iff all of that holds; a refused one is told what is missing. */
  lemma ReturnPreparedIff(db: Db, q: ReturnRequest)
    requires NewIds(db, q.request, q.newOp)
    ensures StartReturn(db, q).reply == Prepared(q.newOp) <==> ReturnAllowed(db, q)
    ensures if ReturnAllowed(db, q) then ReturnStored(db, StartReturn(db, q).db, q)
            else StartReturn(db, q) == Outcome(Refused(ReturnRefusal(db, q)), db)
  {
    if q.borrow in db.borrows {
      IdleMeans(db, db.borrows[q.borrow].deviceId, db.borrows[q.borrow].keyId, BLANK);
    }
    if ReturnAllowed(db, q) {
      AllowedReturn(db, q);
    } else if ReturnFilledIn(q) {
      assert ReturnObstacle(db, q) == Some(ReturnRefusal(db, q));
    }
  }

  lemma AllowedReturn(db: Db, q: ReturnRequest)
    requires NewIds(db, q.request, q.newOp) && ReturnAllowed(db, q)
    ensures StartReturn(db, q).reply == Prepared(q.newOp) && ReturnStored(db, StartReturn(db, q).db, q)
  {
    var b := db.borrows[q.borrow];
    IdleMeans(db, b.deviceId, b.keyId, BLANK);
    assert ReturnObstacle(db, q).None?;
    var op := NewReturn(db, q);
    var taken := db.(borrows := db.borrows[q.borrow := b.(status := Returning)]);
    var after := taken.(ops := db.ops[q.newOp := op], requests := db.requests[q.request := q.newOp],
                        logs := db.logs[q.newOp := [Event(1, EvRequestReceived, NO_TAG, q.now),
                                                    Event(2, EvAuthConfirmed, NO_TAG, q.now)]]);
    Admitted(taken, q.newOp, op, after);
    assert PrepareReturn(db, q.borrow, q.user, q.newOp, op) == Commit(after);
  }

  // ----- direct dispensing ---------------------------------------------------------------------------------

  /** The key that is named, else the one matched by room. */
  predicate Asks(q: DispenseRequest, key: Id) {
    key == if q.key != BLANK then q.key else q.matched
  }

  predicate DispenseFilledIn(q: DispenseRequest) {
    q.request != BLANK && q.device != BLANK && (q.room != BLANK || q.key != BLANK)
  }

  /** Keys of laboratories are lent for eight hours, others for four. */
  function Term(key: Key): Time {
    (if key.isLab then 8 else 4) * 3600 * 1000
  }

  predicate Within(t: Time, from: Time, to: Time) {
    from <= t < to
  }

  /** The key is free of reservations in the half-open time from `from` to `to`. */
  ghost predicate Unreserved(db: Db, key: Id, from: Time, to: Time) {
    forall r | r in db.reservations && db.reservations[r].keyId == key
               && db.reservations[r].status in {ResPending, ResApproved, ResActive} ::
      forall t | Within(t, from, to) :: !Within(t, db.reservations[r].windowStart, db.reservations[r].returnAt)
  }

  predicate FreelyLent(db: Db, q: DispenseRequest, key: Id)
    requires key in db.keys
  {
    && db.keys[key].deviceId == q.device && db.keys[key].enabled && db.keys[key].status == KeyAvailable
    && !db.keys[key].requiresApproval
  }

  predicate SlotFull(db: Db, q: DispenseRequest, key: Id)
    requires key in db.keys
  {
    && db.keys[key].slotId in db.slots
    && db.slots[db.keys[key].slotId] == Slot(q.device, Present, true)
  }

  ghost predicate NobodyElse(db: Db, q: DispenseRequest, key: Id)
    requires key in db.keys
  {
    && NotLent(db, key) && CabinetIdle(db, q.device)
    && Unreserved(db, key, q.now, q.now + Term(db.keys[key]))
  }

  ghost predicate DispenseAllowed(db: Db, q: DispenseRequest, key: Id) {
    && DispenseFilledIn(q) && q.device in db.devices && db.devices[q.device] == Online
    && q.user != BLANK && ActiveVerified(db, q.user)
    && key != BLANK && key in db.keys
    && FreelyLent(db, q, key) && SlotFull(db, q, key) && NobodyElse(db, q, key) && KeyIdle(db, key)
  }

  predicate DispenseStored(db: Db, after: Db, q: DispenseRequest, key: Id)
    requires key in db.keys
  {
    && after.borrows == db.borrows[q.newBorrow := Borrow(
         reservationId := BLANK, userId := q.user, keyId := key, deviceId := q.device,
         slotId := db.keys[key].slotId, status := Borrowing, borrowedAt := None,
         expectedReturnAt := q.now + Term(db.keys[key]),
         returnedAt := None, rfidVerified := false, scannedRfid := "", notes := "", createdAt := q.now)]
    && Stored(db, after, q.newOp, Operation(
         requestId := q.request, userId := q.user, reservationId := BLANK, borrowId := q.newBorrow,
         deviceId := q.device, slotId := db.keys[key].slotId, keyId := key, action := Pickup,
         status := OpAuthorized, scannedRfid := "", createdAt := q.now, startedAt := Some(q.now), sentAt := None,
         ackAt := None, finishedAt := None, errorCode := "", errorMessage := ""))
  }

  predicate NewDispenseIds(db: Db, q: DispenseRequest) {
    NewIds(db, q.request, q.newOp) && q.newBorrow !in db.borrows
  }

  /** A half-open range meets another iff they share a moment. */
  lemma SharedMoment(a: Time, b: Time, c: Time, d: Time)
    ensures Overlap(a, b, c, d) <==> exists t :: Within(t, c, d) && Within(t, a, b)
  {
    if Overlap(a, b, c, d) {
      var t := if a < c then c else a;
      assert Within(t, c, d) && Within(t, a, b);
    }
  }

  lemma UnreservedMeans(db: Db, key: Id, from: Time, to: Time)
    ensures Unreserved(db, key, from, to) <==> !HasConflict(db, key, from, to)
  {
    forall r | r in db.reservations
      ensures Overlap(db.reservations[r].windowStart, db.reservations[r].returnAt, from, to)
              <==> exists t :: Within(t, from, to)
                               && Within(t, db.reservations[r].windowStart, db.reservations[r].returnAt)
      ensures ActiveFor(db, r, key) <==> db.reservations[r].keyId == key
                                         && db.reservations[r].status in {ResPending, ResApproved, ResActive}
    {
      SharedMoment(db.reservations[r].windowStart, db.reservations[r].returnAt, from, to);
    }
  }

  ghost function DispenseRefusal(db: Db, q: DispenseRequest, key: Id): Error
    requires !DispenseAllowed(db, q, key)
  {
    if q.request == BLANK || q.device == BLANK then InvalidInput
    else if q.user == BLANK then Unauthorized
    else if !DispenseFilledIn(q) then InvalidInput
    else if q.device !in db.devices then NotFound
    else if db.devices[q.device] != Online then Forbidden
    else if q.user !in db.users then NotFound
    else if !ActiveVerified(db, q.user) then Forbidden
    else if key == BLANK || key !in db.keys then NotFound
    else if !FreelyLent(db, q, key) then UnlendableKey(db, q, db.keys[key])
    else if !SlotFull(db, q, key) then UnlendableSlot(db, q, db.keys[key].slotId)
    else if !NobodyElse(db, q, key) then Conflict
    else Internal
  }

  /** Why this key is not lent without a reservation. */
  function UnlendableKey(db: Db, q: DispenseRequest, key: Key): Error {
    if key.deviceId == q.device && key.enabled && key.status != KeyAvailable then Conflict else Forbidden
  }

  function UnlendableSlot(db: Db, q: DispenseRequest, slot: Id): Error {
    if slot !in db.slots then NotFound
    else if !db.slots[slot].enabled then Forbidden
    else if db.slots[slot].deviceId != q.device then InvalidState
    else Conflict
  }

  /** A new request to dispense a key is prepared iff all of that holds; a refused one is told what is missing. */
  lemma DispensePreparedIff(db: Db, q: DispenseRequest, key: Id)
    requires NewDispenseIds(db, q) && Asks(q, key)
    ensures DirectDispense(db, q).reply == Prepared(q.newOp) <==> DispenseAllowed(db, q, key)
    ensures if DispenseAllowed(db, q, key) then DispenseStored(db, DirectDispense(db, q).db, q, key)
            else DirectDispense(db, q) == Outcome(Refused(DispenseRefusal(db, q, key)), db)
  {
    IdleMeans(db, q.device, key, BLANK);
    if DispenseAllowed(db, q, key) {
      AllowedDispense(db, q, key);
    } else if DispenseFilledIn(q) && q.user != BLANK && ActiveVerified(db, q.user) {
      DispenseStops(db, q, key);
    }
  }

  lemma DispenseStops(db: Db, q: DispenseRequest, key: Id)
    requires NewDispenseIds(db, q) && Asks(q, key) && !DispenseAllowed(db, q, key)
    requires DispenseFilledIn(q) && q.user != BLANK && ActiveVerified(db, q.user)
    ensures DirectDispense(db, q) == Outcome(Refused(DispenseRefusal(db, q, key)), db)
  {
    IdleMeans(db, q.device, key, BLANK);
    if key in db.keys {
      UnreservedMeans(db, key, q.now, q.now + Term(db.keys[key]));
      if q.device in db.devices && db.devices[q.device] == Online && DispenseObstacle(db, q).None? {
        assert FreelyLent(db, q, key) && SlotFull(db, q, key) && NobodyElse(db, q, key);
        StoredOnBusyKey(db, q, key);
      }
    }
  }

  lemma StoredOnBusyKey(db: Db, q: DispenseRequest, key: Id)
    requires Asks(q, key) && key != BLANK && key in db.keys && !KeyIdle(db, key)
    ensures PreparePickup(db, q.newBorrow, NewDispense(db, q).0, q.newOp, NewDispense(db, q).1).Rollback?
  {
    var (borrow, op) := NewDispense(db, q);
    IdleMeans(db.(borrows := db.borrows[q.newBorrow := borrow]), q.device, key, BLANK);
  }

  lemma AllowedDispense(db: Db, q: DispenseRequest, key: Id)
    requires NewDispenseIds(db, q) && Asks(q, key) && DispenseAllowed(db, q, key)
    ensures DirectDispense(db, q).reply == Prepared(q.newOp)
    ensures DispenseStored(db, DirectDispense(db, q).db, q, key)
  {
    IdleMeans(db, q.device, key, BLANK);
    UnreservedMeans(db, key, q.now, q.now + Term(db.keys[key]));
    assert DispenseObstacle(db, q).None?;
    var (borrow, op) := NewDispense(db, q);
    var lent := db.(borrows := db.borrows[q.newBorrow := borrow]);
    var after := lent.(ops := db.ops[q.newOp := op], requests := db.requests[q.request := q.newOp],
                       logs := db.logs[q.newOp := [Event(1, EvRequestReceived, NO_TAG, q.now),
                                                   Event(2, EvAuthConfirmed, NO_TAG, q.now)]]);
    Admitted(lent, q.newOp, op, after);
    assert PreparePickup(db, q.newBorrow, borrow, q.newOp, op) == Commit(after);
  }
}
