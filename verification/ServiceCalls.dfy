/**
 * The services as they work on the ledger object: ordered checks that return early, a
 * prepared transaction, and the dispatch behind it. Requests to the gateway are inputs.
 */
module ServiceCalls {
  import opened LedgerTypes
  import opened OperationTx
  import opened ReservationTx
  import opened Services
  import opened Steps
  import opened Coupling
  import opened CouplingRuns
  import opened TimeoutSweep
  import opened SweepOrder
  import opened LedgerStore
  import opened StartRules
  import opened EndRows

  /** What the gateway answers to a start command, and when a refusal is recorded. */
  datatype Sending = Sent | NotSent(message: string, now: Time)

  /** What AbortOperation returns. */
  datatype AbortAnswer = Aborted | NotRunning | AbortRefused

  /** The tables after begin, command and, if it was not sent, failure. */
  function Dispatched(db: Db, id: Id, now: Time, sending: Sending): Db {
    var begun := After(db, Begin(id, now));
    if BeginExecution(db, id, now).Rollback? then db
    else match sending
         case Sent => begun
         case NotSent(message, later) => After(begun, DispatchFails(id, message, later))
  }

  /** What a start request leaves behind, given what its check-and-prepare came to. */
  function Started(asked: Outcome, now: Time, sending: Sending): Db {
    if asked.reply.Prepared? then Dispatched(asked.db, asked.reply.op, now, sending) else asked.db
  }

  /** The operation stays, EXECUTING or FAILED, exactly if the request got as far as being prepared. */
  lemma PreparedIsDispatched(db: Db, after: Db, id: Id, now: Time, sending: Sending)
    requires id in db.ops && db.ops[id].status == OpAuthorized && after == Dispatched(db, id, now, sending)
    ensures id in after.ops
    ensures after.ops[id].status == if sending.Sent? then OpExecuting else OpFailed
    ensures forall o | o in db.ops && o != id :: o in after.ops && after.ops[o] == db.ops[o]
  {
    var begun := After(db, Begin(id, now));
    BegunExecutes(db, begun, id, now);
    if sending.NotSent? {
      FailedFails(begun, after, id, sending.message, sending.now);
    }
  }

  lemma BegunExecutes(db: Db, begun: Db, id: Id, now: Time)
    requires id in db.ops && db.ops[id].status == OpAuthorized && begun == Applied(db, BeginExecution(db, id, now))
    ensures BeginExecution(db, id, now).Commit? && begun.ops.Keys == db.ops.Keys && begun.ops[id].status == OpExecuting
    ensures forall o | o in db.ops && o != id :: begun.ops[o] == db.ops[o]
  {
  }

  lemma FailedFails(begun: Db, after: Db, id: Id, message: string, now: Time)
    requires id in begun.ops && begun.ops[id].status == OpExecuting
    requires after == Applied(begun, Fail(begun, id, "DEVICE_COMMAND_FAILED", message, now))
    ensures after.ops.Keys == begun.ops.Keys && after.ops[id].status == OpFailed
    ensures forall o | o in begun.ops && o != id :: after.ops[o] == begun.ops[o]
  {
  }

  /** Whatever a start request comes to, the coupling invariant holds again when its call is over. */
  lemma StartedKeeps(db: Db, ask: Step, asked: Outcome, now: Time, sending: Sending)
    requires Coupled(db) && asked.db == After(db, ask)
    ensures Coupled(Started(asked, now, sending))
  {
    StepKeeps(db, ask);
    if asked.reply.Prepared? {
      DispatchedKeeps(asked.db, asked.reply.op, now, sending);
    }
  }

  lemma DispatchedKeeps(db: Db, id: Id, now: Time, sending: Sending)
    requires Coupled(db)
    ensures Coupled(Dispatched(db, id, now, sending))
  {
    var begin := Begin(id, now);
    StepKeeps(db, begin);
    if sending.NotSent? {
      StepKeeps(After(db, begin), DispatchFails(id, sending.message, sending.now));
    }
  }

  /** A sweep ends just the unfinished operations that began before the cut-off, by a timeout at this moment. */
  lemma SweptRows(db: Db, after: Db, cutoff: Time, now: Time)
    requires Swept(db, after, StaleIds(db, cutoff), now)
    ensures after.ops.Keys == db.ops.Keys
    ensures forall o | o in db.ops ::
              if Unfinished(db.ops[o]) && BeganBefore(db.ops[o], cutoff)
              then EndedAs(db.ops[o], after.ops[o], OpTimeout, "OPERATION_TIMEOUT", "device operation timed out", now)
                   && after.ops[o].scannedRfid == db.ops[o].scannedRfid
              else after.ops[o] == db.ops[o]
  {
    StaleIff(db, cutoff);
  }

  class OperationService {
    const ledger: Ledger

    constructor (ledger: Ledger)
      ensures this.ledger == ledger
    {
      this.ledger := ledger;
    }

    // ----- device events -----------------------------------------------------------------

    method OnDeviceEvent(ev: DeviceEvent, stored: bool) returns (error: Option<Error>)
      modifies ledger
      ensures Steps.OnDeviceEvent(old(ledger.Tables()), ev, stored) == AsTx(error, ledger.Tables())
      ensures error.Some? ==> ledger.Tables() == old(ledger.Tables())
    {
      if ev.op !in ledger.ops {
        return Some(NotFound);
      }
      var op := ledger.ops[ev.op];
      if op.deviceId != ev.deviceId {
        return Some(Forbidden);
      }
      if ReportsSuccess(ev.etype) {
        if op.action == Pickup {
          error := ledger.CompletePickup(ev.op, ev.at);
        } else {
          error := ledger.CompleteReturn(ev.op, ev.at);
        }
      } else if ReportsFailure(ev.etype) {
        error := ledger.Fail(ev.op, ev.code, ev.message, ev.at);
      } else {
        error := Record(ev, stored);
      }
    }

    method Record(ev: DeviceEvent, stored: bool) returns (error: Option<Error>)
      requires ev.op in ledger.ops
      modifies ledger
      ensures RecordEvent(old(ledger.Tables()), ev, stored) == AsTx(error, ledger.Tables())
      ensures error.None?
    {
      var tag := ConfirmedTag(ev);
      if tag != "" && stored {
        ledger.ops := ledger.ops[ev.op := ledger.ops[ev.op].(scannedRfid := tag)];
      }
      error := ledger.AppendEventIfActive(ev.op, EventKey(ev.deviceId, ev.msgId), ev.etype, ev.data, ev.at);
    }

    // ----- starting -------------------------------------------------------------------------

    method DispatchPrepared(id: Id, now: Time, sending: Sending) returns (reply: Reply)
      modifies ledger
      ensures ledger.Tables() == Dispatched(old(ledger.Tables()), id, now, sending)
      ensures reply == if BeginExecution(old(ledger.Tables()), id, now).Rollback? then Refused(Internal)
                       else if sending.Sent? then Prepared(id) else Refused(Unavailable)
    {
      var error := ledger.BeginExecution(id, now);
      if error.Some? {
        return Refused(Internal);
      }
      if sending.NotSent? {
        var ignored := ledger.Fail(id, "DEVICE_COMMAND_FAILED", sending.message, sending.now);
        return Refused(Unavailable);
      }
      return Prepared(id);
    }

    method EnsureDeviceReady(device: Id, gatewayOnline: bool) returns (error: Option<Error>)
      ensures error == DeviceReady(ledger.Tables(), device, gatewayOnline)
    {
      if device !in ledger.devices {
        return Some(NotFound);
      }
      if ledger.devices[device] == Busy {
        return Some(Conflict);
      }
      if ledger.devices[device] != Online || !gatewayOnline {
        return Some(Unavailable);
      }
      return None;
    }

    /** loadKeyAndSlot: by the slot's own id, and if that fails by the key, joined on the slot the key names. */
    method LoadSlot(key: Id) returns (slot: Option<Id>)
      requires key in ledger.keys
      ensures slot == if ledger.keys[key].slotId in ledger.slots then Some(ledger.keys[key].slotId) else None
    {
      var named := ledger.keys[key].slotId;
      if named != BLANK && named in ledger.slots {
        return Some(named);
      }
      var todo := ledger.slots.Keys;
      while todo != {}
        invariant todo <= ledger.slots.Keys
        invariant named in ledger.slots ==> named in todo
        decreases |todo|
      {
        var s :| s in todo;
        if ledger.keys[key].slotId == s {
          return Some(s);
        }
        todo := todo - {s};
      }
      return None;
    }

    method CheckPickup(q: PickupRequest) returns (error: Option<Error>)
      ensures error == PickupObstacle(ledger.Tables(), q)
    {
      var db := ledger.Tables();
      if q.reservation !in ledger.reservations || ledger.reservations[q.reservation].userId != q.user {
        return Some(NotFound);
      }
      var r := ledger.reservations[q.reservation];
      var ready := r.status == ResActive || r.status == ResApproved;
      if ready && q.now < r.windowStart {
        return Some(TooEarly);
      }
      if ready && q.now > r.windowEnd {
        return Some(WindowExpired);
      }
      if !ready {
        return Some(InvalidState);
      }
      if r.keyId !in ledger.keys {
        return Some(NotFound);
      }
      var found := LoadSlot(r.keyId);
      if found.None? {
        return Some(NotFound);
      }
      var key := ledger.keys[r.keyId];
      var slot := ledger.slots[found.value];
      if key.deviceId == BLANK || slot.deviceId != key.deviceId {
        return Some(InvalidState);
      }
      if q.cabinet != BLANK && key.deviceId != q.cabinet {
        return Some(Forbidden);
      }
      if key.status != KeyAvailable && key.status != KeyReserved {
        return Some(InvalidState);
      }
      if !slot.enabled || slot.presence != Present {
        return Some(InvalidState);
      }
      error := EnsureDeviceReady(key.deviceId, q.gatewayOnline);
      if error.Some? {
        return;
      }
      if ReservationBusy(db, q.reservation) || DeviceBusy(db, key.deviceId) || KeyBusy(db, r.keyId) {
        return Some(Conflict);
      }
      if HasOpenBorrow(db, r.keyId) {
        return Some(Conflict);
      }
    }

    /** findIdempotent, and what a pickup request makes of it. */
    method StartPickup(q: PickupRequest, sending: Sending) returns (reply: Reply)
      modifies ledger
      ensures ledger.Tables() == Started(Services.StartPickup(old(ledger.Tables()), q), q.now, sending)
      ensures var asked := Services.StartPickup(old(ledger.Tables()), q);
              !asked.reply.Prepared? ==> reply == asked.reply && ledger.Tables() == old(ledger.Tables())
      ensures reply.Prepared? ==> sending.Sent? && reply == Services.StartPickup(old(ledger.Tables()), q).reply
    {
      if q.user == BLANK || q.reservation == BLANK || q.request == BLANK {
        return Refused(InvalidInput);
      }
      if !Verified(ledger.Tables(), q.user) {
        return Refused(Forbidden);
      }
      if q.request in ledger.requests && ledger.requests[q.request] in ledger.ops {
        var existing := ledger.ops[ledger.requests[q.request]];
        if existing.userId != q.user {
          return Refused(Forbidden);
        }
        if existing.action != Pickup || existing.reservationId != q.reservation
           || (q.cabinet != BLANK && existing.deviceId != q.cabinet) {
          return Refused(Conflict);
        }
        return Existing(ledger.requests[q.request]);
      }
      var obstacle := CheckPickup(q);
      if obstacle.Some? {
        return Refused(obstacle.value);
      }
      var (borrow, operation) := NewPickup(ledger.Tables(), q);
      var error := ledger.PreparePickup(q.newBorrow, borrow, q.newOp, operation);
      if error.Some? {
        return ResolvePrepareError(ledger.Tables(), operation, error.value);
      }
      reply := DispatchPrepared(q.newOp, q.now, sending);
    }

    method CheckReturn(q: ReturnRequest) returns (error: Option<Error>)
      ensures error == ReturnObstacle(ledger.Tables(), q)
    {
      var db := ledger.Tables();
      if q.borrow !in ledger.borrows || ledger.borrows[q.borrow].userId != q.user {
        return Some(NotFound);
      }
      var b := ledger.borrows[q.borrow];
      var device := if q.device == BLANK then b.deviceId else q.device;
      if device != b.deviceId {
        return Some(InvalidState);
      }
      if b.keyId !in ledger.keys {
        return Some(NotFound);
      }
      var found := LoadSlot(b.keyId);
      if found.None? {
        return Some(NotFound);
      }
      if found.value != b.slotId {
        return Some(InvalidState);
      }
      error := EnsureDeviceReady(device, q.gatewayOnline);
      if error.Some? {
        return;
      }
      if DeviceBusy(db, device) || KeyBusy(db, b.keyId) {
        return Some(Conflict);
      }
      if b.status != Borrowed {
        return Some(InvalidState);
      }
    }

    method StartReturn(q: ReturnRequest, sending: Sending) returns (reply: Reply)
      modifies ledger
      ensures ledger.Tables() == Started(Services.StartReturn(old(ledger.Tables()), q), q.now, sending)
      ensures var asked := Services.StartReturn(old(ledger.Tables()), q);
              !asked.reply.Prepared? ==> reply == asked.reply && ledger.Tables() == old(ledger.Tables())
      ensures reply.Prepared? ==> sending.Sent? && reply == Services.StartReturn(old(ledger.Tables()), q).reply
    {
      if q.user == BLANK || q.borrow == BLANK || q.request == BLANK {
        return Refused(InvalidInput);
      }
      if q.request in ledger.requests && ledger.requests[q.request] in ledger.ops {
        var existing := ledger.ops[ledger.requests[q.request]];
        if existing.userId != q.user {
          return Refused(Forbidden);
        }
        if existing.action != Return || existing.borrowId != q.borrow
           || (q.device != BLANK && existing.deviceId != q.device) {
          return Refused(Conflict);
        }
        return Existing(ledger.requests[q.request]);
      }
      var obstacle := CheckReturn(q);
      if obstacle.Some? {
        return Refused(obstacle.value);
      }
      var operation := NewReturn(ledger.Tables(), q);
      var error := ledger.PrepareReturn(q.borrow, q.user, q.newOp, operation);
      if error.Some? {
        return ResolvePrepareError(ledger.Tables(), operation, error.value);
      }
      reply := DispatchPrepared(q.newOp, q.now, sending);
    }

    method CheckDispense(q: DispenseRequest) returns (error: Option<Error>)
      ensures error == DispenseObstacle(ledger.Tables(), q)
    {
      var db := ledger.Tables();
      var target := Target(q);
      if target == BLANK || target !in ledger.keys {
        return Some(NotFound);
      }
      var key := ledger.keys[target];
      if key.deviceId != q.device || !key.enabled {
        return Some(Forbidden);
      }
      if key.status != KeyAvailable {
        return Some(Conflict);
      }
      if key.requiresApproval {
        return Some(Forbidden);
      }
      if key.slotId !in ledger.slots {
        return Some(NotFound);
      }
      var slot := ledger.slots[key.slotId];
      if !slot.enabled {
        return Some(Forbidden);
      }
      if slot.deviceId != q.device {
        return Some(InvalidState);
      }
      if slot.presence != Present || HasOpenBorrow(db, target) || DeviceBusy(db, q.device) {
        return Some(Conflict);
      }
      if HasConflict(db, target, q.now, q.now + LendingTime(key)) {
        return Some(Conflict);
      }
      return None;
    }

    method DirectDispense(q: DispenseRequest, sending: Sending) returns (reply: Reply)
      modifies ledger
      ensures ledger.Tables() == Started(Services.DirectDispense(old(ledger.Tables()), q), q.now, sending)
      ensures var asked := Services.DirectDispense(old(ledger.Tables()), q);
              !asked.reply.Prepared? ==> reply == asked.reply && ledger.Tables() == old(ledger.Tables())
      ensures reply.Prepared? ==> sending.Sent? && reply == Services.DirectDispense(old(ledger.Tables()), q).reply
    {
      if q.request == BLANK || q.device == BLANK {
        return Refused(InvalidInput);
      }
      if q.user == BLANK {
        return Refused(Unauthorized);
      }
      if q.room == BLANK && q.key == BLANK {
        return Refused(InvalidInput);
      }
      if q.device !in ledger.devices {
        return Refused(NotFound);
      }
      if ledger.devices[q.device] != Online {
        return Refused(Forbidden);
      }
      if q.user !in ledger.users {
        return Refused(NotFound);
      }
      if !Verified(ledger.Tables(), q.user) {
        return Refused(Forbidden);
      }
      if q.request in ledger.requests && ledger.requests[q.request] in ledger.ops {
        var existing := ledger.ops[ledger.requests[q.request]];
        if existing.userId != q.user || existing.deviceId != q.device || existing.action != Pickup
           || (q.key != BLANK && existing.keyId != q.key) {
          return Refused(Conflict);
        }
        return Existing(ledger.requests[q.request]);
      }
      var obstacle := CheckDispense(q);
      if obstacle.Some? {
        return Refused(obstacle.value);
      }
      var (borrow, operation) := NewDispense(ledger.Tables(), q);
      var error := ledger.PreparePickup(q.newBorrow, borrow, q.newOp, operation);
      if error.Some? {
        return Refused(Internal);
      }
      reply := DispatchPrepared(q.newOp, q.now, sending);
    }

    // ----- ending ----------------------------------------------------------------------------

    /** CancelOperation when nothing interferes; AbortProtocol has the interleavings. */
    method CancelOperation(user: Id, id: Id, answer: AbortAnswer, now: Time) returns (error: Option<Error>)
      modifies ledger
      ensures error.None? <==>
                && id in old(ledger.ops) && old(ledger.ops)[id].userId == user
                     && !IsTerminal(old(ledger.ops)[id].status)
                && (old(ledger.ops)[id].status in {OpSent, OpExecuting} ==> answer == Aborted)
      ensures error.None? ==> Cancel(old(ledger.Tables()), id, now) == Commit(ledger.Tables())
      ensures error.Some? ==> ledger.Tables() == old(ledger.Tables())
      ensures error.Some? ==>
                error.value == if id !in old(ledger.ops) || old(ledger.ops)[id].userId != user then NotFound
                               else if !Unfinished(old(ledger.ops)[id]) then InvalidState else Conflict
    {
      if id !in ledger.ops || ledger.ops[id].userId != user {
        return Some(NotFound);
      }
      var op := ledger.ops[id];
      TwoHalves(op.status);
      if IsTerminal(op.status) {
        return Some(InvalidState);
      }
      if op.status == OpSent || op.status == OpExecuting {
        if answer == AbortRefused {
          return Some(Conflict);
        }
        if answer == NotRunning {
          return if id !in ledger.ops || IsTerminal(ledger.ops[id].status) then Some(InvalidState) else Some(Conflict);
        }
      }
      error := ledger.Cancel(id, now);
    }

    method TimeOutNext(o: Id, now: Time, ghost before: Db, ghost found: set<Id>,
        ghost todo: set<Id>) returns (error: Option<Error>)
      requires Apart(before, found) && todo <= found && o in todo
      requires Swept(before, ledger.Tables(), found - todo, now)
      modifies ledger
      ensures error.None? && Swept(before, ledger.Tables(), found - (todo - {o}), now)
    {
      ghost var mid := ledger.Tables();
      error := ledger.Timeout(o, now);
      SweptNext(before, mid, ledger.Tables(), found, todo, o, now);
    }

    /** The loop of ExpireTimedOutOperations, in any order; a failing Timeout would end it early. */
    method TimeOutAll(found: set<Id>, now: Time, ghost before: Db) returns (expired: nat, error: Option<Error>)
      requires ledger.Tables() == before && Apart(before, found)
      modifies ledger
      ensures error.None? && expired == |found| && Swept(before, ledger.Tables(), found, now)
    {
      var todo := found;
      expired, error := 0, None;
      SweptNone(before, now);
      NoneDone(found);
      while todo != {}
        invariant todo <= found && expired + |todo| == |found| && error.None?
        invariant Swept(before, ledger.Tables(), found - todo, now)
        decreases |todo|
      {
        var o :| o in todo;
        error := TimeOutNext(o, now, before, found, todo);
        if error.Some? {
          return;
        }
        expired := expired + 1;
        todo := todo - {o};
      }
      NoneLeft(found);
    }

    /** ExpireTimedOutOperations when nothing interferes; TimeoutSweep has the interleavings. */
    method ExpireTimedOutOperations(now: Time, timeout: Time) returns (expired: nat, error: Option<Error>)
      requires Coupled(ledger.Tables())
      modifies ledger
      ensures timeout <= 0 ==> error == Some(InvalidInput) && expired == 0 && ledger.Tables() == old(ledger.Tables())
      ensures timeout > 0 ==>
                var stale := StaleIds(old(ledger.Tables()), now - timeout);
                error == None && expired == |stale| && Swept(old(ledger.Tables()), ledger.Tables(), stale, now)
    {
      if timeout <= 0 {
        return 0, Some(InvalidInput);
      }
      var found := StaleIds(ledger.Tables(), now - timeout);
      ActiveApart(ledger.Tables(), found);
      expired, error := TimeOutAll(found, now, ledger.Tables());
    }

    // ----- reservations ----------------------------------------------------------------------------

    /** The loop over the user's own reservations. */
    method UserConflicts(user: Id, key: Id, start: Time, end: Time) returns (found: bool)
      ensures found == UserHasConflict(ledger.Tables(), user, key, start, end)
    {
      var todo := set r | r in ledger.reservations && ledger.reservations[r].userId == user;
      while todo != {}
        invariant todo <= ledger.reservations.Keys
        invariant forall r | r in ledger.reservations && ledger.reservations[r].userId == user && r !in todo ::
                    !(ActiveFor(ledger.Tables(), r, key)
                      && TimeRangesOverlap(ledger.reservations[r].windowStart, ledger.reservations[r].returnAt, start,
                           end))
        decreases |todo|
      {
        var r :| r in todo;
        var existing := ledger.reservations[r];
        if existing.userId == user && existing.keyId == key && IsActiveReservation(existing.status)
           && TimeRangesOverlap(existing.windowStart, existing.returnAt, start, end) {
          assert ActiveFor(ledger.Tables(), r, key);
          return true;
        }
        todo := todo - {r};
      }
      return false;
    }

    method CreateReservation(q: ReserveRequest) returns (error: Option<Error>)
      modifies ledger
      ensures Services.CreateReservation(old(ledger.Tables()), q) == AsTx(error, ledger.Tables())
      ensures error.Some? ==> ledger.Tables() == old(ledger.Tables())
    {
      var db := ledger.Tables();
      if q.user == BLANK || q.key == BLANK {
        return Some(InvalidInput);
      }
      if !Verified(db, q.user) {
        return Some(Forbidden);
      }
      if q.key !in ledger.keys {
        return Some(NotFound);
      }
      var key := ledger.keys[q.key];
      if !KeyOffered(key) {
        return Some(InvalidState);
      }
      if key.deviceId !in ledger.devices {
        return Some(NotFound);
      }
      if ledger.devices[key.deviceId] != Online {
        return Some(Unavailable);
      }
      if HasOpenBorrow(db, q.key) {
        return Some(Conflict);
      }
      var start, end, returnAt := StartOf(q), EndOf(q), ReturnOf(q);
      if start >= end || end >= returnAt {
        return Some(InvalidInput);
      }
      var own := UserConflicts(q.user, q.key, start, returnAt);
      if own || HasConflict(db, q.key, start, returnAt) {
        return Some(Conflict);
      }
      error := ledger.Create(q.newReservation, NewReservation(db, q));
    }

    method CancelReservation(user: Id, id: Id) returns (error: Option<Error>)
      modifies ledger
      ensures Services.CancelReservation(old(ledger.Tables()), old(ledger.Tables()), user, id)
              == AsTx(error, ledger.Tables())
      ensures error.Some? ==> ledger.Tables() == old(ledger.Tables())
    {
      if id == BLANK {
        return Some(InvalidInput);
      }
      if id !in ledger.reservations || ledger.reservations[id].userId != user {
        return Some(NotFound);
      }
      if !IsActiveReservation(ledger.reservations[id].status) {
        return Some(InvalidState);
      }
      error := ledger.UpdateCancelled(id);
    }
  }
}
