/**
 * Every step that can change the ledger, and runs of such steps.
 */
module Steps {
  import opened LedgerTypes
  import opened OperationTx
  import opened ReservationTx
  import opened Services

  /** A decoded device event, as the gateway hands it to the operation service. */
  datatype DeviceEvent = DeviceEvent(
    op: Id, deviceId: Id, msgId: Id, etype: EventType, data: TagData, at: Time, code: string, message: string)

  predicate ReportsSuccess(etype: EventType) {
    etype in {EvSuccess, EvPickupSuccess, EvReturnSuccess}
  }

  predicate ReportsFailure(etype: EventType) {
    etype in {EvFailed, EvError, EvPickupFailed, EvReturnFailed, EvDoorOpenTimeout, EvMotorError, EvTimeout,
        EvKeyNotPresent}
  }

  /** The tag OnDeviceEvent copies onto the operation; rfidTag is not looked at here. */
  function ConfirmedTag(ev: DeviceEvent): string {
    if ev.etype != EvRfidConfirmed then ""
    else if ev.data.scannedRfid != "" then ev.data.scannedRfid else ev.data.uid
  }

  /** OnDeviceEvent. `stored` says whether the ignored-error Update of the scanned tag went through. */
  function OnDeviceEvent(db: Db, ev: DeviceEvent, stored: bool): Tx {
    if ev.op !in db.ops then Rollback(NotFound)
    else
      var op := db.ops[ev.op];
      if op.deviceId != ev.deviceId then Rollback(Forbidden)
      else if ReportsSuccess(ev.etype) then
        if op.action == Pickup then CompletePickup(db, ev.op, ev.at) else CompleteReturn(db, ev.op, ev.at)
      else if ReportsFailure(ev.etype) then Fail(db, ev.op, ev.code, ev.message, ev.at)
      else RecordEvent(db, ev, stored)
  }

  /** The default branch: an RFID confirmation stores its tag, and the event is appended. */
  function RecordEvent(db: Db, ev: DeviceEvent, stored: bool): Tx {
    AppendEventIfActive(Tagged(db, ev, stored), ev.op, EventKey(ev.deviceId, ev.msgId), ev.etype, ev.data, ev.at)
  }

  function Tagged(db: Db, ev: DeviceEvent, stored: bool): Db {
    if ev.op in db.ops && ConfirmedTag(ev) != "" && stored
    then db.(ops := db.ops[ev.op := db.ops[ev.op].(scannedRfid := ConfirmedTag(ev))]) else db
  }

  /** UpdatePresence, as the inventory reconciler calls it for each reported slot. */
  function Seen(db: Db, slot: Id, presence: Presence): Db {
    if slot in db.slots then db.(slots := db.slots[slot := db.slots[slot].(presence := presence)]) else db
  }

  datatype Step =
    | AskPickup(pickup: PickupRequest)
    | AskReturn(giveBack: ReturnRequest)
    | AskDispense(dispense: DispenseRequest)
    | Begin(op: Id, now: Time)
    | Report(event: DeviceEvent, stored: bool)
    | DispatchFails(op: Id, message: string, now: Time)
    | TimeoutOp(op: Id, now: Time)
    | CancelOp(op: Id, now: Time)
    | Reserve(reserve: ReserveRequest)
    | CancelWrite(reservation: Id)
    | ReviewIt(reservation: Id, approved: bool, now: Time)
    | ExpireAll(now: Time)
    | SeeSlot(slot: Id, presence: Presence)
    | SetDevice(device: Id, status: DeviceStatus)
    | SetUser(user: Id, row: User)

  function After(db: Db, step: Step): Db {
    match step
    case AskPickup(q) => StartPickup(db, q).db
    case AskReturn(q) => StartReturn(db, q).db
    case AskDispense(q) => DirectDispense(db, q).db
    case Begin(op, now) => Applied(db, BeginExecution(db, op, now))
    case Report(ev, stored) => Applied(db, OnDeviceEvent(db, ev, stored))
    case DispatchFails(op, message, now) => Applied(db, Fail(db, op, "DEVICE_COMMAND_FAILED", message, now))
    case TimeoutOp(op, now) => Applied(db, Timeout(db, op, now))
    case CancelOp(op, now) => Applied(db, Cancel(db, op, now))
    case Reserve(q) => Applied(db, CreateReservation(db, q))
    case CancelWrite(r) => Applied(db, WriteCancelled(db, r))
    case ReviewIt(r, approved, now) => Applied(db, Review(db, r, approved, now).0)
    case ExpireAll(now) => Expired(db, now)
    case SeeSlot(s, presence) => Seen(db, s, presence)
    case SetDevice(d, status) => db.(devices := db.devices[d := status])
    case SetUser(u, row) => db.(users := db.users[u := row])
  }

  /** The tables after a run. */
  function Exec(db: Db, steps: seq<Step>): Db {
    if steps == [] then db else After(Exec(db, steps[..|steps| - 1]), steps[|steps| - 1])
  }

  lemma ExecMore(db: Db, steps: seq<Step>, step: Step)
    ensures Exec(db, steps + [step]) == After(Exec(db, steps), step)
  {
    assert (steps + [step])[..|steps + [step]| - 1] == steps;
  }

  lemma {:induction false} ExecConcat(db: Db, a: seq<Step>, b: seq<Step>)
    ensures Exec(db, a + b) == Exec(Exec(db, a), b)
  {
    if b == [] {
      assert a + b == a;
    } else {
      assert (a + b)[..|a + b| - 1] == a + b[..|b| - 1];
      ExecConcat(db, a, b[..|b| - 1]);
    }
  }
}
