/**
 * Taking stock: slots reported full plus keys lent out. Operations keep the sum wherever the
 * slot agrees with its key; every deviation is accounted for, step by step.
 */
module Conservation {
  import opened LedgerTypes
  import opened OperationTx
  import opened Steps
  import opened Coupling
  import opened Moves
  import opened CouplingRuns
  import opened SlotReports

  function FullSlots(db: Db): set<Id> {
    set s | s in db.slots && db.slots[s].presence == Present
  }

  function KeysLent(db: Db): set<Id> {
    set k | k in db.keys && IsOut(db, k)
  }

  function Stock(db: Db): int {
    |FullSlots(db)| + |KeysLent(db)|
  }

  function Full(presence: Presence): int {
    if presence == Present then 1 else 0
  }

  // ----- what one step adds or takes away -----------------------------------------------------

  /** The report completes an operation. */
  predicate Succeeds(db: Db, ev: DeviceEvent, stored: bool) {
    && Active(db, ev.op) && db.ops[ev.op].deviceId == ev.deviceId && ReportsSuccess(ev.etype)
    && db.ops[ev.op].slotId in db.slots && OnDeviceEvent(db, ev, stored).Commit?
  }

  /** A pickup adds a key lent, and a return a full slot; a report moves what it changes. */
  function Drift(db: Db, step: Step): int {
    match step
    case SeeSlot(s, presence) => if s in db.slots then Full(presence) - Full(db.slots[s].presence) else 0
    case Report(ev, stored) =>
      if Succeeds(db, ev, stored) then
        var before := Full(db.slots[db.ops[ev.op].slotId].presence);
        if db.ops[ev.op].action == Pickup then 1 - before else -before
      else 0
    case _ => 0
  }

  lemma SlotStock(db: Db, after: Db, slot: Id)
    requires slot in db.slots && after.slots.Keys == db.slots.Keys
    requires forall s | s in db.slots && s != slot :: after.slots[s] == db.slots[s]
    ensures |FullSlots(after)| == |FullSlots(db)| + Full(after.slots[slot].presence) - Full(db.slots[slot].presence)
  {
    var others := FullSlots(db) - {slot};
    assert FullSlots(db) == if db.slots[slot].presence == Present then others + {slot} else others;
    assert FullSlots(after) == if after.slots[slot].presence == Present then others + {slot} else others;
  }

  lemma LendsOne(db: Db, after: Db, key: Id)
    requires key in after.keys && after.keys.Keys == db.keys.Keys
    requires forall k :: IsOut(after, k) <==> k == key || IsOut(db, k)
    requires !IsOut(db, key)
    ensures |KeysLent(after)| == |KeysLent(db)| + 1
  {
    assert KeysLent(after) == KeysLent(db) + {key} && key !in KeysLent(db);
  }

  lemma PickupStock(db: Db, after: Db, id: Id)
    requires Coupled(db) && PicksUp(db, after, id)
    ensures Stock(after) == Stock(db) + 1 - Full(db.slots[db.ops[id].slotId].presence)
  {
    SlotStock(db, after, db.ops[id].slotId);
    PickupOut(db, after, id);
    LendsOne(db, after, db.ops[id].keyId);
  }

  lemma ReturnStock(db: Db, after: Db, id: Id)
    requires Coupled(db) && GivesBack(db, after, id)
    ensures Stock(after) == Stock(db) - Full(db.slots[db.ops[id].slotId].presence)
  {
    SlotStock(db, after, db.ops[id].slotId);
    ReturnIn(db, after, id);
    LendsOne(after, db, db.ops[id].keyId);
  }

  lemma OtherStock(db: Db, after: Db)
    requires after.slots == db.slots && KeysOnlyReserved(db, after)
    ensures Stock(after) == Stock(db)
  {
    assert FullSlots(after) == FullSlots(db);
    assert KeysLent(after) == KeysLent(db);
  }

  lemma SeenStock(db: Db, slot: Id, presence: Presence)
    ensures Stock(Seen(db, slot, presence)) == Stock(db) + Drift(db, SeeSlot(slot, presence))
  {
    var after := Seen(db, slot, presence);
    assert KeysLent(after) == KeysLent(db);
    if slot in db.slots {
      SlotStock(db, after, slot);
    }
  }

  lemma SuccessStock(db: Db, after: Db, ev: DeviceEvent, stored: bool)
    requires Coupled(db) && Succeeds(db, ev, stored) && OnDeviceEvent(db, ev, stored) == Commit(after)
    ensures Stock(after) == Stock(db) + Drift(db, Report(ev, stored))
  {
    if db.ops[ev.op].action == Pickup {
      PickedUpStock(db, after, ev.op, ev.at);
    } else {
      GivenBackStock(db, after, ev.op, ev.at);
    }
  }

  lemma PickedUpStock(db: Db, after: Db, id: Id, now: Time)
    requires Coupled(db) && Active(db, id) && CompletePickup(db, id, now) == Commit(after)
    ensures db.ops[id].slotId in db.slots && Stock(after) == Stock(db) + 1 - Full(db.slots[db.ops[id].slotId].presence)
  {
    assert Linked(db, db.ops[id]);
    PickupShape(db, after, id, now);
    PickupStock(db, after, id);
  }

  lemma GivenBackStock(db: Db, after: Db, id: Id, now: Time)
    requires Coupled(db) && Active(db, id) && CompleteReturn(db, id, now) == Commit(after)
    ensures db.ops[id].slotId in db.slots && Stock(after) == Stock(db) - Full(db.slots[db.ops[id].slotId].presence)
  {
    assert Linked(db, db.ops[id]);
    ReturnShape(db, after, id, now);
    ReturnStock(db, after, id);
  }

  /** A report that completes nothing. */
  lemma RestOfReports(db: Db, after: Db, ev: DeviceEvent, stored: bool)
    requires Coupled(db) && !Succeeds(db, ev, stored) && after == Applied(db, OnDeviceEvent(db, ev, stored))
    ensures Stock(after) == Stock(db)
  {
    if ev.op !in db.ops || db.ops[ev.op].deviceId != ev.deviceId {
      assert after == db;
    } else if ReportsSuccess(ev.etype) {
      if Active(db, ev.op) {
        assert Linked(db, db.ops[ev.op]);
      }
      if db.ops[ev.op].action == Pickup {
        PickupElse(db, after, ev.op, ev.at);
      } else {
        ReturnElse(db, after, ev.op, ev.at);
      }
    } else if ReportsFailure(ev.etype) {
      AbandonStock(db, after, ev.op, Fails(ev.code, ev.message), ev.at);
    } else {
      RecordOnly(db, after, ev, stored);
      OtherStock(db, after);
    }
  }

  lemma AbandonStock(db: Db, after: Db, id: Id, how: Ending, now: Time)
    requires Coupled(db) && after == Applied(db, Abandon(db, id, how, now))
    ensures Stock(after) == Stock(db)
  {
    AbandonMoves(db, after, id, how, now);
    OtherStock(db, after);
  }

  lemma ReservationStock(db: Db, after: Db, step: Step)
    requires Coupled(db) && IsReservationStep(step) && after == After(db, step)
    ensures Stock(after) == Stock(db)
  {
    ReservationQuiet(db, after, step);
    OtherStock(db, after);
  }

  lemma BeganStock(db: Db, after: Db, id: Id)
    requires after == db || Began(db, after, id)
    ensures Stock(after) == Stock(db)
  {
    OtherStock(db, after);
  }

  lemma RequestStock(db: Db, after: Db, step: Step)
    requires Coupled(db) && (step.AskPickup? || step.AskReturn? || step.AskDispense?) && after == After(db, step)
    ensures Stock(after) == Stock(db)
  {
    match step
    case AskPickup(q) => AskPickupMoves(db, after, q); BeganStock(db, after, q.newOp);
    case AskReturn(q) => AskReturnMoves(db, after, q); BeganStock(db, after, q.newOp);
    case AskDispense(q) => AskDispenseMoves(db, after, q); BeganStock(db, after, q.newOp);
  }

  /** Every step changes the stock by its drift. */
  lemma StepStock(db: Db, after: Db, step: Step)
    requires Coupled(db) && after == After(db, step)
    ensures Stock(after) == Stock(db) + Drift(db, step)
  {
    match step
    case Report(ev, stored) =>
      if Succeeds(db, ev, stored) {
        SuccessStock(db, after, ev, stored);
      } else {
        RestOfReports(db, after, ev, stored);
      }
    case SeeSlot(s, presence) => SeenStock(db, s, presence);
    case _ => OwnStepStock(db, after, step);
  }

  /** Steps that no cabinet reports. */
  lemma OwnStepStock(db: Db, after: Db, step: Step)
    requires Coupled(db) && !step.Report? && !step.SeeSlot? && after == After(db, step)
    ensures Stock(after) == Stock(db)
  {
    match step
    case DispatchFails(op, message, now) => AbandonStock(db, after, op, Fails("DEVICE_COMMAND_FAILED", message), now);
    case TimeoutOp(op, now) => AbandonStock(db, after, op, TimesOut, now);
    case CancelOp(op, now) => AbandonStock(db, after, op, IsCancelled, now);
    case Begin(op, now) => BeginOnly(db, after, op, now); OtherStock(db, after);
    case SetDevice(_, _) => OtherStock(db, after);
    case SetUser(_, _) => OtherStock(db, after);
    case _ => if IsReservationStep(step) { ReservationStock(db, after, step); } else { RequestStock(db, after, step); }
  }

  // ----- runs -------------------------------------------------------------------------------------

  function TotalDrift(db: Db, steps: seq<Step>): int {
    if steps == [] then 0
    else TotalDrift(db, steps[..|steps| - 1]) + Drift(Exec(db, steps[..|steps| - 1]), steps[|steps| - 1])
  }

  /** The books balance: over every run the stock has changed by exactly the drift of its steps. */
  lemma {:induction false} StockAccounted(db: Db, steps: seq<Step>)
    requires Coupled(db)
    ensures Stock(Exec(db, steps)) == Stock(db) + TotalDrift(db, steps)
  {
    if steps != [] {
      var early := steps[..|steps| - 1];
      StockAccounted(db, early);
      RunKeeps(db, early);
      StepStock(Exec(db, early), Exec(db, steps), steps[|steps| - 1]);
    }
  }

  /** A report says what is stored. */
  predicate Repeats(db: Db, step: Step) {
    step.SeeSlot? && step.slot in db.slots ==> step.presence == db.slots[step.slot].presence
  }

  ghost predicate AllRepeat(db: Db, steps: seq<Step>) {
    forall i | 0 <= i < |steps| :: Repeats(Exec(db, steps[..i]), steps[i])
  }

  /** Between agreeing slots and keys nothing drifts but by a report that brings news. */
  lemma NoDrift(db: Db, step: Step)
    requires Coupled(db) && Agreement(db) && Repeats(db, step)
    ensures Drift(db, step) == 0
  {
    if step.Report? && Succeeds(db, step.event, step.stored) {
      var op := db.ops[step.event.op];
      assert Linked(db, op) && Agrees(db, op.keyId);
      if op.action == Return {
        assert KeepsOut(db, op.borrowId, op.keyId);
      }
    }
  }

  lemma StillAgrees(db: Db, after: Db, step: Step)
    requires Coupled(db) && Agreement(db) && Repeats(db, step) && after == After(db, step)
    ensures Agreement(after)
  {
    StepMoves(db, step);
    MoveKeepsSlots(db, after);
    forall k | k in after.keys ensures Agrees(after, k) {
      if HasSlot(db, k) {
        StepSlot(db, after, step, k);
        assert Agrees(db, k);
      }
    }
  }

  /**
   * Starting from agreement, PRESENT slots plus keys out is constant over any run whose
   * reports bring no news, operations of every kind included.
   */
  lemma {:induction false} StockConserved(db: Db, steps: seq<Step>)
    requires Coupled(db) && Agreement(db) && AllRepeat(db, steps)
    ensures Stock(Exec(db, steps)) == Stock(db) && Agreement(Exec(db, steps))
  {
    if steps != [] {
      var early := steps[..|steps| - 1];
      var last := steps[|steps| - 1];
      assert Repeats(Exec(db, steps[..|steps| - 1]), last);
      forall i | 0 <= i < |early| ensures Repeats(Exec(db, early[..i]), early[i]) {
        assert early[..i] == steps[..i] && Repeats(Exec(db, steps[..i]), steps[i]);
      }
      StockConserved(db, early);
      RunKeeps(db, early);
      NoDrift(Exec(db, early), last);
      StillAgrees(Exec(db, early), Exec(db, steps), last);
      StepStock(Exec(db, early), Exec(db, steps), last);
    }
  }

  /** A report of PRESENT or ABSENT keeps the stock iff it agrees with what is stored on whether the slot is full. */
  lemma SeenStockIff(db: Db, slot: Id, presence: Presence)
    requires slot in db.slots
    ensures Stock(Seen(db, slot, presence)) == Stock(db)
            <==> (presence == Present <==> db.slots[slot].presence == Present)
  {
    SeenStock(db, slot, presence);
  }

  /** The report in the middle of a pickup takes one from the stock, and its success gives it back. */
  lemma PickupSeenEarlyStock(db: Db, id: Id, now: Time)
    requires Coupled(db) && Active(db, id) && db.ops[id].action == Pickup && Agrees(db, db.ops[id].keyId)
    ensures var seen := Seen(db, db.ops[id].slotId, Absent);
            && Stock(seen) == Stock(db) - 1
            && (CompletePickup(seen, id, now).Commit? ==> Stock(CompletePickup(seen, id, now).db) == Stock(db))
  {
    var seen := Seen(db, db.ops[id].slotId, Absent);
    assert Linked(db, db.ops[id]) && HasSlot(db, db.ops[id].keyId);
    SeenStock(db, db.ops[id].slotId, Absent);
    SeenKeeps(db, seen);
    if CompletePickup(seen, id, now).Commit? {
      PickedUpStock(seen, CompletePickup(seen, id, now).db, id, now);
    }
  }
}
