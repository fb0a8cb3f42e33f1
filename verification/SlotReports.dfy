/**
 * What the slots report. Cabinets report presence on their own, in the middle of
 * operations too, so a slot follows its key's status only until the next report.
 */
module SlotReports {
  import opened LedgerTypes
  import opened OperationTx
  import opened ReservationTx
  import opened Steps
  import opened Coupling
  import opened Moves
  import opened CouplingRuns

  /** What the status of a key says about its slot. */
  function Expected(db: Db, k: Id): Presence {
    if IsOut(db, k) then Absent else Present
  }

  predicate HasSlot(db: Db, k: Id) {
    k in db.keys && db.keys[k].slotId in db.slots
  }

  function PresenceAt(db: Db, k: Id): Presence
    requires HasSlot(db, k)
  {
    db.slots[db.keys[k].slotId].presence
  }

  predicate Agrees(db: Db, k: Id) {
    HasSlot(db, k) ==> PresenceAt(db, k) == Expected(db, k)
  }

  ghost predicate Agreement(db: Db) {
    forall k | k in db.keys :: Agrees(db, k)
  }

  /** Whatever was reported before: a finished pickup or return settles its slot. */
  lemma FinishSettles(db: Db, after: Db, id: Id)
    requires Coupled(db) && (PicksUp(db, after, id) || GivesBack(db, after, id))
    ensures HasSlot(after, db.ops[id].keyId) && Agrees(after, db.ops[id].keyId)
    ensures IsOut(after, db.ops[id].keyId) != IsOut(db, db.ops[id].keyId)
  {
    if PicksUp(db, after, id) {
      PickupOut(db, after, id);
    } else {
      ReturnIn(db, after, id);
    }
  }

  lemma FinishElsewhere(db: Db, after: Db, id: Id, k: Id)
    requires Bound(db) && Ends(db, after, id) && HasSlot(db, k) && k != db.ops[id].keyId
    ensures HasSlot(after, k) && after.keys[k] == db.keys[k] && PresenceAt(after, k) == PresenceAt(db, k)
  {
    assert Linked(db, db.ops[id]);
  }

  /** What one step does to the slot of one key. */
  ghost predicate SlotMoved(db: Db, after: Db, step: Step, k: Id) {
    && HasSlot(db, k) && HasSlot(after, k) && after.keys[k].slotId == db.keys[k].slotId
    && if IsOut(after, k) != IsOut(db, k) then Agrees(after, k)
       else if step.SeeSlot? && step.slot == db.keys[k].slotId then PresenceAt(after, k) == step.presence
       else PresenceAt(after, k) == PresenceAt(db, k)
  }

  lemma FinishedSlot(db: Db, after: Db, step: Step, id: Id, k: Id)
    requires Coupled(db) && Finished(db, after, id) && HasSlot(db, k) && !step.SeeSlot?
    ensures SlotMoved(db, after, step, k)
  {
    if Abandons(db, after, id) {
      QuietSlot(db, after, step, k);
    } else if k != db.ops[id].keyId {
      FinishElsewhere(db, after, id, k);
    } else {
      SettledSlot(db, after, step, id);
    }
  }

  lemma SettledSlot(db: Db, after: Db, step: Step, id: Id)
    requires Coupled(db) && (PicksUp(db, after, id) || GivesBack(db, after, id)) && HasSlot(db, db.ops[id].keyId)
    ensures SlotMoved(db, after, step, db.ops[id].keyId)
  {
    FinishSettles(db, after, id);
    assert Linked(db, db.ops[id]);
  }

  lemma QuietSlot(db: Db, after: Db, step: Step, k: Id)
    requires after.slots == db.slots && KeysOnlyReserved(db, after) && HasSlot(db, k) && !step.SeeSlot?
    ensures SlotMoved(db, after, step, k)
  {
  }

  lemma ReservationSlot(db: Db, after: Db, step: Step, k: Id)
    requires Coupled(db) && IsReservationStep(step) && after == After(db, step) && HasSlot(db, k)
    ensures SlotMoved(db, after, step, k)
  {
    ReservationQuiet(db, after, step);
    QuietSlot(db, after, step, k);
  }

  /** Reservation steps leave slots alone, and move keys between AVAILABLE and RESERVED only. */
  lemma ReservationQuiet(db: Db, after: Db, step: Step)
    requires Coupled(db) && IsReservationStep(step) && after == After(db, step)
    ensures after.slots == db.slots && KeysOnlyReserved(db, after)
  {
    ReservationRows(db, after, step);
    ReservationStepMoves(db, after, step);
    RowsMoveQuietly(db, after);
  }

  lemma RowsMoveQuietly(db: Db, after: Db)
    requires OnlyRows(db, after) && Moved(db, after)
    ensures KeysOnlyReserved(db, after)
  {
    forall id ensures !Finished(db, after, id) {}
  }

  lemma SeenSlot(db: Db, after: Db, step: Step, k: Id)
    requires step.SeeSlot? && after == Seen(db, step.slot, step.presence) && HasSlot(db, k)
    ensures SlotMoved(db, after, step, k)
  {
    SeenAt(db, after, step.slot, step.presence, k);
  }

  lemma SeenAt(db: Db, after: Db, slot: Id, presence: Presence, k: Id)
    requires after == Seen(db, slot, presence) && HasSlot(db, k)
    ensures after.keys == db.keys && HasSlot(after, k)
    ensures PresenceAt(after, k) == if slot == db.keys[k].slotId then presence else PresenceAt(db, k)
  {
    if slot in db.slots {
      var row := db.slots[slot].(presence := presence);
      assert after.slots == db.slots[slot := row];
      assert slot != db.keys[k].slotId ==> after.slots[db.keys[k].slotId] == db.slots[db.keys[k].slotId];
    } else {
      assert after == db;
    }
  }

  lemma StepSlot(db: Db, after: Db, step: Step, k: Id)
    requires Coupled(db) && after == After(db, step) && HasSlot(db, k)
    ensures SlotMoved(db, after, step, k)
  {
    if step.SeeSlot? {
      SeenSlot(db, after, step, k);
    } else if step.SetDevice? || step.SetUser? {
      QuietSlot(db, after, step, k);
    } else if IsReservationStep(step) {
      ReservationSlot(db, after, step, k);
    } else {
      OperationStepMoves(db, after, step);
      OperationSlot(db, after, step, k);
    }
  }

  lemma OperationSlot(db: Db, after: Db, step: Step, k: Id)
    requires Coupled(db) && HasSlot(db, k) && !step.SeeSlot?
    requires after == db || OnlyTouched(db, after) || Began(db, after, Subject(step))
             || Finished(db, after, Subject(step))
    ensures SlotMoved(db, after, step, k)
  {
    if Finished(db, after, Subject(step)) {
      FinishedSlot(db, after, step, Subject(step), k);
    } else {
      QuietSlot(db, after, step, k);
    }
  }

  /** No step adds or removes a key or a slot, or binds a key elsewhere. */
  lemma MoveKeepsSlots(db: Db, after: Db)
    requires Moved(db, after)
    ensures after.keys.Keys == db.keys.Keys && after.slots.Keys == db.slots.Keys
    ensures forall k | k in db.keys :: after.keys[k].slotId == db.keys[k].slotId
  {
    if id :| Finished(db, after, id) {
      EndKeepsSlots(db, after, id);
    }
  }

  lemma EndKeepsSlots(db: Db, after: Db, id: Id)
    requires Ends(db, after, id)
    ensures after.keys.Keys == db.keys.Keys && after.slots.Keys == db.slots.Keys
    ensures forall k | k in db.keys :: after.keys[k].slotId == db.keys[k].slotId
  {
    assert Linked(db, db.ops[id]);
  }

  // ----- runs -----------------------------------------------------------------------------

  /** The latest report about the slot of a key since the key last went out or came back. */
  function Reported(db: Db, steps: seq<Step>, k: Id): Option<Presence> {
    if steps == [] then None
    else
      var early := steps[..|steps| - 1];
      var last := steps[|steps| - 1];
      if IsOut(Exec(db, steps), k) != IsOut(Exec(db, early), k) then None
      else if last.SeeSlot? && k in db.keys && last.slot == db.keys[k].slotId then Some(last.presence)
      else Reported(db, early, k)
  }

  /**
   * In every reachable ledger the presence of a slot is the one last reported since its key
   * moved, and if there was no report since, the one the status of the key calls for.
   */
  lemma {:induction false} PresenceIsReportedOrExpected(db: Db, steps: seq<Step>, k: Id)
    requires Coupled(db) && HasSlot(db, k) && Agrees(db, k)
    ensures HasSlot(Exec(db, steps), k) && Exec(db, steps).keys[k].slotId == db.keys[k].slotId
    ensures PresenceAt(Exec(db, steps), k)
         == match Reported(db, steps, k) case Some(p) => p case None => Expected(Exec(db, steps), k)
  {
    if steps != [] {
      var early := steps[..|steps| - 1];
      PresenceIsReportedOrExpected(db, early, k);
      RunKeeps(db, early);
      StepSlot(Exec(db, early), Exec(db, steps), steps[|steps| - 1], k);
    }
  }

  // ----- the gap ---------------------------------------------------------------------------

  /** A report keeps slots and key statuses in agreement iff it repeats what is stored. */
  lemma SeenAgreesIff(db: Db, k: Id, presence: Presence)
    requires Bound(db) && Agreement(db) && HasSlot(db, k)
    ensures Agreement(Seen(db, db.keys[k].slotId, presence)) <==> presence == PresenceAt(db, k)
  {
    var after := Seen(db, db.keys[k].slotId, presence);
    assert PresenceAt(after, k) == presence && Expected(after, k) == Expected(db, k);
    if presence == PresenceAt(db, k) {
      assert after.slots == db.slots;
    } else {
      assert !Agrees(after, k);
    }
  }

  /**
   * The ordinary pickup: the slot is reported empty as the user takes the key, before the
   * door closes and success is reported. The coupling invariant holds in between, the
   * agreement of slot and key does not, and success restores it.
   */
  lemma PickupSeenEarly(db: Db, id: Id, now: Time)
    requires Coupled(db) && Active(db, id) && db.ops[id].action == Pickup && Agrees(db, db.ops[id].keyId)
    ensures var seen := Seen(db, db.ops[id].slotId, Absent);
            && Coupled(seen) && !Agrees(seen, db.ops[id].keyId)
            && (CompletePickup(seen, id, now).Commit? ==> Agrees(CompletePickup(seen, id, now).db, db.ops[id].keyId))
  {
    var seen := Seen(db, db.ops[id].slotId, Absent);
    var k := db.ops[id].keyId;
    assert Linked(db, db.ops[id]);
    SeenKeeps(db, seen);
    assert HasSlot(seen, k) && !IsOut(seen, k);
    if CompletePickup(seen, id, now).Commit? {
      assert Linked(seen, seen.ops[id]);
      PickupShape(seen, CompletePickup(seen, id, now).db, id, now);
      FinishSettles(seen, CompletePickup(seen, id, now).db, id);
    }
  }

  /** And the ordinary return: the key is reported in before its tag has been read. */
  lemma ReturnSeenEarly(db: Db, id: Id, now: Time)
    requires Coupled(db) && Active(db, id) && db.ops[id].action == Return && Agrees(db, db.ops[id].keyId)
    ensures var seen := Seen(db, db.ops[id].slotId, Present);
            && Coupled(seen) && !Agrees(seen, db.ops[id].keyId)
            && (CompleteReturn(seen, id, now).Commit? ==> Agrees(CompleteReturn(seen, id, now).db, db.ops[id].keyId))
  {
    var seen := Seen(db, db.ops[id].slotId, Present);
    var k := db.ops[id].keyId;
    assert Linked(db, db.ops[id]);
    SeenKeeps(db, seen);
    assert KeepsOut(seen, db.ops[id].borrowId, k);
    assert HasSlot(seen, k) && IsOut(seen, k);
    if CompleteReturn(seen, id, now).Commit? {
      assert Linked(seen, seen.ops[id]);
      ReturnShape(seen, CompleteReturn(seen, id, now).db, id, now);
      FinishSettles(seen, CompleteReturn(seen, id, now).db, id);
    }
  }
}
