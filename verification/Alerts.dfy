/**
 * Inventory reconciliation: what a cabinet reports about its slots against what the
 * ledger believes, and the alerts that follow from the history of readings.
 */
module Alerts {
  import opened LedgerTypes

  datatype Kind = WrongKeyInSlot | MissingKey | UnexpectedKey | UnregisteredKey

  datatype Place = Place(device: Id, slotNo: int)

  /** "alt_<timestamp>_<slotNo>": the device is not part of it. */
  datatype AlertId = AlertId(at: Time, slotNo: int)

  datatype Alert = Alert(
    place: Place, kind: Kind, expected: string, actual: string, open: bool, detectedAt: Time, resolvedAt: Option<Time>)

  /** `keyId` is BLANK for an unbound slot. */
  datatype SlotRow = SlotRow(presence: Presence, keyId: Id)

  datatype KeyRow = KeyRow(status: KeyStatus, rfidTag: string)

  datatype Inventory = Inventory(
    devices: set<Id>, slots: map<Place, SlotRow>, keys: map<Id, KeyRow>, alerts: map<AlertId, Alert>)

  datatype Reading = Reading(slotNo: int, present: bool, rfid: string)

  datatype Snapshot = Snapshot(device: Id, at: Time, readings: seq<Reading>)

  // ----- judging one reading -------------------------------------------------------------

  /** Skipped: the bound key row is missing, and alerts are left as they are. */
  datatype Judgement = Skipped | Clean | Off(kind: Kind, expected: string, actual: string)

  /** Later checks overwrite earlier ones, so a key that should be out outranks a wrong tag. */
  function Judge(slot: SlotRow, keys: map<Id, KeyRow>, reading: Reading): Judgement {
    if slot.keyId == BLANK then
      if reading.present && reading.rfid != "" then Off(UnregisteredKey, "", reading.rfid) else Clean
    else if slot.keyId !in keys then Skipped
    else
      var key := keys[slot.keyId];
      if reading.present && key.status == KeyBorrowed then Off(UnexpectedKey, key.rfidTag, reading.rfid)
      else if !reading.present && key.status == KeyAvailable then Off(MissingKey, key.rfidTag, "")
      else if reading.present && reading.rfid != "" && key.rfidTag != "" && !EqualFold(reading.rfid, key.rfidTag)
      then Off(WrongKeyInSlot, key.rfidTag, reading.rfid)
      else Clean
  }

  /** What calls for an alert of each kind: the slot's binding, the status and tag of its key, and the reading. */
  predicate Finds(kind: Kind, slot: SlotRow, keys: map<Id, KeyRow>, reading: Reading) {
    match kind
    case UnregisteredKey => slot.keyId == BLANK && reading.present && reading.rfid != ""
    case UnexpectedKey => HasKey(slot, keys) && reading.present && keys[slot.keyId].status == KeyBorrowed
    case MissingKey => HasKey(slot, keys) && !reading.present && keys[slot.keyId].status == KeyAvailable
    case WrongKeyInSlot =>
      && HasKey(slot, keys) && reading.present && keys[slot.keyId].status != KeyBorrowed
      && reading.rfid != "" && keys[slot.keyId].rfidTag != "" && !EqualFold(reading.rfid, keys[slot.keyId].rfidTag)
  }

  /** The slot is bound to a key that has a row. */
  predicate HasKey(slot: SlotRow, keys: map<Id, KeyRow>) {
    slot.keyId != BLANK && slot.keyId in keys
  }

  /** Nothing is wrong, as far as can be told. */
  ghost predicate FindsNothing(slot: SlotRow, keys: map<Id, KeyRow>, reading: Reading) {
    (slot.keyId == BLANK || slot.keyId in keys) && forall kind :: !Finds(kind, slot, keys, reading)
  }

  /** The tags an alert tells: that of the slot's key, and the one that was read. */
  function ExpectedTag(slot: SlotRow, keys: map<Id, KeyRow>): string {
    if HasKey(slot, keys) then keys[slot.keyId].rfidTag else ""
  }

  function ActualTag(reading: Reading): string {
    if reading.present then reading.rfid else ""
  }

  /** Exactly these readings raise exactly these alerts; what is neither is skipped. */
  lemma JudgeIff(slot: SlotRow, keys: map<Id, KeyRow>, reading: Reading)
    ensures forall kind :: Finds(kind, slot, keys, reading)
                           <==> Judge(slot, keys, reading) == Off(kind, ExpectedTag(slot, keys), ActualTag(reading))
    ensures FindsNothing(slot, keys, reading) <==> Judge(slot, keys, reading) == Clean
    ensures slot.keyId != BLANK && slot.keyId !in keys <==> Judge(slot, keys, reading) == Skipped
    ensures forall kind :: Judge(slot, keys, reading).Off? && Judge(slot, keys, reading).kind == kind
                           ==> Finds(kind, slot, keys, reading)
  {
    var judged := Judge(slot, keys, reading);
    if judged.Off? {
      assert Finds(judged.kind, slot, keys, reading);
    }
  }

  predicate IsOpenAlert(inv: Inventory, id: AlertId, place: Place, kind: Kind) {
    id in inv.alerts && inv.alerts[id].open && inv.alerts[id].place == place && inv.alerts[id].kind == kind
  }

  /** FindOpenBySlotAndType returns a row. */
  predicate HasOpenAlert(inv: Inventory, place: Place, kind: Kind) {
    exists id | id in inv.alerts :: IsOpenAlert(inv, id, place, kind)
  }

  /** ResolveAllBySlot. */
  function Resolved(inv: Inventory, place: Place, at: Time): Inventory {
    inv.(alerts := map id | id in inv.alerts ::
           if inv.alerts[id].place == place && inv.alerts[id].open
           then inv.alerts[id].(open := false, resolvedAt := Some(at)) else inv.alerts[id])
  }

  /** A failing Create (the id is taken) is only logged. */
  function Raised(inv: Inventory, place: Place, kind: Kind, expected: string, actual: string, at: Time): Inventory {
    var id := AlertId(at, place.slotNo);
    if HasOpenAlert(inv, place, kind) || id in inv.alerts then inv
    else inv.(alerts := inv.alerts[id := Alert(place, kind, expected, actual, true, at, None)])
  }

  function PresenceOf(reading: Reading): Presence {
    if reading.present then Present else Absent
  }

  predicate Known(inv: Inventory, place: Place) {
    place.device in inv.devices && place in inv.slots
  }

  /** One turn of the loop over reported slots. */
  function Reconciled(inv: Inventory, device: Id, at: Time, reading: Reading): Inventory {
    var place := Place(device, reading.slotNo);
    if !Known(inv, place) then inv
    else
      var seen := inv.(slots := inv.slots[place := inv.slots[place].(presence := PresenceOf(reading))]);
      match Judge(inv.slots[place], inv.keys, reading)
      case Skipped => seen
      case Clean => Resolved(seen, place, at)
      case Off(kind, expected, actual) => Raised(seen, place, kind, expected, actual, at)
  }

  /** The reading is of a known slot, and finds something. */
  ghost predicate Discrepant(inv: Inventory, device: Id, reading: Reading) {
    && Known(inv, Place(device, reading.slotNo))
    && exists kind :: Finds(kind, inv.slots[Place(device, reading.slotNo)], inv.keys, reading)
  }

  // ----- histories ----------------------------------------------------------------------------

  /** A reading, or a change of a key row from elsewhere. */
  datatype Step = Visit(device: Id, at: Time, reading: Reading) | SetKey(key: Id, row: KeyRow)

  function After(inv: Inventory, step: Step): Inventory {
    match step
    case Visit(device, at, reading) => Reconciled(inv, device, at, reading)
    case SetKey(key, row) => inv.(keys := inv.keys[key := row])
  }

  function Exec(inv: Inventory, steps: seq<Step>): Inventory {
    if steps == [] then inv else After(Exec(inv, steps[..|steps| - 1]), steps[|steps| - 1])
  }

  /** The number of visits that find something. */
  ghost function Discrepancies(inv: Inventory, steps: seq<Step>): nat {
    if steps == [] then 0
    else
      var last := steps[|steps| - 1];
      Discrepancies(inv, steps[..|steps| - 1])
      + if last.Visit? && Discrepant(Exec(inv, steps[..|steps| - 1]), last.device, last.reading) then 1 else 0
  }

  /** Timestamps grow from snapshot to snapshot, and a snapshot names each slot once. */
  ghost predicate Stamped(steps: seq<Step>) {
    forall i, j | 0 <= i < j < |steps| && steps[i].Visit? && steps[j].Visit? ::
      && steps[i].at <= steps[j].at
      && (steps[i].at == steps[j].at ==>
           steps[i].device == steps[j].device && steps[i].reading.slotNo != steps[j].reading.slotNo)
  }

  /** What one more reading makes of what has been found: a clean one forgets it all. */
  ghost function FoundNow(found: map<Kind, Time>, at: Time, slot: SlotRow, keys: map<Id, KeyRow>,
                          reading: Reading): map<Kind, Time>
  {
    if FindsNothing(slot, keys, reading) then map[]
    else
      map kind | kind in {WrongKeyInSlot, MissingKey, UnexpectedKey, UnregisteredKey}
                 && (kind in found || Finds(kind, slot, keys, reading)) ::
        if kind in found then found[kind] else at
  }

  /** The kinds detected at a place since its last clean reading, with the first detection. */
  ghost function Findings(inv: Inventory, steps: seq<Step>, place: Place): map<Kind, Time> {
    if steps == [] then map[]
    else
      var before := Exec(inv, steps[..|steps| - 1]);
      var found := Findings(inv, steps[..|steps| - 1], place);
      match steps[|steps| - 1]
      case SetKey(_, _) => found
      case Visit(device, at, reading) =>
        if Place(device, reading.slotNo) != place || !Known(before, place) then found
        else FoundNow(found, at, before.slots[place], before.keys, reading)
  }

  lemma FoundAsJudged(found: map<Kind, Time>, at: Time, slot: SlotRow, keys: map<Id, KeyRow>, reading: Reading)
    ensures FoundNow(found, at, slot, keys, reading)
            == match Judge(slot, keys, reading)
               case Skipped => found
               case Clean => map[]
               case Off(kind, _, _) => if kind in found then found else found[kind := at]
  {
    JudgeIff(slot, keys, reading);
    var now := FoundNow(found, at, slot, keys, reading);
    if !FindsNothing(slot, keys, reading) {
      forall kind ensures kind in now <==> kind in found || Finds(kind, slot, keys, reading) {
        match kind case WrongKeyInSlot => case MissingKey => case UnexpectedKey => case UnregisteredKey =>
      }
    }
  }

  /** The open alerts at a place are exactly `found`, one per kind, stamped with the detection. */
  ghost predicate Shows(inv: Inventory, place: Place, found: map<Kind, Time>) {
    && (forall kind | kind in found :: exists id :: IsOpenAlert(inv, id, place, kind))
    && (forall id, kind | IsOpenAlert(inv, id, place, kind) ::
         kind in found && inv.alerts[id].detectedAt == found[kind])
    && (forall id1, id2, kind | IsOpenAlert(inv, id1, place, kind) && IsOpenAlert(inv, id2, place, kind) :: id1 == id2)
  }

  /** Every alert comes from a visit at its stamp. */
  ghost predicate FromVisits(inv: Inventory, steps: seq<Step>) {
    forall id | id in inv.alerts ::
      exists i | 0 <= i < |steps| :: steps[i].Visit? && steps[i].at == id.at && steps[i].reading.slotNo == id.slotNo
  }

  lemma RaisedShows(inv: Inventory, place: Place, at: Time, off: Judgement, found: map<Kind, Time>)
    requires off.Off? && Shows(inv, place, found) && AlertId(at, place.slotNo) !in inv.alerts
    ensures Shows(Raised(inv, place, off.kind, off.expected, off.actual, at), place,
                  if off.kind in found then found else found[off.kind := at])
  {
    var after := Raised(inv, place, off.kind, off.expected, off.actual, at);
    if off.kind in found {
      var id :| IsOpenAlert(inv, id, place, off.kind);
      assert after == inv;
    } else {
      var raised := AlertId(at, place.slotNo);
      assert IsOpenAlert(after, raised, place, off.kind);
      forall kind | kind in found ensures exists id :: IsOpenAlert(after, id, place, kind) {
        var id :| IsOpenAlert(inv, id, place, kind);
        assert IsOpenAlert(after, id, place, kind);
      }
      forall id, kind ensures IsOpenAlert(after, id, place, kind)
                              <==> IsOpenAlert(inv, id, place, kind) || (id == raised && kind == off.kind) {}
    }
  }

  /** Alerts of other places are not touched. */
  lemma OtherPlaceShows(inv: Inventory, device: Id, at: Time, reading: Reading, place: Place, found: map<Kind, Time>)
    requires Shows(inv, place, found) && Place(device, reading.slotNo) != place
    ensures Shows(Reconciled(inv, device, at, reading), place, found)
  {
    var after := Reconciled(inv, device, at, reading);
    forall id, kind ensures IsOpenAlert(after, id, place, kind) <==> IsOpenAlert(inv, id, place, kind) {}
    forall kind | kind in found ensures exists id :: IsOpenAlert(after, id, place, kind) {
      var id :| IsOpenAlert(inv, id, place, kind);
      assert IsOpenAlert(after, id, place, kind);
    }
  }

  lemma SameAlertsShow(inv: Inventory, after: Inventory, place: Place, found: map<Kind, Time>)
    requires Shows(inv, place, found) && after.alerts == inv.alerts
    ensures Shows(after, place, found)
  {
    forall id, kind ensures IsOpenAlert(after, id, place, kind) <==> IsOpenAlert(inv, id, place, kind) {}
    forall kind | kind in found ensures exists id :: IsOpenAlert(after, id, place, kind) {
      var id :| IsOpenAlert(inv, id, place, kind);
      assert IsOpenAlert(after, id, place, kind);
    }
  }

  lemma HereShows(inv: Inventory, at: Time, reading: Reading, place: Place, found: map<Kind, Time>)
    requires Shows(inv, place, found) && place.slotNo == reading.slotNo && Known(inv, place)
    requires AlertId(at, place.slotNo) !in inv.alerts
    ensures Shows(Reconciled(inv, place.device, at, reading), place,
                  FoundNow(found, at, inv.slots[place], inv.keys, reading))
  {
    FoundAsJudged(found, at, inv.slots[place], inv.keys, reading);
    var seen := inv.(slots := inv.slots[place := inv.slots[place].(presence := PresenceOf(reading))]);
    SameAlertsShow(inv, seen, place, found);
    var judged := Judge(inv.slots[place], inv.keys, reading);
    if judged.Off? {
      RaisedShows(seen, place, at, judged, found);
    } else if judged.Clean? {
      forall id, kind ensures !IsOpenAlert(Resolved(seen, place, at), id, place, kind) {}
    }
  }

  lemma VisitsMore(inv: Inventory, steps: seq<Step>, step: Step)
    requires FromVisits(inv, steps)
    ensures FromVisits(After(inv, step), steps + [step])
  {
    var after := After(inv, step);
    forall id | id in after.alerts
      ensures exists i | 0 <= i < |steps + [step]| ::
                (steps + [step])[i].Visit? && (steps + [step])[i].at == id.at
                    && (steps + [step])[i].reading.slotNo == id.slotNo
    {
      if id in inv.alerts {
        var i :| 0 <= i < |steps| && steps[i].Visit? && steps[i].at == id.at && steps[i].reading.slotNo == id.slotNo;
        assert (steps + [step])[i] == steps[i];
      } else {
        assert (steps + [step])[|steps|] == step;
      }
    }
  }

  /** With growing timestamps the id of a new alert is never taken. */
  lemma FreshId(inv: Inventory, steps: seq<Step>, step: Step)
    requires FromVisits(inv, steps) && Stamped(steps + [step]) && step.Visit?
    ensures AlertId(step.at, step.reading.slotNo) !in inv.alerts
  {
    assert (steps + [step])[|steps|] == step;
    forall i | 0 <= i < |steps| && steps[i].Visit?
      ensures steps[i].at != step.at || steps[i].reading.slotNo != step.reading.slotNo
    {
      assert (steps + [step])[i] == steps[i];
    }
  }

  /** The open alerts of every place are a function of the history of its readings. */
  lemma {:induction false} AlertsAreHistory(inv: Inventory, steps: seq<Step>, place: Place)
    requires inv.alerts == map[] && Stamped(steps)
    ensures Shows(Exec(inv, steps), place, Findings(inv, steps, place))
    ensures FromVisits(Exec(inv, steps), steps)
  {
    if steps != [] {
      var early := steps[..|steps| - 1];
      var last := steps[|steps| - 1];
      assert steps == early + [last];
      assert forall i | 0 <= i < |early| :: early[i] == steps[i];
      AlertsAreHistory(inv, early, place);
      var before := Exec(inv, early);
      var found := Findings(inv, early, place);
      VisitsMore(before, early, last);
      if last.SetKey? {
        SameAlertsShow(before, Exec(inv, steps), place, found);
      } else if Place(last.device, last.reading.slotNo) != place {
        OtherPlaceShows(before, last.device, last.at, last.reading, place, found);
      } else if Known(before, place) {
        FreshId(before, early, last);
        HereShows(before, last.at, last.reading, place, found);
      }
    }
  }

  // ----- presence ---------------------------------------------------------------------------------

  /** What was last reported about a place. */
  function LastReported(steps: seq<Step>, place: Place): Option<Presence> {
    if steps == [] then None
    else
      match steps[|steps| - 1]
      case Visit(device, _, reading) =>
        if Place(device, reading.slotNo) == place then Some(PresenceOf(reading))
        else LastReported(steps[..|steps| - 1], place)
      case SetKey(_, _) => LastReported(steps[..|steps| - 1], place)
  }

  /** A known slot's stored presence is the one last reported; its binding never changes. */
  lemma {:induction false} PresenceIsLastReported(inv: Inventory, steps: seq<Step>, place: Place)
    requires Known(inv, place)
    ensures Known(Exec(inv, steps), place)
    ensures Exec(inv, steps).slots[place].keyId == inv.slots[place].keyId
    ensures Exec(inv, steps).slots[place].presence
            == match LastReported(steps, place) case Some(p) => p case None => inv.slots[place].presence
  {
    if steps != [] {
      PresenceIsLastReported(inv, steps[..|steps| - 1], place);
    }
  }

  // ----- the gap ---------------------------------------------------------------------------------------

  /**
   * A reading that finds something leaves an open alert of that kind exactly if there was one or the id
   * is free. Two cabinets reporting the same slot number with the same timestamp compete for
   * one id, and the second alert is lost.
   */
  lemma AlertKeptIff(inv: Inventory, device: Id, at: Time, reading: Reading, kind: Kind)
    requires Known(inv, Place(device, reading.slotNo))
    requires Finds(kind, inv.slots[Place(device, reading.slotNo)], inv.keys, reading)
    ensures HasOpenAlert(Reconciled(inv, device, at, reading), Place(device, reading.slotNo), kind)
            <==> HasOpenAlert(inv, Place(device, reading.slotNo), kind) || AlertId(at, reading.slotNo) !in inv.alerts
  {
    var place := Place(device, reading.slotNo);
    JudgeIff(inv.slots[place], inv.keys, reading);
    var seen := inv.(slots := inv.slots[place := inv.slots[place].(presence := PresenceOf(reading))]);
    var after := Reconciled(inv, device, at, reading);
    forall id ensures IsOpenAlert(seen, id, place, kind) <==> IsOpenAlert(inv, id, place, kind) {}
    if HasOpenAlert(inv, place, kind) {
      var id :| id in inv.alerts && IsOpenAlert(inv, id, place, kind);
      assert IsOpenAlert(seen, id, place, kind);
      assert after == seen;
    } else if AlertId(at, reading.slotNo) !in inv.alerts {
      assert IsOpenAlert(after, AlertId(at, reading.slotNo), place, kind);
    }
  }

  /** What is open at the place is closed at `at`. */
  predicate ClosedHere(before: Alert, after: Alert, place: Place, at: Time) {
    after == if before.place == place && before.open then before.(open := false, resolvedAt := Some(at)) else before
  }

  /**
   * One reading of a known slot, row by row: its presence is stored; what it finds is stored as an
   * open alert with both tags, unless one is open or the id is taken; if it finds nothing, all
   * alerts of the slot are closed. No other row changes.
   */
  lemma ReadingRows(inv: Inventory, device: Id, at: Time, reading: Reading)
    requires Known(inv, Place(device, reading.slotNo))
    ensures var place := Place(device, reading.slotNo);
            var slot := inv.slots[place];
            var after := Reconciled(inv, device, at, reading);
            && after.devices == inv.devices && after.keys == inv.keys
            && after.slots == inv.slots[place := SlotRow(if reading.present then Present else Absent, slot.keyId)]
            && (forall kind | Finds(kind, slot, inv.keys, reading) ::
                  after.alerts == if HasOpenAlert(inv, place, kind) || AlertId(at, reading.slotNo) in inv.alerts
                                  then inv.alerts
                                  else inv.alerts[AlertId(at, reading.slotNo) :=
                                         Alert(place := place, kind := kind, expected := ExpectedTag(slot, inv.keys),
                                               actual := ActualTag(reading), open := true, detectedAt := at,
                                               resolvedAt := None)])
            && (FindsNothing(slot, inv.keys, reading) ==>
                  after.alerts.Keys == inv.alerts.Keys
                  && forall id | id in inv.alerts :: ClosedHere(inv.alerts[id], after.alerts[id], place, at))
            && (slot.keyId != BLANK && slot.keyId !in inv.keys ==> after.alerts == inv.alerts)
  {
    var place := Place(device, reading.slotNo);
    JudgeIff(inv.slots[place], inv.keys, reading);
    var seen := inv.(slots := inv.slots[place := inv.slots[place].(presence := PresenceOf(reading))]);
    forall kind ensures HasOpenAlert(seen, place, kind) <==> HasOpenAlert(inv, place, kind) {
      assert forall id :: IsOpenAlert(seen, id, place, kind) <==> IsOpenAlert(inv, id, place, kind);
      if HasOpenAlert(inv, place, kind) {
        var id :| id in inv.alerts && IsOpenAlert(inv, id, place, kind);
        assert IsOpenAlert(seen, id, place, kind);
      }
      if HasOpenAlert(seen, place, kind) {
        var id :| id in seen.alerts && IsOpenAlert(seen, id, place, kind);
        assert IsOpenAlert(inv, id, place, kind);
      }
    }
  }

  function TwoCabinets(first: Id, second: Id): Inventory {
    var empty := SlotRow(Absent, BLANK);
    Inventory({first, second}, map[Place(first, 1) := empty, Place(second, 1) := empty], map[], map[])
  }

  /** One timestamp, two cabinets, the same slot number: only the first alert is stored. */
  lemma SameStampLoses(first: Id, second: Id, at: Time)
    requires first != second
    ensures var inv := TwoCabinets(first, second);
            var reading := Reading(1, true, "tag");
            var end := Exec(inv, [Visit(first, at, reading), Visit(second, at, reading)]);
            && HasOpenAlert(end, Place(first, 1), UnregisteredKey)
            && !HasOpenAlert(end, Place(second, 1), UnregisteredKey)
            && UnregisteredKey in Findings(inv, [Visit(first, at, reading), Visit(second, at, reading)],
                 Place(second, 1))
  {
    var inv := TwoCabinets(first, second);
    var reading := Reading(1, true, "tag");
    var visits := [Visit(first, at, reading), Visit(second, at, reading)];
    assert visits[..1] == [visits[0]] && [visits[0]][..0] == [] && Exec(inv, []) == inv;
    var one := Exec(inv, visits[..1]);
    assert one == Reconciled(inv, first, at, reading);
    assert IsOpenAlert(one, AlertId(at, 1), Place(first, 1), UnregisteredKey);
    var end := Exec(inv, visits);
    assert end == Reconciled(one, second, at, reading);
    assert end.alerts == one.alerts;
    var there := Place(second, 1);
    FoundAsJudged(Findings(inv, visits[..1], there), at, one.slots[there], one.keys, reading);
    assert IsOpenAlert(end, AlertId(at, 1), Place(first, 1), UnregisteredKey);
  }
}
