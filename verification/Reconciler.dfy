/** The reconciler as it works: one pass over the reported slots, updating rows as it goes. */
module Reconciler {
  import opened LedgerTypes
  import opened Alerts

  function Visits(s: Snapshot): seq<Step> {
    seq(|s.readings|, i requires 0 <= i < |s.readings| => Visit(s.device, s.at, s.readings[i]))
  }

  /** Nothing a stranger reports has an effect. */
  lemma {:induction false} StrangersIgnored(inv: Inventory, steps: seq<Step>)
    requires forall i | 0 <= i < |steps| :: steps[i].Visit? && steps[i].device !in inv.devices
    ensures Exec(inv, steps) == inv
  {
    if steps != [] {
      assert forall i | 0 <= i < |steps| - 1 :: steps[..|steps| - 1][i] == steps[i];
      StrangersIgnored(inv, steps[..|steps| - 1]);
    }
  }

  lemma {:induction false} StrangersFindNothing(inv: Inventory, steps: seq<Step>)
    requires forall i | 0 <= i < |steps| :: steps[i].Visit? && steps[i].device !in inv.devices
    ensures Discrepancies(inv, steps) == 0
  {
    if steps != [] {
      assert forall i | 0 <= i < |steps| - 1 :: steps[..|steps| - 1][i] == steps[i];
      StrangersIgnored(inv, steps[..|steps| - 1]);
      StrangersFindNothing(inv, steps[..|steps| - 1]);
    }
  }

  lemma OneMoreStep(inv: Inventory, steps: seq<Step>, i: nat)
    requires i < |steps| && steps[i].Visit?
    ensures Exec(inv, steps[..i + 1]) == After(Exec(inv, steps[..i]), steps[i])
    ensures Discrepancies(inv, steps[..i + 1]) == Discrepancies(inv, steps[..i])
            + if Discrepant(Exec(inv, steps[..i]), steps[i].device, steps[i].reading) then 1 else 0
  {
    assert steps[..i + 1][..i] == steps[..i];
  }

  class InventoryReconciler {
    var devices: set<Id>
    var slots: map<Place, SlotRow>
    var keys: map<Id, KeyRow>
    var alerts: map<AlertId, Alert>

    constructor (inv: Inventory)
      ensures Rows() == inv
    {
      devices, slots, keys, alerts := inv.devices, inv.slots, inv.keys, inv.alerts;
    }

    function Rows(): Inventory
      reads this
    {
      Inventory(devices, slots, keys, alerts)
    }

    method UpdatePresence(place: Place, presence: Presence)
      requires place in slots
      modifies this`slots
      ensures slots == old(slots)[place := old(slots)[place].(presence := presence)]
    {
      if slots[place].presence != presence {
        slots := slots[place := slots[place].(presence := presence)];
      } else {
        assert slots[place] == slots[place].(presence := presence);
      }
    }

    method Examine(slot: SlotRow, reading: Reading) returns (judged: Judgement)
      ensures judged == Judge(slot, keys, reading)
      ensures forall kind :: Finds(kind, slot, keys, reading)
                             <==> judged == Off(kind, ExpectedTag(slot, keys), ActualTag(reading))
      ensures judged == Clean <==> FindsNothing(slot, keys, reading)
    {
      JudgeIff(slot, keys, reading);
      judged := Clean;
      if slot.keyId != BLANK {
        if slot.keyId !in keys {
          return Skipped;
        }
        var key := keys[slot.keyId];
        if reading.present && reading.rfid != "" && key.rfidTag != "" {
          if !EqualFold(reading.rfid, key.rfidTag) {
            judged := Off(WrongKeyInSlot, key.rfidTag, reading.rfid);
          }
        }
        if !reading.present && key.status == KeyAvailable {
          judged := Off(MissingKey, key.rfidTag, "");
        }
        if reading.present && key.status == KeyBorrowed {
          judged := Off(UnexpectedKey, key.rfidTag, reading.rfid);
        }
      } else if reading.present && reading.rfid != "" {
        judged := Off(UnregisteredKey, "", reading.rfid);
      }
    }

    /** Create fails on a taken id; the caller only logs that. */
    method CreateAlert(id: AlertId, alert: Alert) returns (created: bool)
      modifies this`alerts
      ensures created == (id !in old(alerts))
      ensures alerts == if created then old(alerts)[id := alert] else old(alerts)
    {
      created := id !in alerts;
      if created {
        alerts := alerts[id := alert];
      }
    }

    /** Afterwards nothing is open at the place; what was open there is closed now, and nothing else has changed. */
    method ResolveAllBySlot(place: Place, at: Time)
      modifies this`alerts
      ensures alerts.Keys == old(alerts.Keys)
      ensures forall kind :: !HasOpenAlert(Rows(), place, kind)
      ensures forall id | id in alerts && old(alerts)[id].open && old(alerts)[id].place == place ::
                alerts[id].resolvedAt == Some(at)
                    && alerts[id] == old(alerts)[id].(open := false, resolvedAt := Some(at))
      ensures forall id | id in alerts && !(old(alerts)[id].open && old(alerts)[id].place == place) ::
                alerts[id] == old(alerts)[id]
    {
      alerts := map id | id in alerts ::
        if alerts[id].place == place
            && alerts[id].open then alerts[id].(open := false, resolvedAt := Some(at)) else alerts[id];
    }

    method ReconcileSlot(device: Id, at: Time, reading: Reading) returns (off: bool)
      requires device in devices
      modifies this`slots, this`alerts
      ensures Rows() == Reconciled(old(Rows()), device, at, reading)
      ensures off <==> Discrepant(old(Rows()), device, reading)
    {
      var place := Place(device, reading.slotNo);
      if place !in slots {
        return false;
      }
      var slot := slots[place];
      UpdatePresence(place, if reading.present then Present else Absent);
      var judged := Examine(slot, reading);
      assert judged.Off? <==> Discrepant(old(Rows()), device, reading) by { JudgeIff(slot, keys, reading); }
      match judged
      case Skipped => return false;
      case Clean =>
        ghost var seen := Rows();
        ResolveAllBySlot(place, at);
        assert alerts == Resolved(seen, place, at).alerts;
        return false;
      case Off(kind, expected, actual) =>
        if !HasOpenAlert(Rows(), place, kind) {
          var created := CreateAlert(AlertId(at, reading.slotNo), Alert(place, kind, expected, actual, true, at, None));
        }
        return true;
    }

    /** OnInventorySnapshot; the number of discrepancies, which it logs, is that of the readings that find something. */
    method OnInventorySnapshot(s: Snapshot) returns (error: Option<Error>, discrepancies: nat)
      modifies this
      ensures error == if s.device == BLANK then Some(InvalidInput) else None
      ensures error.Some? ==> Rows() == old(Rows())
      ensures error.None? ==> Rows() == Exec(old(Rows()), Visits(s))
      ensures error.None? ==> discrepancies == Discrepancies(old(Rows()), Visits(s))
    {
      discrepancies := 0;
      if s.device == BLANK {
        return Some(InvalidInput), 0;
      }
      if s.device !in devices {
        StrangersIgnored(Rows(), Visits(s));
        StrangersFindNothing(Rows(), Visits(s));
        return None, 0;
      }
      ghost var steps := Visits(s);
      assert steps[..0] == [];
      for i := 0 to |s.readings|
        invariant s.device in devices
        invariant Rows() == Exec(old(Rows()), steps[..i])
        invariant discrepancies == Discrepancies(old(Rows()), steps[..i])
      {
        var off := ReconcileSlot(s.device, s.at, s.readings[i]);
        if off {
          discrepancies := discrepancies + 1;
        }
        OneMoreStep(old(Rows()), steps, i);
      }
      assert steps[..|s.readings|] == steps;
      return None, discrepancies;
    }
  }
}
