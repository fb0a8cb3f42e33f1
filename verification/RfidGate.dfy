/**
 * The RFID gate, end to end: a borrow record is only completed by a return whose key
 * was identified, and the tag it records was carried by a confirmation handled for it.
 */
module RfidGate {
  import opened LedgerTypes
  import opened OperationTx
  import opened Services
  import opened Steps
  import opened Coupling
  import opened Moves
  import opened CouplingRuns
  import opened EventLog

  /** The RFID confirmations a run has handled, with the operation they were for. */
  function Confirmations(db: Db, steps: seq<Step>): set<(Id, TagData)> {
    if steps == [] then {}
    else
      var before := Exec(db, steps[..|steps| - 1]);
      var last := steps[|steps| - 1];
      Confirmations(db, steps[..|steps| - 1])
      + if last.Report? && last.event.etype == EvRfidConfirmed && OnDeviceEvent(before, last.event, last.stored).Commit?
        then {(last.event.op, last.event.data)} else {}
  }

  ghost predicate Carried(seen: set<(Id, TagData)>, op: Id, tag: string) {
    exists data: TagData :: (op, data) in seen && tag in {data.scannedRfid, data.uid, data.rfidTag}
  }

  ghost predicate WasConfirmed(seen: set<(Id, TagData)>, op: Id) {
    exists data: TagData :: (op, data) in seen
  }

  /** A recorded tag: none, or carried as it is or before trimming. */
  ghost predicate Recorded(seen: set<(Id, TagData)>, op: Id, tag: string) {
    tag == "" || exists raw: string :: Carried(seen, op, raw) && (tag == raw || tag == TrimSpace(raw))
  }

  /** The recorded tag is the key's, if the key has one. */
  predicate TagFits(db: Db, key: Id, tag: string) {
    && key in db.keys
    && var expected := TrimSpace(db.keys[key].rfidTag);
    && (expected == "" || EqualFold(TrimSpace(tag), expected))
  }

  /** Operation `o` is the return that completed borrow `b`, and passed the gate. */
  ghost predicate PassedGate(db: Db, seen: set<(Id, TagData)>, b: Id, o: Id) {
    && b in db.borrows && o in db.ops && db.ops[o].action == Return && db.ops[o].status == OpSuccess
         && db.ops[o].borrowId == b
    && WasConfirmed(seen, o)
    && db.borrows[b].rfidVerified
    && Recorded(seen, o, db.borrows[b].scannedRfid)
    && TagFits(db, db.borrows[b].keyId, db.borrows[b].scannedRfid)
  }

  ghost predicate CompletedGated(db: Db, seen: set<(Id, TagData)>) {
    forall b | b in db.borrows && db.borrows[b].status == Completed :: exists o :: PassedGate(db, seen, b, o)
  }

  /** What is on an active operation, and in the logs, came from handled confirmations. */
  ghost predicate TagsCarried(db: Db, seen: set<(Id, TagData)>) {
    && (forall o | Active(db, o) :: db.ops[o].scannedRfid == "" || Carried(seen, o, db.ops[o].scannedRfid))
    && (forall o, i | o in db.ops && 0 <= i < |LogOf(db, o)| && LogOf(db, o)[i].etype == EvRfidConfirmed ::
          (o, LogOf(db, o)[i].data) in seen)
  }

  // ----- one step ------------------------------------------------------------------------

  lemma {:induction false} LatestIsLogged(log: seq<Event>)
    requires LatestRfid(log).Some?
    ensures exists i :: 0 <= i < |log| && log[i].etype == EvRfidConfirmed && log[i].data == LatestRfid(log).value
  {
    if log[|log| - 1].etype != EvRfidConfirmed {
      LatestIsLogged(log[..|log| - 1]);
      var i :| 0 <= i < |log[..|log| - 1]| && log[..|log| - 1][i].etype == EvRfidConfirmed
               && log[..|log| - 1][i].data == LatestRfid(log).value;
      assert log[i].etype == EvRfidConfirmed && log[i].data == LatestRfid(log).value;
    }
  }

  /** A return that passes RfidVerdict was confirmed, and the tag it records was carried. */
  lemma VerdictGates(db: Db, seen: set<(Id, TagData)>, id: Id)
    requires TagsCarried(db, seen) && Active(db, id)
    requires RfidVerdict(db, db.ops[id], LogOf(db, id)).None?
    ensures WasConfirmed(seen, id) && Recorded(seen, id, ScannedTag(db.ops[id], LogOf(db, id)))
  {
    var op := db.ops[id];
    var log := LogOf(db, id);
    if TrimSpace(op.scannedRfid) != "" {
      assert op.scannedRfid != "" by { assert TrimSpace("") == ""; }
      assert Carried(seen, id, op.scannedRfid);
      var data: TagData :| (id, data) in seen && op.scannedRfid in {data.scannedRfid, data.uid, data.rfidTag};
    } else {
      LatestIsLogged(log);
      var i :| 0 <= i < |log| && log[i].etype == EvRfidConfirmed && log[i].data == LatestRfid(log).value;
      assert (id, log[i].data) in seen;
      assert Carried(seen, id, AnyTag(log[i].data));
    }
  }

  /** The comparison is never skipped on a commit: a missing key row would roll the update of it back. */
  lemma CommittedTagFits(db: Db, after: Db, id: Id, now: Time)
    requires Active(db, id) && db.ops[id].keyId != BLANK && CompleteReturn(db, id, now) == Commit(after)
    ensures RfidVerdict(db, db.ops[id], LogOf(db, id)).None?
    ensures TagFits(db, db.ops[id].keyId, ScannedTag(db.ops[id], LogOf(db, id)))
  {
  }

  // ----- steps that leave tags alone -------------------------------------------------------

  /** No active operation got a tag, no borrow was completed. */
  ghost predicate TagQuiet(db: Db, after: Db) {
    && (forall o | Active(after, o) ::
          after.ops[o].scannedRfid == "" || (Active(db, o) && after.ops[o].scannedRfid == db.ops[o].scannedRfid))
    && (forall b | b in after.borrows && after.borrows[b].status == Completed ::
         b in db.borrows && after.borrows[b] == db.borrows[b])
  }

  /** What PassedGate relies on stays: successful returns, key tags. */
  ghost predicate GateStays(db: Db, after: Db) {
    && (forall o | o in db.ops && db.ops[o].status == OpSuccess ::
          o in after.ops && SameTask(db.ops[o], after.ops[o]) && after.ops[o].status == OpSuccess)
    && (forall k | k in db.keys :: k in after.keys && after.keys[k].rfidTag == db.keys[k].rfidTag)
  }

  lemma MoveGateStays(db: Db, after: Db)
    requires Moved(db, after)
    ensures GateStays(db, after)
  {
    if OnlyTouched(db, after) || OnlySeen(db, after) || OnlyReserves(db, after) {
    } else if id :| Began(db, after, id) {
      StartGateStays(db, after, id);
    } else {
      var id :| Finished(db, after, id);
      EndGateStays(db, after, id);
    }
  }

  lemma StartGateStays(db: Db, after: Db, id: Id)
    requires Starts(db, after, id)
    ensures GateStays(db, after)
  {
  }

  lemma EndGateStays(db: Db, after: Db, id: Id)
    requires Ends(db, after, id)
    ensures GateStays(db, after)
  {
    assert Linked(db, db.ops[id]);
  }

  lemma GatedStays(db: Db, after: Db, seen: set<(Id, TagData)>, b: Id)
    requires CompletedGated(db, seen) && GateStays(db, after)
    requires b in db.borrows && b in after.borrows && after.borrows[b] == db.borrows[b]
             && db.borrows[b].status == Completed
    ensures exists o :: PassedGate(after, seen, b, o)
  {
    var o :| PassedGate(db, seen, b, o);
    assert PassedGate(after, seen, b, o);
  }

  lemma QuietGated(db: Db, after: Db, seen: set<(Id, TagData)>)
    requires CompletedGated(db, seen) && GateStays(db, after) && TagQuiet(db, after)
    ensures CompletedGated(after, seen)
  {
    forall b | b in after.borrows && after.borrows[b].status == Completed
      ensures exists o :: PassedGate(after, seen, b, o)
    {
      GatedStays(db, after, seen, b);
    }
  }

  lemma QuietCarried(db: Db, after: Db, seen: set<(Id, TagData)>)
    requires TagsCarried(db, seen) && LogMoved(db, after, false) && db.logs.Keys <= db.ops.Keys
    requires forall o | Active(after, o) ::
               after.ops[o].scannedRfid == "" || (Active(db, o) && after.ops[o].scannedRfid == db.ops[o].scannedRfid)
    ensures TagsCarried(after, seen)
  {
    forall o, i | o in after.ops && 0 <= i < |LogOf(after, o)| && LogOf(after, o)[i].etype == EvRfidConfirmed
      ensures (o, LogOf(after, o)[i].data) in seen
    {
      OldConfirmation(db, after, o, i);
    }
  }

  /** A quiet step adds no confirmation to any log. */
  lemma OldConfirmation(db: Db, after: Db, o: Id, i: nat)
    requires LogMoved(db, after, false) && db.logs.Keys <= db.ops.Keys
    requires o in after.ops && i < |LogOf(after, o)| && LogOf(after, o)[i].etype == EvRfidConfirmed
    ensures o in db.ops && i < |LogOf(db, o)| && LogOf(db, o)[i] == LogOf(after, o)[i]
  {
    if Quiet(db, after) {
    } else if id, etype, data, at :| Logged(db, after, id, etype, data, at) && etype != EvRfidConfirmed {
      OldInLogged(db, after, id, etype, data, at, o, i);
    } else {
      var id, at :| Opened(db, after, id, at);
      OldInOpened(db, after, id, at, o, i);
    }
  }

  lemma OldInLogged(db: Db, after: Db, id: Id, etype: EventType, data: TagData, at: Time, o: Id, i: nat)
    requires Logged(db, after, id, etype, data, at) && etype != EvRfidConfirmed
    requires o in after.ops && i < |LogOf(after, o)| && LogOf(after, o)[i].etype == EvRfidConfirmed
    ensures o in db.ops && i < |LogOf(db, o)| && LogOf(db, o)[i] == LogOf(after, o)[i]
  {
  }

  lemma OldInOpened(db: Db, after: Db, id: Id, at: Time, o: Id, i: nat)
    requires Opened(db, after, id, at) && db.logs.Keys <= db.ops.Keys
    requires o in after.ops && i < |LogOf(after, o)| && LogOf(after, o)[i].etype == EvRfidConfirmed
    ensures o in db.ops && i < |LogOf(db, o)| && LogOf(db, o)[i] == LogOf(after, o)[i]
  {
    assert LogOf(db, id) == [];
  }

  lemma BeganTagQuiet(db: Db, after: Db, id: Id)
    requires Began(db, after, id)
    ensures TagQuiet(db, after)
  {
    assert Starts(db, after, id);
    forall b | b in after.borrows && after.borrows[b].status == Completed
      ensures b in db.borrows && after.borrows[b] == db.borrows[b]
    {
      assert Linked(after, after.ops[id]);
    }
  }

  lemma EndedTagQuiet(db: Db, after: Db, id: Id)
    requires Abandons(db, after, id) || PicksUp(db, after, id)
    ensures TagQuiet(db, after)
  {
  }

  /** Steps other than device reports leave tags alone. */
  lemma StepTagQuiet(db: Db, after: Db, step: Step)
    requires Coupled(db) && !step.Report? && after == After(db, step)
    ensures TagQuiet(db, after)
  {
    match step
    case AskPickup(q) => AskPickupTagQuiet(db, after, q);
    case AskReturn(q) => AskReturnTagQuiet(db, after, q);
    case AskDispense(q) => AskDispenseTagQuiet(db, after, q);
    case _ => OtherTagQuiet(db, after, step);
  }

  lemma OtherTagQuiet(db: Db, after: Db, step: Step)
    requires Coupled(db) && !step.Report? && !step.AskPickup? && !step.AskReturn? && !step.AskDispense?
    requires after == After(db, step)
    ensures TagQuiet(db, after)
  {
    match step
    case Begin(op, now) => BeginTagQuiet(db, after, op, now);
    case DispatchFails(op, message, now) =>
      AbandonTagQuiet(db, after, op, Fails("DEVICE_COMMAND_FAILED", message), now);
    case TimeoutOp(op, now) => AbandonTagQuiet(db, after, op, TimesOut, now);
    case CancelOp(op, now) => AbandonTagQuiet(db, after, op, IsCancelled, now);
    case _ => RowsTagQuiet(db, after, step);
  }

  lemma RowsTagQuiet(db: Db, after: Db, step: Step)
    requires step.SetDevice? || step.SetUser? || step.SeeSlot? || IsReservationStep(step)
    requires after == After(db, step)
    ensures TagQuiet(db, after)
  {
    if IsReservationStep(step) {
      ReservationRows(db, after, step);
    }
    assert after.ops == db.ops && after.borrows == db.borrows;
    SameRowsTagQuiet(db, after);
  }

  lemma SameRowsTagQuiet(db: Db, after: Db)
    requires after.ops == db.ops && after.borrows == db.borrows
    ensures TagQuiet(db, after)
  {
  }

  lemma AskPickupTagQuiet(db: Db, after: Db, q: PickupRequest)
    requires NoBlankRows(db) && after == StartPickup(db, q).db
    ensures TagQuiet(db, after)
  {
    AskPickupMoves(db, after, q);
    if after != db {
      BeganTagQuiet(db, after, q.newOp);
    }
  }

  lemma AskReturnTagQuiet(db: Db, after: Db, q: ReturnRequest)
    requires NoBlankRows(db) && after == StartReturn(db, q).db
    ensures TagQuiet(db, after)
  {
    AskReturnMoves(db, after, q);
    if after != db {
      BeganTagQuiet(db, after, q.newOp);
    }
  }

  lemma AskDispenseTagQuiet(db: Db, after: Db, q: DispenseRequest)
    requires NoBlankRows(db) && after == DirectDispense(db, q).db
    ensures TagQuiet(db, after)
  {
    AskDispenseMoves(db, after, q);
    if after != db {
      BeganTagQuiet(db, after, q.newOp);
    }
  }

  lemma BeginTagQuiet(db: Db, after: Db, id: Id, now: Time)
    requires after == Applied(db, BeginExecution(db, id, now))
    ensures TagQuiet(db, after)
  {
    if BeginExecution(db, id, now).Rollback? {
      assert after == db;
    }
  }

  lemma AbandonTagQuiet(db: Db, after: Db, id: Id, how: Ending, now: Time)
    requires Coupled(db) && after == Applied(db, Abandon(db, id, how, now))
    ensures TagQuiet(db, after)
  {
    AbandonMoves(db, after, id, how, now);
    if after != db {
      EndedTagQuiet(db, after, id);
    }
  }

  // ----- device reports -----------------------------------------------------------------------

  /** What a handled confirmation (or any other recorded event) puts on the operation and in its log. */
  lemma RecordCarried(db: Db, after: Db, ev: DeviceEvent, stored: bool, seen: set<(Id, TagData)>)
    requires TagsCarried(db, seen) && RecordEvent(db, ev, stored) == Commit(after)
    requires ev.etype == EvRfidConfirmed ==> (ev.op, ev.data) in seen
    ensures TagsCarried(after, seen)
  {
    forall o | Active(after, o) ensures after.ops[o].scannedRfid == "" || Carried(seen, o, after.ops[o].scannedRfid) {
      RecordedTag(db, after, ev, stored, o);
      assert Active(db, o);
      if after.ops[o].scannedRfid != db.ops[o].scannedRfid {
        assert Carried(seen, o, after.ops[o].scannedRfid);
      }
    }
    RecordedLog(db, after, ev, stored);
  }

  lemma RecordedTag(db: Db, after: Db, ev: DeviceEvent, stored: bool, o: Id)
    requires RecordEvent(db, ev, stored) == Commit(after) && o in after.ops
    ensures o in db.ops && after.ops[o].status == db.ops[o].status
    ensures after.ops[o].scannedRfid == db.ops[o].scannedRfid
            || (o == ev.op && ev.etype == EvRfidConfirmed
                 && after.ops[o].scannedRfid in {ev.data.scannedRfid, ev.data.uid})
  {
    var tagged := Tagged(db, ev, stored);
    assert tagged.ops.Keys == db.ops.Keys;
    if Active(tagged, ev.op) && EventKey(ev.deviceId, ev.msgId) !in tagged.eventKeys {
      assert after.ops[o].scannedRfid == tagged.ops[o].scannedRfid;
    } else {
      assert after == tagged;
    }
  }

  lemma RecordedLog(db: Db, after: Db, ev: DeviceEvent, stored: bool)
    requires RecordEvent(db, ev, stored) == Commit(after)
    ensures after.ops.Keys == db.ops.Keys && after.borrows == db.borrows
    ensures forall o | o != ev.op :: LogOf(after, o) == LogOf(db, o)
    ensures LogOf(after, ev.op) == LogOf(db, ev.op)
            || LogOf(after, ev.op) == WithEvent(LogOf(db, ev.op), ev.etype, ev.data, ev.at)
  {
    var tagged := Tagged(db, ev, stored);
    if Active(tagged, ev.op) && EventKey(ev.deviceId, ev.msgId) !in tagged.eventKeys {
    } else {
      assert after == tagged;
    }
  }

  /** A committed return completes one borrow, through the gate. */
  lemma ReturnGated(db: Db, after: Db, id: Id, now: Time, seen: set<(Id, TagData)>)
    requires Coupled(db) && TagsCarried(db, seen) && CompletedGated(db, seen)
    requires Active(db, id) && CompleteReturn(db, id, now) == Commit(after)
    ensures CompletedGated(after, seen)
  {
    assert Linked(db, db.ops[id]);
    ReturnShape(db, after, id, now);
    EndGateStays(db, after, id);
    CommittedTagFits(db, after, id, now);
    VerdictGates(db, seen, id);
    ReturnRecords(db, after, id, now);
    forall b | b in after.borrows && after.borrows[b].status == Completed
      ensures exists o :: PassedGate(after, seen, b, o)
    {
      if b == db.ops[id].borrowId {
        assert PassedGate(after, seen, b, id);
      } else {
        GatedStays(db, after, seen, b);
      }
    }
  }

  lemma ReturnRecords(db: Db, after: Db, id: Id, now: Time)
    requires Active(db, id) && db.ops[id].borrowId in db.borrows && CompleteReturn(db, id, now) == Commit(after)
    ensures after.borrows[db.ops[id].borrowId].rfidVerified
    ensures after.borrows[db.ops[id].borrowId].scannedRfid == ScannedTag(db.ops[id], LogOf(db, id))
    ensures forall o | Active(after, o) :: Active(db, o) && after.ops[o].scannedRfid == db.ops[o].scannedRfid
  {
  }

  lemma SuccessGated(db: Db, after: Db, ev: DeviceEvent, seen: set<(Id, TagData)>)
    requires Coupled(db) && TagsCarried(db, seen) && CompletedGated(db, seen) && db.logs.Keys <= db.ops.Keys
    requires ev.op in db.ops
    requires after == Applied(db, if db.ops[ev.op].action == Pickup then CompletePickup(db, ev.op, ev.at)
                                  else CompleteReturn(db, ev.op, ev.at))
    ensures TagsCarried(after, seen) && CompletedGated(after, seen)
  {
    if db.ops[ev.op].action == Pickup {
      PickupMoves(db, after, ev.op, ev.at);
      PickupLogs(db, after, ev.op, ev.at);
      if after != db {
        EndedTagQuiet(db, after, ev.op);
        assert Finished(db, after, ev.op);
        QuietKeeps(db, after, seen);
      }
    } else if Active(db, ev.op) && CompleteReturn(db, ev.op, ev.at).Commit? {
      assert Linked(db, db.ops[ev.op]);
      ReturnGated(db, after, ev.op, ev.at, seen);
      ReturnLogs(db, after, ev.op, ev.at);
      ReturnRecords(db, after, ev.op, ev.at);
      QuietCarried(db, after, seen);
    } else {
      ReturnElse(db, after, ev.op, ev.at);
    }
  }

  lemma QuietKeeps(db: Db, after: Db, seen: set<(Id, TagData)>)
    requires TagsCarried(db, seen) && CompletedGated(db, seen) && db.logs.Keys <= db.ops.Keys
    requires Moved(db, after) && TagQuiet(db, after) && LogMoved(db, after, false)
    ensures TagsCarried(after, seen) && CompletedGated(after, seen)
  {
    MoveGateStays(db, after);
    QuietGated(db, after, seen);
    QuietCarried(db, after, seen);
  }

  lemma ReportGated(db: Db, after: Db, ev: DeviceEvent, stored: bool, seen: set<(Id, TagData)>)
    requires Coupled(db) && TagsCarried(db, seen) && CompletedGated(db, seen) && db.logs.Keys <= db.ops.Keys
    requires OnDeviceEvent(db, ev, stored) == Commit(after)
    requires ev.etype == EvRfidConfirmed ==> (ev.op, ev.data) in seen
    ensures TagsCarried(after, seen) && CompletedGated(after, seen)
  {
    if ReportsSuccess(ev.etype) {
      SuccessGated(db, after, ev, seen);
    } else if ReportsFailure(ev.etype) {
      FailureGated(db, after, ev, seen);
    } else {
      RecordGated(db, after, ev, stored, seen);
    }
  }

  lemma FailureGated(db: Db, after: Db, ev: DeviceEvent, seen: set<(Id, TagData)>)
    requires Coupled(db) && TagsCarried(db, seen) && CompletedGated(db, seen) && db.logs.Keys <= db.ops.Keys
    requires after == Applied(db, Fail(db, ev.op, ev.code, ev.message, ev.at))
    ensures TagsCarried(after, seen) && CompletedGated(after, seen)
  {
    AbandonMoves(db, after, ev.op, Fails(ev.code, ev.message), ev.at);
    AbandonLogs(db, after, ev.op, Fails(ev.code, ev.message), ev.at);
    if after != db {
      EndedTagQuiet(db, after, ev.op);
      assert Finished(db, after, ev.op);
      QuietKeeps(db, after, seen);
    }
  }

  lemma RecordGated(db: Db, after: Db, ev: DeviceEvent, stored: bool, seen: set<(Id, TagData)>)
    requires TagsCarried(db, seen) && CompletedGated(db, seen)
    requires ev.op in db.ops && RecordEvent(db, ev, stored) == Commit(after)
    requires ev.etype == EvRfidConfirmed ==> (ev.op, ev.data) in seen
    ensures TagsCarried(after, seen) && CompletedGated(after, seen)
  {
    RecordOnly(db, after, ev, stored);
    RecordedLog(db, after, ev, stored);
    RecordCarried(db, after, ev, stored, seen);
    MoveGateStays(db, after);
    forall b | b in after.borrows && after.borrows[b].status == Completed
      ensures exists o :: PassedGate(after, seen, b, o)
    {
      GatedStays(db, after, seen, b);
    }
  }

  // ----- runs -------------------------------------------------------------------------------

  lemma MoreSeen(db: Db, seen: set<(Id, TagData)>, more: set<(Id, TagData)>)
    requires TagsCarried(db, seen) && CompletedGated(db, seen) && seen <= more
    ensures TagsCarried(db, more) && CompletedGated(db, more)
  {
    forall o | Active(db, o) && db.ops[o].scannedRfid != "" ensures Carried(more, o, db.ops[o].scannedRfid) {
      assert Carried(seen, o, db.ops[o].scannedRfid);
    }
    forall b | b in db.borrows && db.borrows[b].status == Completed ensures exists o :: PassedGate(db, more, b, o) {
      var o :| PassedGate(db, seen, b, o);
      if db.borrows[b].scannedRfid != "" {
        var raw: string :| Carried(seen, o, raw)
            && (db.borrows[b].scannedRfid == raw || db.borrows[b].scannedRfid == TrimSpace(raw));
        assert Carried(more, o, raw);
      }
      assert PassedGate(db, more, b, o);
    }
  }

  /**
   * In every reachable ledger, each completed borrow was completed by a return for which
   * an RFID confirmation was handled; the tag it records (if any) was carried by one, and
   * is the key's tag up to letter case if the key has one.
   */
  lemma {:induction false} RunGated(db: Db, steps: seq<Step>)
    requires Coupled(db) && TagsCarried(db, {}) && CompletedGated(db, {}) && LogsShaped(db)
    requires forall i | 0 <= i < |steps| :: FromGateway(steps[i])
    ensures TagsCarried(Exec(db, steps), Confirmations(db, steps))
    ensures CompletedGated(Exec(db, steps), Confirmations(db, steps))
  {
    if steps != [] {
      var early := steps[..|steps| - 1];
      var step := steps[|steps| - 1];
      RunGated(db, early);
      RunKeeps(db, early);
      RunShaped(db, early);
      MoreSeen(Exec(db, early), Confirmations(db, early), Confirmations(db, steps));
      StepGated(Exec(db, early), Exec(db, steps), step, Confirmations(db, steps));
    }
  }

  lemma StepGated(db: Db, after: Db, step: Step, seen: set<(Id, TagData)>)
    requires Coupled(db) && TagsCarried(db, seen) && CompletedGated(db, seen) && LogsShaped(db)
    requires FromGateway(step) && after == After(db, step)
    requires Confirming(step) && OnDeviceEvent(db, step.event, step.stored).Commit? ==>
             (step.event.op, step.event.data) in seen
    ensures TagsCarried(after, seen) && CompletedGated(after, seen)
  {
    if step.Report? {
      ReportStepGated(db, after, step.event, step.stored, seen);
    } else {
      QuietStep(db, after, step);
      QuietKeeps(db, after, seen);
    }
  }

  lemma ReportStepGated(db: Db, after: Db, ev: DeviceEvent, stored: bool, seen: set<(Id, TagData)>)
    requires Coupled(db) && TagsCarried(db, seen) && CompletedGated(db, seen) && LogsShaped(db)
    requires after == Applied(db, OnDeviceEvent(db, ev, stored))
    requires ev.etype == EvRfidConfirmed && OnDeviceEvent(db, ev, stored).Commit? ==> (ev.op, ev.data) in seen
    ensures TagsCarried(after, seen) && CompletedGated(after, seen)
  {
    if OnDeviceEvent(db, ev, stored).Commit? {
      ReportGated(db, after, ev, stored, seen);
    }
  }

  lemma QuietStep(db: Db, after: Db, step: Step)
    requires Coupled(db) && !step.Report? && after == After(db, step)
    ensures Moved(db, after) && TagQuiet(db, after) && LogMoved(db, after, false)
  {
    StepMoves(db, step);
    StepTagQuiet(db, after, step);
    StepLogs(db, after, step);
  }
}
