/**
 * The timeout sweep: while it waits for cabinets to acknowledge aborts, requests, reports
 * and other calls go on, and still nothing it found overdue stays active.
 */
module TimeoutSweep {
  import opened LedgerTypes
  import opened OperationTx
  import opened Services
  import opened Steps
  import opened Moves
  import opened StartRules

  /** COALESCE(sent_at, initiated_at, created_at). */
  function StartTime(op: Operation): Time {
    if op.sentAt.Some? then op.sentAt.value
    else if op.startedAt.Some? then op.startedAt.value
    else op.createdAt
  }

  /** FindExpired selects the operation. */
  predicate Stale(db: Db, o: Id, cutoff: Time) {
    Active(db, o) && StartTime(db.ops[o]) < cutoff
  }

  function StaleIds(db: Db, cutoff: Time): set<Id> {
    set o | o in db.ops && Stale(db, o, cutoff)
  }

  /** When it was sent, or else started, or else created, is before the cut-off. */
  predicate BeganBefore(op: Operation, cutoff: Time) {
    match (op.sentAt, op.startedAt)
    case (Some(sent), _) => sent < cutoff
    case (None, Some(started)) => started < cutoff
    case (None, None) => op.createdAt < cutoff
  }

  lemma StaleIff(db: Db, cutoff: Time)
    ensures forall o :: o in StaleIds(db, cutoff)
                        <==> o in db.ops && Unfinished(db.ops[o]) && BeganBefore(db.ops[o], cutoff)
  {
    forall o | o in db.ops
      ensures Stale(db, o, cutoff) <==> Unfinished(db.ops[o]) && BeganBefore(db.ops[o], cutoff)
    {
      TwoHalves(db.ops[o].status);
    }
  }

  /** The moment a step stamps on the operations it starts. */
  predicate StampedFrom(step: Step, from: Time) {
    match step
    case AskPickup(q) => from <= q.now
    case AskReturn(q) => from <= q.now
    case AskDispense(q) => from <= q.now
    case Begin(_, now) => from <= now
    case _ => true
  }

  /** No operation becomes stale: what is stale after was stale before. */
  ghost predicate NoneNewlyStale(db: Db, after: Db, cutoff: Time) {
    forall o | Stale(after, o, cutoff) :: Stale(db, o, cutoff)
  }

  lemma EndNotStale(db: Db, after: Db, id: Id, cutoff: Time)
    requires id in after.ops && IsTerminal(after.ops[id].status)
    requires forall o | o in after.ops && o != id :: o in db.ops && after.ops[o] == db.ops[o]
    ensures NoneNewlyStale(db, after, cutoff)
  {
  }

  lemma AbandonNotStale(db: Db, after: Db, id: Id, how: Ending, now: Time, cutoff: Time)
    requires after == Applied(db, Abandon(db, id, how, now))
    ensures NoneNewlyStale(db, after, cutoff) && !Active(after, id)
  {
    if Abandon(db, id, how, now).Commit? && Active(db, id) {
      EndNotStale(db, after, id, cutoff);
    } else {
      assert after == db;
    }
  }

  lemma PickupNotStale(db: Db, after: Db, id: Id, now: Time, cutoff: Time)
    requires after == Applied(db, CompletePickup(db, id, now))
    ensures NoneNewlyStale(db, after, cutoff)
  {
    if Active(db, id) && CompletePickup(db, id, now).Commit? {
      EndNotStale(db, after, id, cutoff);
    } else {
      PickupElse(db, after, id, now);
    }
  }

  lemma ReturnNotStale(db: Db, after: Db, id: Id, now: Time, cutoff: Time)
    requires after == Applied(db, CompleteReturn(db, id, now))
    ensures NoneNewlyStale(db, after, cutoff)
  {
    if Active(db, id) && CompleteReturn(db, id, now).Commit? {
      EndNotStale(db, after, id, cutoff);
    } else {
      ReturnElse(db, after, id, now);
    }
  }

  /** Recording an event moves the acknowledgement stamp, which the sweep does not look at. */
  lemma RecordNotStale(db: Db, after: Db, ev: DeviceEvent, stored: bool, cutoff: Time)
    requires after == Applied(db, RecordEvent(db, ev, stored))
    ensures NoneNewlyStale(db, after, cutoff)
  {
    var tagged := Tagged(db, ev, stored);
    assert NoneNewlyStale(db, tagged, cutoff);
    if Active(db, ev.op) && EventKey(ev.deviceId, ev.msgId) !in db.eventKeys {
      assert NoneNewlyStale(tagged, after, cutoff);
    } else {
      assert after == tagged || after == db;
    }
  }

  lemma ReportNotStale(db: Db, after: Db, ev: DeviceEvent, stored: bool, cutoff: Time)
    requires after == Applied(db, OnDeviceEvent(db, ev, stored))
    ensures NoneNewlyStale(db, after, cutoff)
  {
    if ev.op !in db.ops || db.ops[ev.op].deviceId != ev.deviceId {
      assert after == db;
    } else if ReportsSuccess(ev.etype) {
      if db.ops[ev.op].action == Pickup {
        PickupNotStale(db, after, ev.op, ev.at, cutoff);
      } else {
        ReturnNotStale(db, after, ev.op, ev.at, cutoff);
      }
    } else if ReportsFailure(ev.etype) {
      AbandonNotStale(db, after, ev.op, Fails(ev.code, ev.message), ev.at, cutoff);
    } else {
      RecordNotStale(db, after, ev, stored, cutoff);
    }
  }

  lemma InsertNotStale(db: Db, rows: Db, after: Db, id: Id, op: Operation, cutoff: Time)
    requires rows.ops == db.ops && InsertOp(rows, id, op) == Commit(after)
    requires cutoff <= StartTime(op)
    ensures NoneNewlyStale(db, after, cutoff)
  {
  }

  lemma AskPickupNotStale(db: Db, after: Db, q: PickupRequest, cutoff: Time)
    requires after == StartPickup(db, q).db && cutoff <= q.now
    ensures NoneNewlyStale(db, after, cutoff)
  {
    if after != db {
      InsertNotStale(db, db.(borrows := after.borrows), after, q.newOp, NewPickup(db, q).1, cutoff);
    }
  }

  lemma AskReturnNotStale(db: Db, after: Db, q: ReturnRequest, cutoff: Time)
    requires after == StartReturn(db, q).db && cutoff <= q.now
    ensures NoneNewlyStale(db, after, cutoff)
  {
    if after != db {
      InsertNotStale(db, db.(borrows := after.borrows), after, q.newOp, NewReturn(db, q), cutoff);
    }
  }

  lemma AskDispenseNotStale(db: Db, after: Db, q: DispenseRequest, cutoff: Time)
    requires after == DirectDispense(db, q).db && cutoff <= q.now
    ensures NoneNewlyStale(db, after, cutoff)
  {
    if after != db {
      InsertNotStale(db, db.(borrows := after.borrows), after, q.newOp, NewDispense(db, q).1, cutoff);
    }
  }

  lemma BeginNotStale(db: Db, after: Db, id: Id, now: Time, cutoff: Time)
    requires after == Applied(db, BeginExecution(db, id, now)) && cutoff <= now
    ensures NoneNewlyStale(db, after, cutoff)
  {
    if BeginExecution(db, id, now).Rollback? {
      assert after == db;
    }
  }

  lemma StepNotStale(db: Db, after: Db, step: Step, cutoff: Time)
    requires after == After(db, step) && StampedFrom(step, cutoff)
    ensures NoneNewlyStale(db, after, cutoff)
    ensures step.TimeoutOp? ==> !Active(after, step.op)
  {
    match step
    case AskPickup(q) => AskPickupNotStale(db, after, q, cutoff);
    case AskReturn(q) => AskReturnNotStale(db, after, q, cutoff);
    case AskDispense(q) => AskDispenseNotStale(db, after, q, cutoff);
    case Begin(op, now) => BeginNotStale(db, after, op, now, cutoff);
    case Report(ev, stored) => ReportNotStale(db, after, ev, stored, cutoff);
    case DispatchFails(op, message, now) =>
      AbandonNotStale(db, after, op, Fails("DEVICE_COMMAND_FAILED", message), now, cutoff);
    case TimeoutOp(op, now) => AbandonNotStale(db, after, op, TimesOut, now, cutoff);
    case CancelOp(op, now) => AbandonNotStale(db, after, op, IsCancelled, now, cutoff);
    case _ => RestNotStale(db, after, step, cutoff);
  }

  lemma RestNotStale(db: Db, after: Db, step: Step, cutoff: Time)
    requires step.SetDevice? || step.SetUser? || step.SeeSlot? || IsReservationStep(step)
    requires after == After(db, step)
    ensures NoneNewlyStale(db, after, cutoff)
  {
    if IsReservationStep(step) {
      ReservationRows(db, after, step);
    }
  }

  /** The clock of an active operation is never set back, by no step that is stamped with the time it is taken. */
  lemma StartNeverEarlier(db: Db, after: Db, step: Step, o: Id)
    requires after == After(db, step) && Active(db, o) && Active(after, o) && StampedFrom(step, StartTime(db.ops[o]))
    ensures StartTime(after.ops[o]) >= StartTime(db.ops[o])
  {
    var cutoff := StartTime(db.ops[o]);
    StepNotStale(db, after, step, cutoff);
    assert !Stale(db, o, cutoff);
  }

  // ----- runs ------------------------------------------------------------------------------

  /** The run times operation `o` out at some point. */
  predicate Sweeps(steps: seq<Step>, o: Id) {
    exists i | 0 <= i < |steps| :: steps[i].TimeoutOp? && steps[i].op == o
  }

  /** What is still stale after a run was stale before it, and the run did not time it out. */
  lemma {:induction false} StillStale(db: Db, steps: seq<Step>, o: Id, cutoff: Time)
    requires forall i | 0 <= i < |steps| :: StampedFrom(steps[i], cutoff)
    requires Stale(Exec(db, steps), o, cutoff)
    ensures Stale(db, o, cutoff) && !Sweeps(steps, o)
  {
    if steps != [] {
      var early := steps[..|steps| - 1];
      var last := steps[|steps| - 1];
      StepNotStale(Exec(db, early), Exec(db, steps), last, cutoff);
      StillStale(db, early, o, cutoff);
      forall i | 0 <= i < |steps| ensures !(steps[i].TimeoutOp? && steps[i].op == o) {
        if i < |steps| - 1 {
          assert early[i] == steps[i];
        }
      }
    }
  }

  lemma SweepsMore(sweep: seq<Step>, steps: seq<Step>, o: Id)
    requires Sweeps(sweep, o) && |sweep| <= |steps| && steps[..|sweep|] == sweep
    ensures Sweeps(steps, o)
  {
    var i :| 0 <= i < |sweep| && sweep[i].TimeoutOp? && sweep[i].op == o;
    assert steps[i] == steps[..|sweep|][i];
  }

  /**
   * A sweep is error-free if every operation it found is timed out before it ends. Whatever
   * happens in between, none it should have found is active at its end, or ever after.
   */
  lemma SweptForGood(db: Db, steps: seq<Step>, cutoff: Time)
    requires forall i | 0 <= i < |steps| :: StampedFrom(steps[i], cutoff)
    requires forall o | Stale(db, o, cutoff) :: Sweeps(steps, o)
    ensures StaleIds(Exec(db, steps), cutoff) == {}
  {
    forall o | o in Exec(db, steps).ops ensures !Stale(Exec(db, steps), o, cutoff) {
      if Stale(Exec(db, steps), o, cutoff) {
        StillStale(db, steps, o, cutoff);
      }
    }
  }

  // ----- sweeps on a clock --------------------------------------------------------------------

  /** A step and the moment it is taken. */
  datatype Timed = Timed(at: Time, step: Step)

  function Plain(run: seq<Timed>): seq<Step> {
    seq(|run|, i requires 0 <= i < |run| => run[i].step)
  }

  /**
   * Time does not run backwards, and a start is stored no later than `lag` after the services
   * took the time they stamp it with; a sweep may begin in between.
   */
  ghost predicate Clocked(run: seq<Timed>, lag: Time) {
    && (forall i, j | 0 <= i <= j < |run| :: run[i].at <= run[j].at)
    && (forall i | 0 <= i < |run| :: StampedFrom(run[i].step, run[i].at - lag))
  }

  function Max(a: Time, b: Time): Time {
    if a < b then b else a
  }

  /** A sweep that began before step `i` was over before step `j`. */
  ghost predicate Completed(db: Db, run: seq<Timed>, i: nat, j: nat, timeout: Time) {
    && i <= j <= |run| && i < |run|
    && forall o | Stale(Exec(db, Plain(run[..i])), o, run[i].at - timeout) :: Sweeps(Plain(run[i..j]), o)
  }

  /**
   * If at every moment some sweep has been completed that began at most `period` ago, no
   * operation is ever active for longer than `timeout + period`, unless it took longer than
   * `timeout` to be stored: then `lag + period` is the bound.
   */
  lemma NeverActiveTooLong(
    db: Db, run: seq<Timed>, i: nat, j: nat, k: nat, timeout: Time, lag: Time, period: Time, now: Time, o: Id)
    requires timeout > 0 && Clocked(run, lag) && Completed(db, run, i, j, timeout)
    requires j <= k <= |run| && now - run[i].at <= period
    requires Active(Exec(db, Plain(run[..k])), o)
    ensures now - StartTime(Exec(db, Plain(run[..k])).ops[o]) <= Max(timeout, lag) + period
  {
    var cutoff := run[i].at - Max(timeout, lag);
    var begun := Exec(db, Plain(run[..i]));
    var rest := Plain(run[i..k]);
    var sweep := Plain(run[i..j]);
    assert rest[..|sweep|] == sweep;
    assert Plain(run[..k]) == Plain(run[..i]) + rest;
    ExecConcat(db, Plain(run[..i]), rest);
    forall s | 0 <= s < |rest| ensures StampedFrom(rest[s], cutoff) {
      assert rest[s] == run[i + s].step && run[i].at <= run[i + s].at;
    }
    forall s | Stale(begun, s, cutoff) ensures Sweeps(rest, s) {
      assert Stale(begun, s, run[i].at - timeout);
      SweepsMore(sweep, rest, s);
    }
    SweptForGood(begun, rest, cutoff);
    assert o !in StaleIds(Exec(begun, rest), cutoff);
  }
}
