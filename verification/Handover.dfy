/**
 * Both ends together: a cancel that has the cabinet's consent, and the cabinet that hands the
 * key out all the same.
 */
module Handover {
  import opened LedgerTypes
  import opened OperationTx
  import opened Steps
  import opened Coupling
  import opened Moves
  import opened OneWinner
  import A = AbortProtocol
  import C = CommandQueue
  import E = EarlyConsent
  import opened Reachable
  import opened Scenario

  /** The server, and one of its cabinets. */
  datatype System = System(id: Id, server: A.Device, cabinet: C.Cabinet)

  datatype Act = Server(act: A.Act) | Cabinet(work: C.Act)

  predicate OfCabinet(s: System, op: Id) {
    op in s.server.db.ops && s.server.db.ops[op].deviceId == s.id
  }

  /** Some call has published an abort for the operation. */
  predicate AbortSent(d: A.Device, op: Id) {
    exists c | c in d.calls :: d.calls[c].op == op && !d.calls[c].phase.HasRead?
  }

  /**
   * Messages come from somewhere: the server hears of acknowledgements and successes that the
   * cabinet has published, the cabinet of commands that were dispatched and aborts that were sent.
   */
  predicate Possible(s: System, act: Act) {
    match act
    case Server(a) =>
      && (a.HandleAck? && a.event.deviceId == s.id && a.event.etype == EvAbortAck ==>
            a.event.op in s.cabinet.acknowledged)
      && (a.Otherwise? && a.step.Report? && a.step.event.deviceId == s.id && ReportsSuccess(a.step.event.etype) ==>
            a.step.event.op in s.cabinet.succeeded)
    case Cabinet(w) =>
      && (w.CommandArrives? ==> OfCabinet(s, w.op) && s.server.db.ops[w.op].sentAt.Some?)
      && (w.AbortArrives? ==> OfCabinet(s, w.op) && AbortSent(s.server, w.op))
  }

  function Next(s: System, act: Act): System {
    if !Possible(s, act) then s
    else match act
         case Server(a) => s.(server := A.Next(s.server, a))
         case Cabinet(w) => s.(cabinet := C.Next(s.cabinet, w))
  }

  function Run(s: System, acts: seq<Act>): System
    decreases |acts|
  {
    if acts == [] then s else Run(Next(s, acts[0]), acts[1..])
  }

  lemma {:induction false} RunConcat(s: System, a: seq<Act>, b: seq<Act>)
    ensures Run(s, a + b) == Run(Run(s, a), b)
    decreases |a|
  {
    if a == [] {
      assert a + b == b;
    } else {
      assert (a + b)[1..] == a[1..] + b;
      RunConcat(Next(s, a[0]), a[1..], b);
    }
  }

  // ----- what holds in every state ---------------------------------------------------------------

  ghost predicate Sane(s: System) {
    A.Sound(s.server) && Outcomes(s.server.db)
  }

  /** An act of the protocol takes the ledger nowhere or one step further. */
  lemma NextOutcomes(d: A.Device, next: A.Device, act: A.Act)
    requires A.Sound(d) && Outcomes(d.db) && next == A.Next(d, act)
    ensures Outcomes(next.db)
  {
    if A.Enabled(d, act) {
      if act.Otherwise? {
        StepMoves(d.db, act.step);
        MoveOutcomes(d.db, next.db);
      } else if act.HandleAck? {
        ReportOutcomes(d.db, next.db, act.event);
      } else if act.Write? {
        WriteOutcomes(d, next, act.call, act.now);
      }
    }
  }

  lemma ReportOutcomes(db: Db, after: Db, ev: DeviceEvent)
    requires Coupled(db) && Outcomes(db) && OnDeviceEvent(db, ev, true) == Commit(after)
    ensures Outcomes(after)
  {
    ReportMoves(db, after, ev, true);
    if after != db {
      MoveOutcomes(db, after);
    }
  }

  lemma AbandonOutcomes(db: Db, after: Db, id: Id, how: Ending, now: Time)
    requires Coupled(db) && Outcomes(db) && after == Applied(db, Abandon(db, id, how, now))
    ensures Outcomes(after)
  {
    AbandonMoves(db, after, id, how, now);
    if after != db {
      EndOutcomes(db, after, id);
    }
  }

  lemma WriteOutcomes(d: A.Device, next: A.Device, c: Id, now: Time)
    requires A.Sound(d) && Outcomes(d.db) && A.Enabled(d, A.Write(c, now)) && next.db == A.Written(d, c, now).db
    ensures Outcomes(next.db)
  {
    WrittenEnds(d, c, now);
    AbandonOutcomes(d.db, next.db, d.calls[c].op, if d.calls[c].sweeping then TimesOut else IsCancelled, now);
  }

  lemma WrittenEnds(d: A.Device, c: Id, now: Time)
    requires A.Enabled(d, A.Write(c, now))
    ensures A.Written(d, c, now).db
            == Applied(d.db, Abandon(d.db, d.calls[c].op, if d.calls[c].sweeping then TimesOut else IsCancelled, now))
  {
  }

  lemma NextSane(s: System, act: Act)
    requires Sane(s)
    ensures Sane(Next(s, act))
  {
    if Possible(s, act) && act.Server? {
      A.NextSound(s.server, Next(s, act).server, act.act);
      NextOutcomes(s.server, Next(s, act).server, act.act);
    }
  }

  lemma {:induction false} RunSane(s: System, acts: seq<Act>)
    requires Sane(s)
    ensures Sane(Run(s, acts))
    decreases |acts|
  {
    if acts != [] {
      NextSane(s, acts[0]);
      RunSane(Next(s, acts[0]), acts[1..]);
    }
  }

  /**
   * A cancelled pickup is never lent, whatever the cabinet has done with the key: its borrow
   * record is an exception that keeps no key out, and every success report for it is accepted
   * and changes nothing.
   */
  lemma CancelledNeverLent(s: System, acts: seq<Act>, op: Id, ev: DeviceEvent, stored: bool)
    requires Sane(s) && op in Run(s, acts).server.db.ops
    requires Run(s, acts).server.db.ops[op].status == OpCancelled && Run(s, acts).server.db.ops[op].action == Pickup
    ensures var db := Run(s, acts).server.db;
            && db.ops[op].borrowId in db.borrows && db.borrows[db.ops[op].borrowId].status == Exception
            && (forall k :: !KeepsOut(db, db.ops[op].borrowId, k))
            && (ev.op == op && ev.deviceId == db.ops[op].deviceId && ReportsSuccess(ev.etype) ==>
                  OnDeviceEvent(db, ev, stored) == Commit(db))
  {
    RunSane(s, acts);
    var db := Run(s, acts).server.db;
    assert Tells(db.ops[op].action, db.ops[op].status, db.borrows[db.ops[op].borrowId].status);
  }

  // ----- cancelled, and handed out ---------------------------------------------------------------------

  /** The call has cancelled the operation with consent, the key has been taken out, and nobody has it. */
  predicate HandedOutUnlent(s: System, c: Id, op: Id) {
    && A.CancelledBy(s.server, c, op) && s.server.calls[c].phase.why.Some?
    && op in s.cabinet.moved
    && op in s.server.db.ops && !IsOut(s.server.db, s.server.db.ops[op].keyId)
  }

  /** The command is not delivered (again). */
  predicate NoCommand(acts: seq<Act>, op: Id) {
    forall i | 0 <= i < |acts| :: acts[i] != Cabinet(C.CommandArrives(op))
  }

  /** The cabinet's share of a run. */
  function Share(s: System, acts: seq<Act>): seq<C.Act>
    decreases |acts|
  {
    if acts == [] then []
    else (if acts[0].Cabinet? && Possible(s, acts[0]) then [acts[0].work] else []) + Share(Next(s, acts[0]), acts[1..])
  }

  lemma {:induction false} ShareRuns(s: System, acts: seq<Act>, op: Id)
    requires NoCommand(acts, op)
    ensures Run(s, acts).cabinet == C.Run(s.cabinet, Share(s, acts)) && C.NotSent(Share(s, acts), op)
    decreases |acts|
  {
    if acts != [] {
      assert forall i | 0 <= i < |acts[1..]| :: acts[1..][i] == acts[i + 1];
      var rest := Share(Next(s, acts[0]), acts[1..]);
      ShareRuns(Next(s, acts[0]), acts[1..], op);
      if acts[0].Cabinet? && Possible(s, acts[0]) {
        assert ([acts[0].work] + rest)[1..] == rest;
      } else {
        assert [] + rest == rest;
      }
    }
  }

  /** The worker goes on by itself. */
  function Lifted(works: seq<C.Act>): seq<Act> {
    seq(|works|, i requires 0 <= i < |works| => Cabinet(works[i]))
  }

  lemma {:induction false} LiftedRuns(s: System, works: seq<C.Act>)
    requires C.OwnActs(works)
    ensures Run(s, Lifted(works)) == s.(cabinet := C.Run(s.cabinet, works))
    decreases |works|
  {
    if works != [] {
      assert Lifted(works)[1..] == Lifted(works[1..]);
      LiftedRuns(Next(s, Cabinet(works[0])), works[1..]);
    }
  }

  // ----- the server's share ---------------------------------------------------------------------------------

  /** A cancel that waits for the answer to its abort. */
  predicate Awaits(d: A.Device, c: Id) {
    && A.IsWaiting(d, c) && d.calls[c].phase.inbox.None? && !d.calls[c].sweeping
    && Active(d.db, d.calls[c].op) && d.db.ops[d.calls[c].op].action == Pickup
  }

  lemma AckComesIn(d: A.Device, next: A.Device, c: Id, a: Id, ev: DeviceEvent)
    requires Awaits(d, c) && a !in d.acks && d.calls[c].op in d.waiters && d.waiters[d.calls[c].op] == c
    requires ev.op == d.calls[c].op && ev.deviceId == d.db.ops[ev.op].deviceId && ev.etype == EvAbortAck
    requires next == A.Next(A.Next(d, A.HandleAck(a, ev)), A.LookUp(a))
    ensures Awaits(next, c) && next.calls == d.calls && next.db.keys == d.db.keys
    ensures a in next.acks && next.acks[a].ok && next.acks[a].signal == A.Found(c, d.clock + 1)
    ensures next.db.ops[ev.op].keyId == d.db.ops[ev.op].keyId
  {
    var one := A.Next(d, A.HandleAck(a, ev));
    AckRecorded(d.db, ev);
    assert one.db == OnDeviceEvent(d.db, ev, true).db && one.waiters == d.waiters;
    assert A.Enabled(one, A.LookUp(a));
  }

  lemma AckRecorded(db: Db, ev: DeviceEvent)
    requires Active(db, ev.op) && ev.deviceId == db.ops[ev.op].deviceId && ev.etype == EvAbortAck
    ensures var tx := OnDeviceEvent(db, ev, true);
            && tx.Commit? && tx.db.keys == db.keys && Active(tx.db, ev.op) && SameTask(db.ops[ev.op], tx.db.ops[ev.op])
  {
    assert Tagged(db, ev, true) == db;
    AppendRecords(db, ev.op, EventKey(ev.deviceId, ev.msgId), ev.etype, ev.data, ev.at);
  }

  lemma AppendRecords(db: Db, op: Id, key: EventKey, etype: EventType, data: TagData, at: Time)
    requires Active(db, op)
    ensures var tx := AppendEventIfActive(db, op, key, etype, data, at);
            && tx.Commit? && tx.db.keys == db.keys && Active(tx.db, op) && SameTask(db.ops[op], tx.db.ops[op])
  {
    AppendOnly(db, AppendEventIfActive(db, op, key, etype, data, at).db, op, key, etype, data, at);
  }

  lemma AckIsPassedOn(d: A.Device, next: A.Device, c: Id, a: Id)
    requires Awaits(d, c) && a in d.acks && d.acks[a].ok && d.acks[a].signal.Found? && d.acks[a].signal.call == c
    requires next == A.Next(A.Next(A.Next(d, A.Send(a)), A.Receive(c)), A.Leave(c))
    ensures next.db == d.db && c in next.calls && next.calls[c].op == d.calls[c].op && !next.calls[c].sweeping
    ensures next.calls[c].phase == A.Cleared(Some(A.Consent(d.calls[c].phase.since, a)))
  {
    var one := A.Next(d, A.Send(a));
    var two := A.Next(one, A.Receive(c));
    assert A.Enabled(one, A.Receive(c)) && A.Enabled(two, A.Leave(c));
  }

  lemma ClearedCommits(d: A.Device, next: A.Device, c: Id, now: Time)
    requires c in d.calls && d.calls[c].phase.Cleared? && d.calls[c].phase.consent.Some? && !d.calls[c].sweeping
    requires Active(d.db, d.calls[c].op) && next == A.Next(d, A.Write(c, now))
    ensures A.CancelledBy(next, c, d.calls[c].op) && next.calls[c].phase.why.Some? && next.db.keys == d.db.keys
    ensures d.calls[c].op in next.db.ops && next.db.ops[d.calls[c].op].keyId == d.db.ops[d.calls[c].op].keyId
  {
    var op := d.calls[c].op;
    assert Cancel(d.db, op, now) == Commit(next.db);
    A.CancelCancels(d.db, next.db, op, now);
    CancelSameKeys(d.db, next.db, op, now);
  }

  lemma CancelSameKeys(db: Db, after: Db, op: Id, now: Time)
    requires Cancel(db, op, now) == Commit(after)
    ensures after.keys == db.keys && after.ops[op].keyId == db.ops[op].keyId
  {
  }

  /** The acknowledgement comes in, is passed on, and the call commits. */
  function Consenting(c: Id, a: Id, ev: DeviceEvent, now: Time): seq<Act> {
    [Server(A.HandleAck(a, ev)), Server(A.LookUp(a))]
    + ([Server(A.Send(a)), Server(A.Receive(c))] + [Server(A.Leave(c)), Server(A.Write(c, now))])
  }

  lemma TwoServed(s: System, x: A.Act, y: A.Act, rest: seq<Act>)
    requires Possible(s, Server(x)) && !y.HandleAck? && !y.Otherwise?
    ensures Run(s, [Server(x), Server(y)] + rest) == Run(s.(server := A.Next(A.Next(s.server, x), y)), rest)
  {
    var acts := [Server(x), Server(y)] + rest;
    assert acts[1..] == [Server(y)] + rest && acts[1..][1..] == rest;
    var one := s.(server := A.Next(s.server, x));
    assert Next(s, Server(x)) == one && Possible(one, Server(y));
  }

  /** Only the acknowledgement depends on the cabinet. */
  lemma ConsentingRuns(s: System, c: Id, a: Id, ev: DeviceEvent, now: Time)
    requires ev.op in s.cabinet.acknowledged
    ensures var d := A.Next(A.Next(s.server, A.HandleAck(a, ev)), A.LookUp(a));
            var e := A.Next(A.Next(A.Next(d, A.Send(a)), A.Receive(c)), A.Leave(c));
            Run(s, Consenting(c, a, ev, now)) == s.(server := A.Next(e, A.Write(c, now)))
  {
    var last := [Server(A.Leave(c)), Server(A.Write(c, now))];
    var met := s.(server := A.Next(A.Next(s.server, A.HandleAck(a, ev)), A.LookUp(a)));
    var told := met.(server := A.Next(A.Next(met.server, A.Send(a)), A.Receive(c)));
    TwoServed(s, A.HandleAck(a, ev), A.LookUp(a), [Server(A.Send(a)), Server(A.Receive(c))] + last);
    TwoServed(met, A.Send(a), A.Receive(c), last);
    assert last == last + [];
    TwoServed(told, A.Leave(c), A.Write(c, now), []);
  }

  lemma ConsentedCancel(s: System, c: Id, a: Id, ev: DeviceEvent, now: Time)
    requires Sane(s) && Awaits(s.server, c) && a !in s.server.acks && ev.op in s.cabinet.acknowledged
    requires ev.op == s.server.calls[c].op && ev.deviceId == s.server.db.ops[ev.op].deviceId && ev.etype == EvAbortAck
    ensures var end := Run(s, Consenting(c, a, ev, now));
            && A.CancelledBy(end.server, c, ev.op) && end.server.calls[c].phase.why.Some? && end.cabinet == s.cabinet
            && end.server.db.keys == s.server.db.keys
            && ev.op in end.server.db.ops && end.server.db.ops[ev.op].keyId == s.server.db.ops[ev.op].keyId
  {
    ConsentingRuns(s, c, a, ev, now);
    var d := A.Next(A.Next(s.server, A.HandleAck(a, ev)), A.LookUp(a));
    OwnWaiter(s.server, c);
    AckComesIn(s.server, d, c, a, ev);
    var e := A.Next(A.Next(A.Next(d, A.Send(a)), A.Receive(c)), A.Leave(c));
    AckIsPassedOn(d, e, c, a);
    ClearedCommits(e, A.Next(e, A.Write(c, now)), c, now);
  }

  lemma OwnWaiter(d: A.Device, c: Id)
    requires A.Sound(d) && A.IsWaiting(d, c)
    ensures d.calls[c].op in d.waiters && d.waiters[d.calls[c].op] == c
  {
    assert A.IsInside(d, c);
  }

  // ----- exactly when --------------------------------------------------------------------------------------------

  /** The abort reaches the cabinet. */
  function Aborted(s: System, op: Id): System {
    s.(cabinet := C.Next(s.cabinet, C.AbortArrives(op)))
  }

  /** The key is out, or nothing can keep it from going out any more. */
  predicate TooLate(cabinet: C.Cabinet, op: Id) {
    op in cabinet.moved || op in cabinet.queue || cabinet.work == C.Looked(op, C.AtKey)
  }

  lemma InTimeIsKept(s: System, op: Id, acts: seq<Act>)
    requires !TooLate(s.cabinet, op) && NoCommand(acts, op)
    ensures op !in Run(Aborted(s, op), acts).cabinet.moved
  {
    var after := Aborted(s, op);
    ShareRuns(after, acts, op);
    C.AbortKeepsKeyIff(s.cabinet, op, op);
    assert C.Moves(C.Run(after.cabinet, Share(after, acts)), op) == C.Moves(after.cabinet, op) == 0;
  }

  /** What the worker still does. */
  lemma GoesOut(cabinet: C.Cabinet, op: Id) returns (works: seq<C.Act>)
    requires TooLate(cabinet, op)
    ensures C.OwnActs(works) && op in C.Run(cabinet, works).moved
  {
    if op in cabinet.moved {
      works := [];
    } else if op in cabinet.queue {
      works := C.WaitingSucceeds(cabinet, op);
    } else {
      works := [C.Senses(true)];
      C.PastLookMoves(cabinet, op);
    }
  }

  lemma LateGoesOut(s: System, c: Id, a: Id, ev: DeviceEvent, now: Time) returns (acts: seq<Act>)
    requires Sane(s) && Awaits(s.server, c) && a !in s.server.acks && ev.op == s.server.calls[c].op
    requires ev.deviceId == s.server.db.ops[ev.op].deviceId && ev.etype == EvAbortAck && TooLate(s.cabinet, ev.op)
    ensures NoCommand(acts, ev.op) && HandedOutUnlent(Run(Aborted(s, ev.op), acts), c, ev.op)
  {
    var after := Aborted(s, ev.op);
    var works := GoesOut(after.cabinet, ev.op);
    var out := GoneOut(after, works, ev.op);
    OutThenCancelled(out, c, a, ev, now);
    acts := Lifted(works) + Consenting(c, a, ev, now);
    RunConcat(after, Lifted(works), Consenting(c, a, ev, now));
    NoCommandIn(works, c, a, ev, now);
  }

  lemma GoneOut(after: System, works: seq<C.Act>, op: Id) returns (out: System)
    requires C.OwnActs(works) && op in C.Run(after.cabinet, works).moved && op in after.cabinet.acknowledged
    ensures out == Run(after, Lifted(works)) && out.server == after.server
    ensures op in out.cabinet.moved && op in out.cabinet.acknowledged
  {
    LiftedRuns(after, works);
    C.SendingsGrow(after.cabinet, works);
    out := after.(cabinet := C.Run(after.cabinet, works));
  }

  lemma NoCommandIn(works: seq<C.Act>, c: Id, a: Id, ev: DeviceEvent, now: Time)
    requires C.OwnActs(works)
    ensures NoCommand(Lifted(works) + Consenting(c, a, ev, now), ev.op)
  {
  }

  lemma OutThenCancelled(out: System, c: Id, a: Id, ev: DeviceEvent, now: Time)
    requires Sane(out) && Awaits(out.server, c) && a !in out.server.acks && ev.op == out.server.calls[c].op
    requires ev.deviceId == out.server.db.ops[ev.op].deviceId && ev.etype == EvAbortAck
    requires ev.op in out.cabinet.acknowledged && ev.op in out.cabinet.moved
    ensures HandedOutUnlent(Run(out, Consenting(c, a, ev, now)), c, ev.op)
  {
    ConsentedCancel(out, c, a, ev, now);
    NotOutYet(out.server.db, ev.op);
  }

  lemma LateRun(s: System, c: Id, a: Id) returns (acts: seq<Act>)
    requires Sane(s) && Awaits(s.server, c) && a !in s.server.acks && TooLate(s.cabinet, s.server.calls[c].op)
    ensures NoCommand(acts, s.server.calls[c].op)
    ensures HandedOutUnlent(Run(Aborted(s, s.server.calls[c].op), acts), c, s.server.calls[c].op)
  {
    var op := s.server.calls[c].op;
    acts := LateGoesOut(s, c, a, DeviceEvent(op, s.server.db.ops[op].deviceId, 1, EvAbortAck, NO_TAG, 0, "", ""), 0);
  }

  lemma NotOutYet(db: Db, op: Id)
    requires Coupled(db) && Active(db, op) && db.ops[op].action == Pickup
    ensures !IsOut(db, db.ops[op].keyId)
  {
    assert Linked(db, db.ops[op]);
  }

  /**
   * An abort reaches the cabinet for a cancel that waits for its answer. The system can end up
   * with the operation cancelled with consent, the key taken out and nobody counted as having
   * it, iff as the abort arrives the key is out already, or the command still waits, or the
   * worker is past a look at the flag with only the slot left to read.
   */
  lemma HandedOutUnlentIff(s: System, c: Id, a: Id)
    requires Sane(s) && Awaits(s.server, c) && OfCabinet(s, s.server.calls[c].op) && a !in s.server.acks
    ensures Next(s, Cabinet(C.AbortArrives(s.server.calls[c].op))) == Aborted(s, s.server.calls[c].op)
    ensures var op := s.server.calls[c].op;
            (exists acts :: NoCommand(acts, op) && HandedOutUnlent(Run(Aborted(s, op), acts), c, op))
            <==> TooLate(s.cabinet, op)
  {
    var op := s.server.calls[c].op;
    AbortReaches(s, c);
    if TooLate(s.cabinet, op) {
      var acts := LateRun(s, c, a);
    } else {
      InTimeNever(s, c, op);
    }
  }

  lemma AbortReaches(s: System, c: Id)
    requires A.IsWaiting(s.server, c) && OfCabinet(s, s.server.calls[c].op)
    ensures Next(s, Cabinet(C.AbortArrives(s.server.calls[c].op))) == Aborted(s, s.server.calls[c].op)
  {
    assert !s.server.calls[c].phase.HasRead?;
  }

  lemma InTimeNever(s: System, c: Id, op: Id)
    requires !TooLate(s.cabinet, op)
    ensures forall acts | NoCommand(acts, op) :: !HandedOutUnlent(Run(Aborted(s, op), acts), c, op)
  {
    forall acts | NoCommand(acts, op) ensures !HandedOutUnlent(Run(Aborted(s, op), acts), c, op) {
      InTimeIsKept(s, op, acts);
    }
  }

  // ----- an input ------------------------------------------------------------------------------------------------

  /** As commissioned, and powered on. */
  function Plant(): System {
    System(1, E.Commissioned(), C.PoweredOn())
  }

  /** An ordinary pickup is dispatched, its command waits, and its user cancels. */
  function CancelledWaiting(): seq<Act> {
    [Server(A.Otherwise(Reserve(RESERVE))), Server(A.Otherwise(AskPickup(PICKUP)))]
    + ([Server(A.Otherwise(Begin(1, 0)))] + ([Cabinet(C.CommandArrives(1))]
       + ([Server(A.Read(1, 1, false)), Server(A.Register(1))] + [])))
  }

  lemma OneMore(s: System, act: Act, rest: seq<Act>)
    ensures Run(s, [act] + rest) == Run(Next(s, act), rest)
  {
    assert ([act] + rest)[1..] == rest;
  }

  lemma LedgerNext(s: System, step: Step)
    requires !step.Report? && !step.CancelOp? && !step.TimeoutOp?
    ensures Next(s, Server(A.Otherwise(step)))
            == s.(server := s.server.(db := After(s.server.db, step), clock := s.server.clock + 1))
  {
    E.LedgerActs(s.server, step);
  }

  /** The pickup is running. */
  function UnderWay(): System {
    System(1, A.Device(Running(), map[], map[], map[], 3), C.PoweredOn())
  }

  lemma GetsUnderWay(rest: seq<Act>)
    ensures Run(Plant(), [Server(A.Otherwise(Reserve(RESERVE))), Server(A.Otherwise(AskPickup(PICKUP)))]
                         + ([Server(A.Otherwise(Begin(1, 0)))] + rest)) == Run(UnderWay(), rest)
  {
    var last := [Server(A.Otherwise(Begin(1, 0)))] + rest;
    assert [Server(A.Otherwise(Reserve(RESERVE))), Server(A.Otherwise(AskPickup(PICKUP)))] + last
        == [Server(A.Otherwise(Reserve(RESERVE)))] + ([Server(A.Otherwise(AskPickup(PICKUP)))] + last);
    OneMore(Plant(), Server(A.Otherwise(Reserve(RESERVE))), [Server(A.Otherwise(AskPickup(PICKUP)))] + last);
    LedgerNext(Plant(), Reserve(RESERVE));
    ReserveGranted();
    var reserved := System(1, A.Device(Reserved(), map[], map[], map[], 1), C.PoweredOn());
    OneMore(reserved, Server(A.Otherwise(AskPickup(PICKUP))), last);
    LedgerNext(reserved, AskPickup(PICKUP));
    AfterGranted();
    var requested := System(1, A.Device(Requested(), map[], map[], map[], 2), C.PoweredOn());
    OneMore(requested, Server(A.Otherwise(Begin(1, 0))), rest);
    LedgerNext(requested, Begin(1, 0));
    AfterBegun();
  }

  /** The cancel waits, and so does the command. */
  function BothWaiting(): System {
    System(1, A.Device(Running(), map[1 := 1], map[1 := A.Call(1, false, OpExecuting, A.Waiting(4, None))], map[], 5),
           C.PoweredOn().(queue := [1]))
  }

  lemma GetsWaiting()
    ensures Run(UnderWay(), [Cabinet(C.CommandArrives(1))]
            + ([Server(A.Read(1, 1, false)), Server(A.Register(1))] + []))
         == BothWaiting()
  {
    OneMore(UnderWay(), Cabinet(C.CommandArrives(1)), [Server(A.Read(1, 1, false)), Server(A.Register(1))] + []);
    var queued := UnderWay().(cabinet := C.PoweredOn().(queue := [1]));
    assert Next(UnderWay(), Cabinet(C.CommandArrives(1))) == queued;
    TwoServed(queued, A.Read(1, 1, false), A.Register(1), []);
    Reads(queued.server);
  }

  lemma Reads(d: A.Device)
    requires d == A.Device(Running(), map[], map[], map[], 3)
    ensures A.Next(A.Next(d, A.Read(1, 1, false)), A.Register(1)) == BothWaiting().server
  {
    var one := A.Device(Running(), map[], map[1 := A.Call(1, false, OpExecuting, A.HasRead)], map[], 4);
    assert A.Next(d, A.Read(1, 1, false)) == one;
    assert A.Enabled(one, A.Register(1));
  }

  lemma PlantIsSane()
    ensures Sane(Plant())
  {
    E.CommissionedIsSound();
    StartIsFresh();
    FreshIsSound(Start());
  }

  /** It happens: a run from commissioning on ends with a cancelled pickup whose key is gone, and nobody has it. */
  lemma HandedOutHappens()
    ensures exists acts :: HandedOutUnlent(Run(Plant(), acts), 1, 1)
  {
    var acts := HandedOutRun();
  }

  lemma HandedOutRun() returns (acts: seq<Act>)
    ensures HandedOutUnlent(Run(Plant(), acts), 1, 1)
  {
    WaitingIsReached();
    WaitingIsReady(BothWaiting());
    var rest := LateRun(BothWaiting(), 1, 1);
    OneMore(BothWaiting(), Cabinet(C.AbortArrives(1)), rest);
    acts := CancelledWaiting() + ([Cabinet(C.AbortArrives(1))] + rest);
    RunConcat(Plant(), CancelledWaiting(), [Cabinet(C.AbortArrives(1))] + rest);
  }

  lemma WaitingIsReached()
    ensures Run(Plant(), CancelledWaiting()) == BothWaiting() && Sane(BothWaiting())
  {
    GetsUnderWay([Cabinet(C.CommandArrives(1))] + ([Server(A.Read(1, 1, false)), Server(A.Register(1))] + []));
    GetsWaiting();
    PlantIsSane();
    RunSane(Plant(), CancelledWaiting());
  }

  lemma WaitingIsReady(s: System)
    requires s == BothWaiting()
    ensures Awaits(s.server, 1) && 1 !in s.server.acks && s.server.calls[1].op == 1 && TooLate(s.cabinet, 1)
    ensures Next(s, Cabinet(C.AbortArrives(1))) == Aborted(s, 1)
  {
    assert s.server.calls[1].op == 1 && !s.server.calls[1].phase.HasRead?;
  }
}
