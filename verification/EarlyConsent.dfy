/**
 * Which acknowledgement clears a cancel: it is matched to the call after the call has
 * registered, but the cabinet may have sent it in answer to an earlier one.
 */
module EarlyConsent {
  import opened LedgerTypes
  import opened OperationTx
  import opened Services
  import opened Steps
  import opened AbortProtocol
  import opened Reachable
  import opened Scenario

  /** What a call has been cleared by, from the end of its wait on. */
  function ConsentOf(phase: Phase): Option<Consent> {
    match phase
    case Leaving(consent) => consent
    case Cleared(consent) => consent
    case Cancelled(why) => why
    case _ => None
  }

  /** If the call has been cleared, then by an acknowledgement the ledger handled after it registered. */
  predicate Timely(d: Device, c: Id) {
    c in d.calls && ConsentOf(d.calls[c].phase).Some? ==>
      var consent := ConsentOf(d.calls[c].phase).value;
      consent.ack in d.acks && d.acks[consent.ack].handledAt >= consent.since
  }

  /** A successful acknowledgement has been recorded for the operation, and not been passed on yet. */
  predicate AckOutstanding(d: Device, op: Id) {
    exists a | a in d.acks :: IsOutstanding(d, a, op)
  }

  predicate IsOutstanding(d: Device, a: Id, op: Id) {
    a in d.acks && d.acks[a].op == op && d.acks[a].ok && d.acks[a].signal.Pending?
  }

  /** The call is about to become the waiter for its operation. */
  predicate Registers(d: Device, c: Id) {
    Enabled(d, Register(c)) && d.calls[c].op !in d.waiters
  }

  function Registered(d: Device, c: Id): Device
    requires Registers(d, c)
  {
    d.(waiters := d.waiters[d.calls[c].op := c], calls := WithPhase(d, c, Waiting(d.clock, None)), clock := d.clock + 1)
  }

  lemma RegisterNext(d: Device, c: Id)
    requires Registers(d, c)
    ensures Next(d, Register(c)) == Registered(d, c)
  {
  }

  // ----- what stays known after the registration --------------------------------------------

  /** Acknowledgements keep their story, new ones are newer. */
  ghost predicate Remembers(start: Device, end: Device) {
    && start.clock <= end.clock
    && (forall a | a in start.acks ::
          && a in end.acks && end.acks[a].op == start.acks[a].op && end.acks[a].ok == start.acks[a].ok
          && (!start.acks[a].signal.Pending? ==> end.acks[a] == start.acks[a]))
    && (forall a | a in end.acks && a !in start.acks :: end.acks[a].handledAt >= start.clock)
  }

  /** The call is about its operation, and its wait began at `since`. */
  predicate WaitsSince(d: Device, c: Id, op: Id, since: nat) {
    && c in d.calls && d.calls[c].op == op && !d.calls[c].phase.HasRead?
    && (d.calls[c].phase.Waiting? ==> d.calls[c].phase.since == since)
    && (ConsentOf(d.calls[c].phase).Some? ==> ConsentOf(d.calls[c].phase).value.since == since)
  }

  lemma NextRemembers(start: Device, d: Device, act: Act)
    requires Remembers(start, d)
    ensures Remembers(start, Next(d, act))
  {
    if Enabled(d, act) && !act.HandleAck? && !act.Write? && !act.Otherwise? {
      TalkRemembers(start, d, act);
    }
  }

  lemma TalkRemembers(start: Device, d: Device, act: Act)
    requires Remembers(start, d) && Enabled(d, act) && !act.HandleAck? && !act.Write? && !act.Otherwise?
    ensures Remembers(start, Talk(d, act).(clock := d.clock + 1))
  {
  }

  lemma NextWaits(d: Device, act: Act, c: Id, op: Id, since: nat)
    requires WaitsSince(d, c, op, since)
    ensures WaitsSince(Next(d, act), c, op, since)
  {
    if Enabled(d, act) && !act.HandleAck? && !act.Otherwise? {
      if act.Write? {
        WriteWaits(d, act.call, act.now, c, op, since);
      } else {
        TalkWaits(d, act, c, op, since);
      }
    }
  }

  lemma WriteWaits(d: Device, writer: Id, now: Time, c: Id, op: Id, since: nat)
    requires WaitsSince(d, c, op, since) && Enabled(d, Write(writer, now))
    ensures WaitsSince(Written(d, writer, now).(clock := d.clock + 1), c, op, since)
  {
  }

  lemma TalkWaits(d: Device, act: Act, c: Id, op: Id, since: nat)
    requires WaitsSince(d, c, op, since) && Enabled(d, act) && !act.HandleAck? && !act.Write? && !act.Otherwise?
    ensures WaitsSince(Talk(d, act).(clock := d.clock + 1), c, op, since)
  {
  }

  lemma {:induction false} RunRemembers(start: Device, d: Device, acts: seq<Act>, c: Id, op: Id, since: nat)
    requires Remembers(start, d) && WaitsSince(d, c, op, since)
    ensures Remembers(start, RunActs(d, acts)) && WaitsSince(RunActs(d, acts), c, op, since)
  {
    if acts != [] {
      var early := acts[..|acts| - 1];
      RunRemembers(start, d, early, c, op, since);
      NextRemembers(start, RunActs(d, early), acts[|acts| - 1]);
      NextWaits(RunActs(d, early), acts[|acts| - 1], c, op, since);
    }
  }

  // ----- exactly when ------------------------------------------------------------------------------

  lemma RegisterRemembers(d: Device, c: Id)
    requires Registers(d, c)
    ensures Remembers(d, Registered(d, c))
    ensures WaitsSince(Registered(d, c), c, d.calls[c].op, d.clock)
  {
  }

  /** With nothing outstanding, whatever clears the call later was handled later. */
  lemma NothingOutstandingIsTimely(d: Device, c: Id, acts: seq<Act>)
    requires Sound(d) && Registers(d, c) && !AckOutstanding(d, d.calls[c].op)
    ensures Timely(RunActs(Registered(d, c), acts), c)
  {
    var next := Registered(d, c);
    var end := RunActs(next, acts);
    RegisteredSound(d, c);
    RunSound(next, acts);
    RegisterRemembers(d, c);
    RunRemembers(d, next, acts, c, d.calls[c].op, d.clock);
    if ConsentOf(end.calls[c].phase).Some? {
      var consent := ConsentOf(end.calls[c].phase).value;
      ClearedLate(d, end, c, consent);
    }
  }

  lemma RegisteredSound(d: Device, c: Id)
    requires Sound(d) && Registers(d, c)
    ensures Sound(Registered(d, c))
  {
    RegisterStep(d, Registered(d, c), c);
  }

  lemma ClearedLate(d: Device, end: Device, c: Id, consent: Consent)
    requires AcksSound(d) && c in d.calls && !AckOutstanding(d, d.calls[c].op)
    requires Remembers(d, end) && WaitsSince(end, c, d.calls[c].op, d.clock) && CallsSound(end)
    requires ConsentOf(end.calls[c].phase) == Some(consent)
    ensures consent.ack in end.acks && end.acks[consent.ack].handledAt >= consent.since
  {
    assert CallSound(end, c);
    var a := consent.ack;
    assert a in d.acks ==> AckSound(d, a) && !IsOutstanding(d, a, d.calls[c].op);
  }

  /** The outstanding acknowledgement is passed on to the new waiter. */
  lemma OutstandingServes(d: Device, c: Id, a: Id)
    requires Sound(d) && Registers(d, c) && IsOutstanding(d, a, d.calls[c].op)
    ensures !Timely(RunActs(Registered(d, c), [LookUp(a), Send(a), Receive(c)]), c)
  {
    assert AckSound(d, a);
    var next := Registered(d, c);
    var acts := [LookUp(a), Send(a), Receive(c)];
    var met := Next(next, LookUp(a));
    Meets(d, met, c, a);
    var end := Next(Next(met, Send(a)), Receive(c));
    Passes(met, end, c, a);
    RunThree(next, LookUp(a), Send(a), Receive(c));
  }

  lemma RunThree(d: Device, first: Act, second: Act, third: Act)
    ensures RunActs(d, [first, second, third]) == Next(Next(Next(d, first), second), third)
  {
    var acts := [first, second, third];
    assert acts[..2][..1] == acts[..1] && acts[..1][..0] == [];
    assert RunActs(d, acts[..0]) == d;
    assert RunActs(d, acts[..1]) == Next(d, first);
    assert RunActs(d, acts[..2]) == Next(Next(d, first), second);
  }

  lemma {:induction false} RunConcat(d: Device, a: seq<Act>, b: seq<Act>)
    ensures RunActs(d, a + b) == RunActs(RunActs(d, a), b)
  {
    if b == [] {
      assert a + b == a;
    } else {
      assert (a + b)[..|a + b| - 1] == a + b[..|b| - 1];
      RunConcat(d, a, b[..|b| - 1]);
    }
  }

  lemma Meets(d: Device, met: Device, c: Id, a: Id)
    requires Registers(d, c) && IsOutstanding(d, a, d.calls[c].op)
    requires met == Next(Registered(d, c), LookUp(a))
    ensures c in met.calls && met.calls[c].phase == Waiting(d.clock, None)
    ensures a in met.acks && met.acks[a] == d.acks[a].(signal := Found(c, d.clock + 1))
  {
    var one := Registered(d, c);
    assert Enabled(one, LookUp(a)) && one.waiters[d.calls[c].op] == c;
  }

  lemma Passes(met: Device, end: Device, c: Id, a: Id)
    requires c in met.calls && met.calls[c].phase.Waiting? && met.calls[c].phase.inbox.None?
    requires a in met.acks && met.acks[a].ok && met.acks[a].signal.Found? && met.acks[a].signal.call == c
    requires end == Next(Next(met, Send(a)), Receive(c))
    ensures c in end.calls && end.calls[c].phase == Leaving(Some(Consent(met.calls[c].phase.since, a)))
    ensures a in end.acks && end.acks[a] == met.acks[a]
  {
    var one := Next(met, Send(a));
    assert Enabled(met, Send(a)) && Enabled(one, Receive(c));
  }

  /**
   * A call is sure to be cleared only by an acknowledgement handled after it registered iff,
   * as it registers, no successful acknowledgement for its operation is outstanding.
   */
  lemma TimelyIff(d: Device, c: Id)
    requires Sound(d) && Registers(d, c)
    ensures (forall acts :: Timely(RunActs(Registered(d, c), acts), c)) <==> !AckOutstanding(d, d.calls[c].op)
  {
    if AckOutstanding(d, d.calls[c].op) {
      var acts := OutstandingUntimely(d, c);
    } else {
      forall acts ensures Timely(RunActs(Registered(d, c), acts), c) {
        NothingOutstandingIsTimely(d, c, acts);
      }
    }
  }

  lemma OutstandingUntimely(d: Device, c: Id) returns (acts: seq<Act>)
    requires Sound(d) && Registers(d, c) && AckOutstanding(d, d.calls[c].op)
    ensures !Timely(RunActs(Registered(d, c), acts), c)
  {
    var a :| a in d.acks && IsOutstanding(d, a, d.calls[c].op);
    OutstandingServes(d, c, a);
    acts := [LookUp(a), Send(a), Receive(c)];
  }

  // ----- an input --------------------------------------------------------------------------------------

  /** A first call registers, and the acknowledgement it asked for is recorded. */
  lemma Asked(d: Device, after: Device, op: Id, first: Id, a: Id, ev: DeviceEvent)
    requires op in d.db.ops && d.db.ops[op].status == OpExecuting && op !in d.waiters && first !in d.calls
             && a !in d.acks
    requires ev.op == op && ev.deviceId == d.db.ops[op].deviceId && ev.etype == EvAbortAck
    requires after == Next(Next(Next(d, Read(first, op, false)), Register(first)), HandleAck(a, ev))
    ensures IsOutstanding(after, a, op) && IsWaiting(after, first) && after.calls.Keys == d.calls.Keys + {first}
    ensures after.calls[first].op == op && !after.calls[first].sweeping && after.waiters == d.waiters[op := first]
    ensures op in after.db.ops && after.db.ops[op].status == OpExecuting
  {
    var one := Next(d, Read(first, op, false));
    var two := Next(one, Register(first));
    assert Enabled(one, Register(first)) && two.db == d.db;
    AckRecorded(two.db, op, ev);
    assert Enabled(two, HandleAck(a, ev));
  }

  lemma AckRecorded(db: Db, op: Id, ev: DeviceEvent)
    requires op in db.ops && db.ops[op].status == OpExecuting
    requires ev.op == op && ev.deviceId == db.ops[op].deviceId && ev.etype == EvAbortAck
    ensures OnDeviceEvent(db, ev, true).Commit?
    ensures op in OnDeviceEvent(db, ev, true).db.ops && OnDeviceEvent(db, ev, true).db.ops[op].status == OpExecuting
  {
    AckAppended(db, op, ev);
    assert OnDeviceEvent(db, ev, true) == RecordEvent(db, ev, true);
  }

  lemma AckAppended(db: Db, op: Id, ev: DeviceEvent)
    requires op in db.ops && db.ops[op].status == OpExecuting && ev.op == op && ev.etype == EvAbortAck
    ensures RecordEvent(db, ev, true).Commit?
    ensures op in RecordEvent(db, ev, true).db.ops && RecordEvent(db, ev, true).db.ops[op].status == OpExecuting
  {
    assert Tagged(db, ev, true) == db;
    AppendCommits(db, op, EventKey(ev.deviceId, ev.msgId), ev.etype, ev.data, ev.at);
  }

  lemma AppendCommits(db: Db, op: Id, key: EventKey, etype: EventType, data: TagData, at: Time)
    requires op in db.ops && db.ops[op].status == OpExecuting
    ensures AppendEventIfActive(db, op, key, etype, data, at).Commit?
    ensures op in AppendEventIfActive(db, op, key, etype, data, at).db.ops
    ensures AppendEventIfActive(db, op, key, etype, data, at).db.ops[op].status == OpExecuting
  {
  }

  /** It gives up before the acknowledgement is passed on, and a second call reads the operation. */
  lemma AskedAgain(d: Device, after: Device, op: Id, first: Id, second: Id, a: Id)
    requires IsOutstanding(d, a, op) && IsWaiting(d, first) && d.calls[first].op == op && !d.calls[first].sweeping
    requires op in d.db.ops && d.db.ops[op].status == OpExecuting && second !in d.calls
    requires after == Next(Next(Next(d, StopWaiting(first)), Leave(first)), Read(second, op, false))
    ensures Registers(after, second) && after.calls[second].op == op && IsOutstanding(after, a, op)
  {
    var one := Next(d, StopWaiting(first));
    var two := Next(one, Leave(first));
    assert Enabled(one, Leave(first)) && Enabled(two, Read(second, op, false));
  }

  function Commissioned(): Device {
    Device(Start(), map[], map[], map[], 0)
  }

  const ABORTED := DeviceEvent(1, 1, 9, EvAbortAck, NO_TAG, MINUTE, "", "")

  /** From commissioning on: an ordinary pickup, a first cancel that gives up, a second about to register. */
  function SecondTry(): seq<Act> {
    UnderWay() + FirstCancel() + SecondCancel()
  }

  function UnderWay(): seq<Act> {
    [Otherwise(Reserve(RESERVE)), Otherwise(AskPickup(PICKUP)), Otherwise(Begin(1, 0))]
  }

  function FirstCancel(): seq<Act> {
    [Read(1, 1, false), Register(1), HandleAck(1, ABORTED)]
  }

  function SecondCancel(): seq<Act> {
    [StopWaiting(1), Leave(1), Read(2, 1, false)]
  }

  lemma LedgerActs(d: Device, step: Step)
    requires !step.CancelOp? && !step.TimeoutOp?
    ensures Next(d, Otherwise(step)) == d.(db := After(d.db, step), clock := d.clock + 1)
  {
    LedgerActsAlone(d, step);
    assert Enabled(d, Otherwise(step));
  }

  lemma LedgerActsAlone(d: Device, step: Step)
    requires Enabled(d, Otherwise(step))
    ensures Effect(d, Otherwise(step)) == d.(db := After(d.db, step))
  {
  }

  lemma PickupUnderWay(d: Device)
    requires d == RunActs(Commissioned(), UnderWay())
    ensures d == Device(Running(), map[], map[], map[], 3)
  {
    RunThree(Commissioned(), Otherwise(Reserve(RESERVE)), Otherwise(AskPickup(PICKUP)), Otherwise(Begin(1, 0)));
    LedgerActs(Commissioned(), Reserve(RESERVE));
    ReserveGranted();
    LedgerActs(Device(Reserved(), map[], map[], map[], 1), AskPickup(PICKUP));
    AfterGranted();
    LedgerActs(Device(Requested(), map[], map[], map[], 2), Begin(1, 0));
    AfterBegun();
  }

  lemma SecondTryRegisters(end: Device)
    requires end == RunActs(Commissioned(), SecondTry())
    ensures Registers(end, 2) && end.calls[2].op == 1 && AckOutstanding(end, 1)
  {
    var start := RunActs(Commissioned(), UnderWay());
    PickupUnderWay(start);
    RunConcat(Commissioned(), UnderWay() + FirstCancel(), SecondCancel());
    RunConcat(Commissioned(), UnderWay(), FirstCancel());
    CancelledTwice(start, end);
  }

  lemma CancelledTwice(start: Device, end: Device)
    requires start.calls == map[] && start.waiters == map[] && start.acks == map[]
    requires 1 in start.db.ops && start.db.ops[1].status == OpExecuting && start.db.ops[1].deviceId == 1
    requires end == RunActs(RunActs(start, FirstCancel()), SecondCancel())
    ensures Registers(end, 2) && end.calls[2].op == 1 && AckOutstanding(end, 1)
  {
    var asked := RunActs(start, FirstCancel());
    FirstCancelAsks(start, asked);
    RunThree(asked, StopWaiting(1), Leave(1), Read(2, 1, false));
    AskedAgain(asked, end, 1, 1, 2, 1);
  }

  lemma FirstCancelAsks(start: Device, asked: Device)
    requires start.calls == map[] && start.waiters == map[] && start.acks == map[]
    requires 1 in start.db.ops && start.db.ops[1].status == OpExecuting && start.db.ops[1].deviceId == 1
    requires asked == RunActs(start, FirstCancel())
    ensures IsOutstanding(asked, 1, 1) && IsWaiting(asked, 1) && asked.calls.Keys == {1}
    ensures asked.calls[1].op == 1 && !asked.calls[1].sweeping
    ensures 1 in asked.db.ops && asked.db.ops[1].status == OpExecuting
  {
    RunThree(start, Read(1, 1, false), Register(1), HandleAck(1, ABORTED));
    Asked(start, asked, 1, 1, 1, ABORTED);
  }

  /** It happens: a run from commissioning on in which an acknowledgement older than the wait of a call clears it. */
  lemma EarlyAckHappens()
    ensures exists acts :: !Timely(RunActs(Commissioned(), acts), 2)
  {
    var acts := UntimelyRun();
  }

  lemma UntimelyRun() returns (acts: seq<Act>)
    ensures !Timely(RunActs(Commissioned(), acts), 2)
  {
    var rest := SecondTryUntimely(RunActs(Commissioned(), SecondTry()));
    RegisterThen(Commissioned(), SecondTry(), 2, rest);
    acts := SecondTry() + [Register(2)] + rest;
  }

  lemma CommissionedIsSound()
    ensures Sound(Commissioned())
  {
    StartIsFresh();
    FreshIsSound(Start());
  }

  lemma SecondTryUntimely(end: Device) returns (rest: seq<Act>)
    requires end == RunActs(Commissioned(), SecondTry())
    ensures Registers(end, 2) && !Timely(RunActs(Registered(end, 2), rest), 2)
  {
    CommissionedIsSound();
    RunSound(Commissioned(), SecondTry());
    SecondTryRegisters(end);
    TimelyIff(end, 2);
    rest :| !Timely(RunActs(Registered(end, 2), rest), 2);
  }

  lemma RegisterThen(d: Device, acts: seq<Act>, c: Id, rest: seq<Act>)
    requires Registers(RunActs(d, acts), c)
    ensures RunActs(d, acts + [Register(c)] + rest) == RunActs(Registered(RunActs(d, acts), c), rest)
  {
    var end := RunActs(d, acts);
    RegisterNext(end, c);
    assert (acts + [Register(c)])[..|acts|] == acts;
    RunConcat(d, acts + [Register(c)], rest);
  }
}
