/**
 * Cancelling a running operation: the cancel call registers a waiter, publishes an abort
 * and commits CANCELLED only after the cabinet's acknowledgement reached that waiter.
 */
module AbortProtocol {
  import opened LedgerTypes
  import opened OperationTx
  import opened Services
  import opened Steps
  import opened Coupling
  import opened Moves
  import opened CouplingRuns
  import opened OneWinner

  /** An abort acknowledgement the ledger has handled, and what signalAbort has done with it. */
  datatype Ack = Ack(op: Id, ok: bool, handledAt: nat, signal: Signal)

  /** signalAbort first looks the waiter up under the lock, and sends to its channel afterwards. */
  datatype Signal = Pending | Found(call: Id, at: nat) | Nobody

  /** AbortOperation is called to cancel (and the result decides) or by the timeout sweep (which ignores it). */
  datatype Call = Call(op: Id, sweeping: bool, read: OpStatus, phase: Phase)

  datatype Phase =
    | HasRead                                // the operation was read, not terminal
    | Waiting(since: nat, inbox: Option<Id>) // registered in abortWaiters; the channel holds one acknowledgement
    | Leaving(consent: Option<Consent>)      // the select is over, the deferred delete has not run
    | Cleared(consent: Option<Consent>)      // free to write
    | Cancelled(why: Option<Consent>)        // Cancel committed
    | GaveUp                                 // refused, or the sweep has timed the operation out

  datatype Consent = Consent(since: nat, ack: Id)

  datatype Device = Device(db: Db, waiters: map<Id, Id>, calls: map<Id, Call>, acks: map<Id, Ack>, clock: nat)

  datatype Act =
    | Read(call: Id, op: Id, sweeping: bool)
    | Register(call: Id)
    | HandleAck(ack: Id, event: DeviceEvent)
    | LookUp(ack: Id)
    | Send(ack: Id)
    | Receive(call: Id)
    | StopWaiting(call: Id)                  // publish failed, timer fired or context ended
    | Leave(call: Id)
    | Write(call: Id, now: Time)
    | Otherwise(step: Step)

  predicate AbortReport(etype: EventType) {
    etype == EvAbortAck || etype == EvAbortFailed
  }

  predicate IsWaiting(d: Device, c: Id) {
    c in d.calls && d.calls[c].phase.Waiting?
  }

  /** The call is inside AbortOperation, after its registration. */
  predicate IsInside(d: Device, c: Id) {
    c in d.calls && (d.calls[c].phase.Waiting? || d.calls[c].phase.Leaving?)
  }

  /** A cancel may skip the abort only if the operation was not running when it was read. */
  predicate ReadRunning(call: Call) {
    call.read in {OpSent, OpExecuting}
  }

  predicate Enabled(d: Device, act: Act) {
    match act
    case Read(c, op, _) => c !in d.calls && op in d.db.ops && !IsTerminal(d.db.ops[op].status)
    case Register(c) =>
      c in d.calls && d.calls[c].phase.HasRead? && (d.calls[c].sweeping || ReadRunning(d.calls[c]))
    case HandleAck(a, ev) => a !in d.acks && AbortReport(ev.etype) && OnDeviceEvent(d.db, ev, true).Commit?
    case LookUp(a) => a in d.acks && d.acks[a].signal.Pending?
    case Send(a) => a in d.acks && d.acks[a].signal.Found?
    case Receive(c) => IsWaiting(d, c) && d.calls[c].phase.inbox.Some?
    case StopWaiting(c) => IsWaiting(d, c)
    case Leave(c) => c in d.calls && d.calls[c].phase.Leaving?
    case Write(c, _) =>
      c in d.calls && (d.calls[c].phase.Cleared?
                       || (d.calls[c].phase.HasRead? && !d.calls[c].sweeping && !ReadRunning(d.calls[c])))
    case Otherwise(step) => !step.CancelOp? && !step.TimeoutOp?
  }

  function WithPhase(d: Device, c: Id, phase: Phase): map<Id, Call>
    requires c in d.calls
  {
    d.calls[c := d.calls[c].(phase := phase)]
  }

  /** After AbortOperation: a cancel needs a nil error, the sweep goes on in any case. */
  function AfterAbort(d: Device, c: Id, consent: Option<Consent>): Phase
    requires c in d.calls
  {
    if d.calls[c].sweeping || consent.Some? then Cleared(consent) else GaveUp
  }

  /** AbortOperation and signalAbort, which leave the ledger alone. */
  function Talk(d: Device, act: Act): Device
    requires Enabled(d, act) && !act.Write? && !act.HandleAck? && !act.Otherwise?
  {
    match act
    case Read(c, op, sweeping) => d.(calls := d.calls[c := Call(op, sweeping, d.db.ops[op].status, HasRead)])
    case Register(c) =>
      var op := d.calls[c].op;
      if op in d.waiters then d.(calls := WithPhase(d, c, AfterAbort(d, c, None)))
      else d.(waiters := d.waiters[op := c], calls := WithPhase(d, c, Waiting(d.clock, None)))
    case LookUp(a) =>
      var op := d.acks[a].op;
      d.(acks := d.acks[a := d.acks[a].(signal := if op in d.waiters then Found(d.waiters[op], d.clock) else Nobody)])
    case Send(a) =>
      var c := d.acks[a].signal.call;
      if IsWaiting(d, c) && d.calls[c].phase.inbox.None?
      then d.(calls := WithPhase(d, c, d.calls[c].phase.(inbox := Some(a)))) else d
    case Receive(c) =>
      var a := d.calls[c].phase.inbox.value;
      var consent := if a in d.acks && d.acks[a].ok then Some(Consent(d.calls[c].phase.since, a)) else None;
      d.(calls := WithPhase(d, c, Leaving(consent)))
    case StopWaiting(c) => d.(calls := WithPhase(d, c, Leaving(None)))
    case Leave(c) =>
      d.(waiters := d.waiters - {d.calls[c].op}, calls := WithPhase(d, c, AfterAbort(d, c, d.calls[c].phase.consent)))
  }

  /** The transaction a call was heading for: Timeout for the sweep, Cancel for a cancel. */
  function Written(d: Device, c: Id, now: Time): Device
    requires Enabled(d, Write(c, now))
  {
    var call := d.calls[c];
    var consent := if call.phase.Cleared? then call.phase.consent else None;
    if call.sweeping then
      d.(db := Applied(d.db, Timeout(d.db, call.op, now)), calls := WithPhase(d, c, GaveUp))
    else
      match Cancel(d.db, call.op, now)
      case Commit(after) => d.(db := after, calls := WithPhase(d, c, Cancelled(consent)))
      case Rollback(_) => d.(calls := WithPhase(d, c, GaveUp))
  }

  function Effect(d: Device, act: Act): Device
    requires Enabled(d, act)
  {
    match act
    case HandleAck(a, ev) =>
      d.(db := OnDeviceEvent(d.db, ev, true).db,
         acks := d.acks[a := Ack(ev.op, ev.etype == EvAbortAck, d.clock, Pending)])
    case Write(c, now) => Written(d, c, now)
    case Otherwise(step) => d.(db := After(d.db, step))
    case _ => Talk(d, act)
  }

  /** One act; time passes whether or not it is enabled. */
  function Next(d: Device, act: Act): Device {
    (if Enabled(d, act) then Effect(d, act) else d).(clock := d.clock + 1)
  }

  function RunActs(d: Device, acts: seq<Act>): Device {
    if acts == [] then d else Next(RunActs(d, acts[..|acts| - 1]), acts[|acts| - 1])
  }

  // ----- the invariant --------------------------------------------------------------------

  /** Exactly the calls inside AbortOperation own the entries of abortWaiters. */
  ghost predicate WaitersOwned(d: Device) {
    && (forall op | op in d.waiters :: IsInside(d, d.waiters[op]) && d.calls[d.waiters[op]].op == op)
    && (forall c | IsInside(d, c) :: d.calls[c].op in d.waiters && d.waiters[d.calls[c].op] == c)
  }

  /** Acknowledgement `a` found call `c` registered, for the operation both are about. */
  predicate Reached(d: Device, a: Id, c: Id, since: nat) {
    && c in d.calls && a in d.acks && d.acks[a].op == d.calls[c].op
    && d.acks[a].signal.Found? && d.acks[a].signal.call == c
    && since < d.acks[a].signal.at && d.acks[a].handledAt < d.acks[a].signal.at < d.clock
  }

  predicate Consented(d: Device, c: Id, consent: Consent) {
    Reached(d, consent.ack, c, consent.since) && d.acks[consent.ack].ok
  }

  predicate ConsentSound(d: Device, c: Id, consent: Option<Consent>) {
    consent.Some? ==> Consented(d, c, consent.value)
  }

  predicate AckSound(d: Device, a: Id)
    requires a in d.acks
  {
    && d.acks[a].handledAt < d.clock
    && match d.acks[a].signal
       case Found(c, at) =>
         && c in d.calls && d.calls[c].op == d.acks[a].op && d.acks[a].handledAt < at < d.clock
         && !d.calls[c].phase.HasRead?
         && (IsWaiting(d, c) ==> d.calls[c].phase.since < at)
       case _ => true
  }

  ghost predicate AcksSound(d: Device) {
    forall a | a in d.acks :: AckSound(d, a)
  }

  predicate CallSound(d: Device, c: Id)
    requires c in d.calls
  {
    var call := d.calls[c];
    && call.op in d.db.ops
    && match call.phase
       case HasRead => true
       case Waiting(since, inbox) =>
         && since < d.clock && (call.sweeping || ReadRunning(call))
         && (inbox.Some? ==> Reached(d, inbox.value, c, since))
       case Leaving(consent) => (call.sweeping || ReadRunning(call)) && ConsentSound(d, c, consent)
       case Cleared(consent) =>
         && (call.sweeping || (ReadRunning(call) && consent.Some?))
         && ConsentSound(d, c, consent)
       case Cancelled(why) =>
         && !call.sweeping && d.db.ops[call.op].status == OpCancelled
         && (why.Some? <==> ReadRunning(call)) && ConsentSound(d, c, why)
       case GaveUp => true
  }

  ghost predicate CallsSound(d: Device) {
    forall c | c in d.calls :: CallSound(d, c)
  }

  predicate CancelledBy(d: Device, c: Id, op: Id) {
    c in d.calls && d.calls[c].op == op && d.calls[c].phase.Cancelled?
  }

  /** Every cancelled operation was cancelled by one call. */
  ghost predicate CancelsCalled(d: Device) {
    && (forall op | op in d.db.ops && d.db.ops[op].status == OpCancelled :: exists c :: CancelledBy(d, c, op))
    && (forall c1, c2, op | CancelledBy(d, c1, op) && CancelledBy(d, c2, op) :: c1 == c2)
  }

  ghost predicate Orderly(d: Device) {
    WaitersOwned(d) && AcksSound(d) && CallsSound(d) && CancelsCalled(d)
  }

  ghost predicate Sound(d: Device) {
    Coupled(d.db) && Orderly(d)
  }

  // ----- nobody gets stuck -------------------------------------------------------------------

  /** A call that has not come to its end has a step of its own to take, whatever it was read as. */
  lemma NeverStuck(d: Device, c: Id)
    requires c in d.calls && !d.calls[c].phase.Cancelled? && !d.calls[c].phase.GaveUp?
    ensures exists act :: Enabled(d, act) && act in {Register(c), StopWaiting(c), Leave(c), Write(c, 0)}
  {
    var act := match d.calls[c].phase
               case HasRead => if d.calls[c].sweeping || ReadRunning(d.calls[c]) then Register(c) else Write(c, 0)
               case Waiting(_, _) => StopWaiting(c)
               case Leaving(_) => Leave(c)
               case _ => Write(c, 0);
    assert Enabled(d, act);
  }

  // ----- what does not get lost --------------------------------------------------------------

  /**
   * Later: time went on, ended operations stayed ended, sent signals stay on record, calls are
   * about their operation.
   */
  ghost predicate Later(d: Device, next: Device) {
    && d.clock < next.clock && Absorbed(d.db, next.db)
    && (forall a | a in d.acks :: a in next.acks && next.acks[a].op == d.acks[a].op && next.acks[a].ok == d.acks[a].ok
                                  && (d.acks[a].signal.Found? ==> next.acks[a] == d.acks[a]))
    && (forall c | c in d.calls :: c in next.calls && next.calls[c].op == d.calls[c].op)
  }

  lemma ReachedStays(d: Device, next: Device, a: Id, c: Id, since: nat)
    requires Later(d, next) && Reached(d, a, c, since)
    ensures Reached(next, a, c, since)
  {
  }

  lemma CallStays(d: Device, next: Device, c: Id)
    requires Later(d, next) && c in d.calls && CallSound(d, c) && next.calls[c] == d.calls[c]
    ensures CallSound(next, c)
  {
  }

  /** Everyone but `c` is as before. */
  lemma OthersStay(d: Device, next: Device, c: Id)
    requires CallsSound(d) && Later(d, next)
    requires forall o | o in next.calls && o != c :: o in d.calls && next.calls[o] == d.calls[o]
    requires c in next.calls ==> CallSound(next, c)
    ensures CallsSound(next)
  {
    forall o | o in next.calls ensures CallSound(next, o) {
      if o != c {
        CallStays(d, next, o);
      }
    }
  }

  lemma SameAbsorbs(db: Db)
    ensures Absorbed(db, db)
  {
  }

  /** Acknowledgements stay sound while calls only move forward. */
  lemma AcksStay(d: Device, next: Device)
    requires AcksSound(d) && Later(d, next) && next.acks == d.acks
    requires forall c | c in d.calls && !d.calls[c].phase.HasRead? :: !next.calls[c].phase.HasRead?
    requires forall c | c in d.calls && IsWaiting(next, c) && !d.calls[c].phase.HasRead? ::
               d.calls[c].phase.Waiting? && d.calls[c].phase.since == next.calls[c].phase.since
    ensures AcksSound(next)
  {
    forall a | a in next.acks ensures AckSound(next, a) {
      assert AckSound(d, a);
    }
  }

  lemma WaitersStay(d: Device, next: Device)
    requires WaitersOwned(d) && next.waiters == d.waiters && Later(d, next)
    requires forall c :: IsInside(next, c) <==> IsInside(d, c)
    ensures WaitersOwned(next)
  {
  }

  lemma CancelsStay(d: Device, next: Device)
    requires CancelsCalled(d) && NoneNewlyCancelled(d.db, next.db)
    requires forall c, op :: CancelledBy(next, c, op) <==> CancelledBy(d, c, op)
    ensures CancelsCalled(next)
  {
    forall op | op in next.db.ops && next.db.ops[op].status == OpCancelled
      ensures exists c :: CancelledBy(next, c, op)
    {
      var c :| CancelledBy(d, c, op);
      assert CancelledBy(next, c, op);
    }
  }

  /** One call has moved, or appeared; the others and the acknowledgements are as before. */
  ghost predicate OthersSame(d: Device, next: Device, c: Id) {
    && d.clock < next.clock && Absorbed(d.db, next.db) && next.acks == d.acks
    && next.calls.Keys == d.calls.Keys + {c}
    && (forall o | o in d.calls && o != c :: next.calls[o] == d.calls[o])
    && (c in d.calls ==> next.calls[c].op == d.calls[c].op)
  }

  /** The call does not go back, and does not restart its wait. */
  predicate Forward(d: Device, next: Device, c: Id) {
    c in d.calls && c in next.calls && !d.calls[c].phase.HasRead? ==>
      && !next.calls[c].phase.HasRead?
      && (next.calls[c].phase.Waiting? ==>
           d.calls[c].phase.Waiting? && next.calls[c].phase.since == d.calls[c].phase.since)
  }

  lemma OneMoves(d: Device, next: Device, c: Id)
    requires CallsSound(d) && AcksSound(d) && OthersSame(d, next, c) && Forward(d, next, c)
    requires c in next.calls && CallSound(next, c) && (c in d.calls ==> !next.calls[c].phase.HasRead?)
    ensures CallsSound(next) && AcksSound(next)
  {
    OthersStay(d, next, c);
    AcksStay(d, next);
  }

  lemma OneCancelsNothing(d: Device, next: Device, c: Id)
    requires CancelsCalled(d) && OthersSame(d, next, c) && NoneNewlyCancelled(d.db, next.db)
    requires !(c in d.calls && d.calls[c].phase.Cancelled?) && !(c in next.calls && next.calls[c].phase.Cancelled?)
    ensures CancelsCalled(next)
  {
    CancelsStay(d, next);
  }

  lemma OneKeepsWaiters(d: Device, next: Device, c: Id)
    requires WaitersOwned(d) && OthersSame(d, next, c) && next.waiters == d.waiters
             && (IsInside(next, c) <==> IsInside(d, c))
    ensures WaitersOwned(next)
  {
    WaitersStay(d, next);
  }

  // ----- one act of a call ------------------------------------------------------------------------

  /** A call moves on without touching the ledger, the waiters or the acknowledgements. */
  lemma CallMoves(d: Device, next: Device, c: Id, phase: Phase)
    requires Orderly(d) && c in d.calls
    requires next == d.(calls := WithPhase(d, c, phase), clock := d.clock + 1)
    requires IsInside(next, c) <==> IsInside(d, c)
    requires !phase.Cancelled? && !d.calls[c].phase.Cancelled? && !phase.HasRead?
    requires phase.Waiting? ==> d.calls[c].phase.Waiting? && phase.since == d.calls[c].phase.since
    requires CallSound(next, c)
    ensures Orderly(next)
  {
    SameAbsorbs(d.db);
    OneMoves(d, next, c);
    OneKeepsWaiters(d, next, c);
    OneCancelsNothing(d, next, c);
  }

  lemma ReadStep(d: Device, next: Device, c: Id, op: Id, sweeping: bool)
    requires Orderly(d) && c !in d.calls && op in d.db.ops
    requires next == d.(calls := d.calls[c := Call(op, sweeping, d.db.ops[op].status, HasRead)], clock := d.clock + 1)
    ensures Orderly(next)
  {
    SameAbsorbs(d.db);
    OneMoves(d, next, c);
    OneKeepsWaiters(d, next, c);
    OneCancelsNothing(d, next, c);
  }

  /** AbortOperation for an operation that has a waiter already is refused at once. */
  lemma RefusedStep(d: Device, next: Device, c: Id)
    requires Orderly(d) && c in d.calls && d.calls[c].phase.HasRead? && (d.calls[c].sweeping || ReadRunning(d.calls[c]))
    requires next == d.(calls := WithPhase(d, c, AfterAbort(d, c, None)), clock := d.clock + 1)
    ensures Orderly(next)
  {
    assert CallSound(d, c);
    CallMoves(d, next, c, AfterAbort(d, c, None));
  }

  lemma RegisterStep(d: Device, next: Device, c: Id)
    requires Orderly(d) && c in d.calls && d.calls[c].phase.HasRead? && (d.calls[c].sweeping || ReadRunning(d.calls[c]))
    requires d.calls[c].op !in d.waiters
    requires next == d.(waiters := d.waiters[d.calls[c].op := c], calls := WithPhase(d, c, Waiting(d.clock, None)),
             clock := d.clock + 1)
    ensures Orderly(next)
  {
    SameAbsorbs(d.db);
    assert CallSound(d, c);
    OneMoves(d, next, c);
    RegisterOwned(d, next, c);
    OneCancelsNothing(d, next, c);
  }

  lemma RegisterOwned(d: Device, next: Device, c: Id)
    requires WaitersOwned(d) && c in d.calls && d.calls[c].op !in d.waiters && !IsInside(d, c)
    requires next.waiters == d.waiters[d.calls[c].op := c] && next.calls == WithPhase(d, c, Waiting(d.clock, None))
    ensures WaitersOwned(next)
  {
    forall o ensures IsInside(next, o) <==> o == c || IsInside(d, o) {}
  }

  lemma LeaveStep(d: Device, next: Device, c: Id)
    requires Orderly(d) && c in d.calls && d.calls[c].phase.Leaving?
    requires next == d.(waiters := d.waiters - {d.calls[c].op},
                        calls := WithPhase(d, c, AfterAbort(d, c, d.calls[c].phase.consent)), clock := d.clock + 1)
    ensures Orderly(next)
  {
    SameAbsorbs(d.db);
    assert CallSound(d, c);
    ConsentStays(d, next, c, d.calls[c].phase.consent);
    OneMoves(d, next, c);
    LeaveOwned(d, next, c);
    OneCancelsNothing(d, next, c);
  }

  lemma LeaveOwned(d: Device, next: Device, c: Id)
    requires WaitersOwned(d) && IsInside(d, c)
    requires next.waiters == d.waiters - {d.calls[c].op}
    requires next.calls.Keys == d.calls.Keys && !IsInside(next, c)
    requires forall o | o in d.calls && o != c :: next.calls[o] == d.calls[o]
    ensures WaitersOwned(next)
  {
    forall o ensures IsInside(next, o) <==> o != c && IsInside(d, o) {}
  }

  lemma ConsentStays(d: Device, next: Device, c: Id, consent: Option<Consent>)
    requires Later(d, next) && ConsentSound(d, c, consent)
    ensures ConsentSound(next, c, consent)
  {
    if consent.Some? {
      ReachedStays(d, next, consent.value.ack, c, consent.value.since);
    }
  }

  lemma ReceiveStep(d: Device, next: Device, c: Id, consent: Option<Consent>)
    requires Orderly(d) && IsWaiting(d, c) && d.calls[c].phase.inbox.Some?
    requires var a := d.calls[c].phase.inbox.value;
             consent == if a in d.acks && d.acks[a].ok then Some(Consent(d.calls[c].phase.since, a)) else None
    requires next == d.(calls := WithPhase(d, c, Leaving(consent)), clock := d.clock + 1)
    ensures Orderly(next)
  {
    SameAbsorbs(d.db);
    assert CallSound(d, c);
    ReachedStays(d, next, d.calls[c].phase.inbox.value, c, d.calls[c].phase.since);
    CallMoves(d, next, c, Leaving(consent));
  }

  lemma StopStep(d: Device, next: Device, c: Id)
    requires Orderly(d) && IsWaiting(d, c)
    requires next == d.(calls := WithPhase(d, c, Leaving(None)), clock := d.clock + 1)
    ensures Orderly(next)
  {
    assert CallSound(d, c);
    CallMoves(d, next, c, Leaving(None));
  }

  /** A call without a waiter ends. */
  lemma GivesUp(d: Device, next: Device, c: Id)
    requires Orderly(d) && c in d.calls && (d.calls[c].phase.Cleared? || d.calls[c].phase.HasRead?)
    requires next == d.(calls := WithPhase(d, c, GaveUp), clock := d.clock + 1)
    ensures Orderly(next)
  {
    assert CallSound(d, c);
    CallMoves(d, next, c, GaveUp);
  }

  lemma TickSound(d: Device, next: Device)
    requires Orderly(d) && next == d.(clock := d.clock + 1)
    ensures Orderly(next)
  {
    SameAbsorbs(d.db);
    forall c | c in next.calls ensures CallSound(next, c) {
      CallStays(d, next, c);
    }
    AcksStay(d, next);
    WaitersStay(d, next);
    CancelsStay(d, next);
  }

  // ----- one act of an acknowledgement ----------------------------------------------------------------

  lemma LookUpStep(d: Device, next: Device, a: Id, signal: Signal)
    requires Orderly(d) && a in d.acks && d.acks[a].signal.Pending?
    requires signal == if d.acks[a].op in d.waiters then Found(d.waiters[d.acks[a].op], d.clock) else Nobody
    requires next == d.(acks := d.acks[a := d.acks[a].(signal := signal)], clock := d.clock + 1)
    ensures Orderly(next)
  {
    SameAbsorbs(d.db);
    forall c | c in next.calls ensures CallSound(next, c) {
      CallStays(d, next, c);
    }
    LookUpSound(d, next, a, signal);
    WaitersStay(d, next);
    CancelsStay(d, next);
  }

  lemma LookUpSound(d: Device, next: Device, a: Id, signal: Signal)
    requires WaitersOwned(d) && AcksSound(d) && CallsSound(d) && a in d.acks
    requires signal == if d.acks[a].op in d.waiters then Found(d.waiters[d.acks[a].op], d.clock) else Nobody
    requires next == d.(acks := d.acks[a := d.acks[a].(signal := signal)], clock := d.clock + 1)
    ensures AcksSound(next)
  {
    assert AckSound(d, a);
    if signal.Found? {
      assert IsInside(d, signal.call) && CallSound(d, signal.call);
    }
    forall b | b in next.acks ensures AckSound(next, b) {
      assert AckSound(d, b);
    }
  }

  lemma SendStep(d: Device, next: Device, a: Id, c: Id)
    requires Orderly(d) && a in d.acks && d.acks[a].signal.Found? && d.acks[a].signal.call == c
    requires IsWaiting(d, c) && d.calls[c].phase.inbox.None?
    requires next == d.(calls := WithPhase(d, c, d.calls[c].phase.(inbox := Some(a))), clock := d.clock + 1)
    ensures Orderly(next)
  {
    assert AckSound(d, a) && CallSound(d, c);
    CallMoves(d, next, c, d.calls[c].phase.(inbox := Some(a)));
  }

  // ----- steps of the ledger ------------------------------------------------------------------------------

  ghost predicate NoneNewlyCancelled(db: Db, after: Db) {
    forall o | o in after.ops && after.ops[o].status == OpCancelled :: o in db.ops && db.ops[o].status == OpCancelled
  }

  /** Only Cancel cancels. */
  lemma OthersDoNotCancel(db: Db, after: Db, step: Step)
    requires !step.CancelOp? && after == After(db, step)
    ensures NoneNewlyCancelled(db, after)
  {
    if IsReservationStep(step) {
      ReservationRows(db, after, step);
    } else if step.Report? {
      ReportDoesNotCancel(db, after, step.event, step.stored);
    } else {
      OperationStepDoesNotCancel(db, after, step);
    }
  }

  lemma OperationStepDoesNotCancel(db: Db, after: Db, step: Step)
    requires !step.CancelOp? && !step.Report? && !IsReservationStep(step) && after == After(db, step)
    ensures NoneNewlyCancelled(db, after)
  {
    match step
    case AskPickup(q) => AskPickupDoesNotCancel(db, after, q);
    case AskReturn(q) => AskReturnDoesNotCancel(db, after, q);
    case AskDispense(q) => AskDispenseDoesNotCancel(db, after, q);
    case Begin(op, now) => BeginDoesNotCancel(db, after, op, now);
    case DispatchFails(op, message, now) =>
      AbandonDoesNotCancel(db, after, op, Fails("DEVICE_COMMAND_FAILED", message), now);
    case TimeoutOp(op, now) => AbandonDoesNotCancel(db, after, op, TimesOut, now);
    case SetDevice(_, _) =>
    case SetUser(_, _) =>
    case SeeSlot(_, _) =>
  }

  lemma AskPickupDoesNotCancel(db: Db, after: Db, q: PickupRequest)
    requires after == StartPickup(db, q).db
    ensures NoneNewlyCancelled(db, after)
  {
    if after != db {
      InsertDoesNotCancel(db, db.(borrows := after.borrows), after, q.newOp, NewPickup(db, q).1);
    }
  }

  lemma AskReturnDoesNotCancel(db: Db, after: Db, q: ReturnRequest)
    requires after == StartReturn(db, q).db
    ensures NoneNewlyCancelled(db, after)
  {
    if after != db {
      InsertDoesNotCancel(db, db.(borrows := after.borrows), after, q.newOp, NewReturn(db, q));
    }
  }

  lemma AskDispenseDoesNotCancel(db: Db, after: Db, q: DispenseRequest)
    requires after == DirectDispense(db, q).db
    ensures NoneNewlyCancelled(db, after)
  {
    if after != db {
      InsertDoesNotCancel(db, db.(borrows := after.borrows), after, q.newOp, NewDispense(db, q).1);
    }
  }

  lemma InsertDoesNotCancel(db: Db, rows: Db, after: Db, id: Id, op: Operation)
    requires rows.ops == db.ops && InsertOp(rows, id, op) == Commit(after)
    ensures NoneNewlyCancelled(db, after)
  {
  }

  lemma BeginDoesNotCancel(db: Db, after: Db, id: Id, now: Time)
    requires after == Applied(db, BeginExecution(db, id, now))
    ensures NoneNewlyCancelled(db, after)
  {
  }

  lemma AbandonDoesNotCancel(db: Db, after: Db, id: Id, how: Ending, now: Time)
    requires !how.IsCancelled? && after == Applied(db, Abandon(db, id, how, now))
    ensures NoneNewlyCancelled(db, after)
  {
  }

  lemma ReportDoesNotCancel(db: Db, after: Db, ev: DeviceEvent, stored: bool)
    requires after == Applied(db, OnDeviceEvent(db, ev, stored))
    ensures NoneNewlyCancelled(db, after)
  {
    if ev.op !in db.ops || db.ops[ev.op].deviceId != ev.deviceId {
      assert after == db;
    } else if ReportsSuccess(ev.etype) {
      if db.ops[ev.op].action == Pickup {
        PickupDoesNotCancel(db, after, ev.op, ev.at);
      } else {
        ReturnDoesNotCancel(db, after, ev.op, ev.at);
      }
    } else if ReportsFailure(ev.etype) {
      AbandonDoesNotCancel(db, after, ev.op, Fails(ev.code, ev.message), ev.at);
    } else {
      RecordOnly(db, after, ev, stored);
    }
  }

  lemma PickupDoesNotCancel(db: Db, after: Db, id: Id, now: Time)
    requires after == Applied(db, CompletePickup(db, id, now))
    ensures NoneNewlyCancelled(db, after)
  {
    if !Active(db, id) || CompletePickup(db, id, now).Rollback? {
      PickupElse(db, after, id, now);
    }
  }

  lemma ReturnDoesNotCancel(db: Db, after: Db, id: Id, now: Time)
    requires after == Applied(db, CompleteReturn(db, id, now))
    ensures NoneNewlyCancelled(db, after)
  {
    if !Active(db, id) || CompleteReturn(db, id, now).Rollback? {
      ReturnElse(db, after, id, now);
    }
  }

  /** The ledger moves under the protocol, cancelling nothing; an acknowledgement may have come in. */
  lemma LedgerMoves(d: Device, next: Device)
    requires Orderly(d) && Absorbed(d.db, next.db) && NoneNewlyCancelled(d.db, next.db)
    requires next == d.(db := next.db, acks := next.acks, clock := d.clock + 1)
    requires forall a | a in d.acks :: a in next.acks && next.acks[a] == d.acks[a]
    requires forall a | a in next.acks && a !in d.acks ::
             next.acks[a].handledAt < next.clock && next.acks[a].signal.Pending?
    ensures Orderly(next)
  {
    forall c | c in next.calls ensures CallSound(next, c) {
      CallStays(d, next, c);
    }
    forall a | a in next.acks ensures AckSound(next, a) {
      if a in d.acks {
        assert AckSound(d, a);
      }
    }
    WaitersStay(d, next);
    CancelsStay(d, next);
  }

  lemma StepFacts(db: Db, after: Db, step: Step)
    requires Coupled(db) && after == After(db, step)
    ensures Coupled(after) && Absorbed(db, after)
    ensures !step.CancelOp? ==> NoneNewlyCancelled(db, after)
  {
    StepKeeps(db, step);
    StepMoves(db, step);
    MoveAbsorbs(db, after);
    if !step.CancelOp? {
      OthersDoNotCancel(db, after, step);
    }
  }

  lemma OtherStep(d: Device, next: Device, step: Step)
    requires Sound(d) && !step.CancelOp? && next == d.(db := After(d.db, step), clock := d.clock + 1)
    ensures Sound(next)
  {
    StepFacts(d.db, next.db, step);
    LedgerMoves(d, next);
  }

  lemma HandleStep(d: Device, next: Device, a: Id, ack: Ack, step: Step, tx: Tx)
    requires Sound(d) && a !in d.acks && ack.handledAt == d.clock && ack.signal.Pending?
    requires step.Report? && tx == OnDeviceEvent(d.db, step.event, step.stored) && tx.Commit?
    requires next == d.(db := tx.db, acks := d.acks[a := ack], clock := d.clock + 1)
    ensures Sound(next)
  {
    ReportFacts(d.db, next.db, step.event, step.stored);
    AckOrderly(d, next, a, ack);
  }

  lemma ReportFacts(db: Db, after: Db, ev: DeviceEvent, stored: bool)
    requires Coupled(db) && OnDeviceEvent(db, ev, stored) == Commit(after)
    ensures Coupled(after) && Absorbed(db, after) && NoneNewlyCancelled(db, after)
  {
    ReportMoves(db, after, ev, stored);
    ReportShapeFacts(db, after, ev.op);
    ReportDoesNotCancel(db, after, ev, stored);
  }

  lemma ReportShapeFacts(db: Db, after: Db, id: Id)
    requires Coupled(db) && (after == db || Finished(db, after, id) || OnlyTouched(db, after))
    ensures Coupled(after) && Absorbed(db, after)
  {
    if after == db {
      SameAbsorbs(db);
    } else {
      MoveKeeps(db, after);
      MoveAbsorbs(db, after);
    }
  }

  /** Fail, Timeout and Cancel, whether they find the operation active or not. */
  lemma AbandonFacts(db: Db, after: Db, id: Id, how: Ending, now: Time)
    requires Coupled(db) && after == Applied(db, Abandon(db, id, how, now))
    ensures Coupled(after) && Absorbed(db, after)
  {
    AbandonMoves(db, after, id, how, now);
    AbandonShapeFacts(db, after, id);
  }

  lemma AbandonShapeFacts(db: Db, after: Db, id: Id)
    requires Coupled(db) && (after == db || Abandons(db, after, id))
    ensures Coupled(after) && Absorbed(db, after)
  {
    if after == db {
      SameAbsorbs(db);
    } else {
      AbandonsKeeps(db, after, id);
      EndAbsorbs(db, after, id);
    }
  }

  lemma AckOrderly(d: Device, next: Device, a: Id, ack: Ack)
    requires Orderly(d) && Absorbed(d.db, next.db) && NoneNewlyCancelled(d.db, next.db)
    requires a !in d.acks && ack.handledAt == d.clock && ack.signal.Pending?
    requires next == d.(db := next.db, acks := d.acks[a := ack], clock := d.clock + 1)
    ensures Orderly(next)
  {
    LedgerMoves(d, next);
  }

  // ----- the write ---------------------------------------------------------------------------------------------

  lemma SweepWrite(d: Device, next: Device, c: Id, step: Step)
    requires Sound(d) && c in d.calls && (d.calls[c].phase.Cleared? || d.calls[c].phase.HasRead?)
    requires step.TimeoutOp? && next.db == Applied(d.db, Timeout(d.db, step.op, step.now))
    requires next == d.(db := next.db, calls := WithPhase(d, c, GaveUp), clock := d.clock + 1)
    ensures Sound(next)
  {
    TimeoutFacts(d.db, next.db, step);
    SweepOrderly(d, next, c);
  }

  lemma TimeoutFacts(db: Db, after: Db, step: Step)
    requires Coupled(db) && step.TimeoutOp? && after == Applied(db, Timeout(db, step.op, step.now))
    ensures Coupled(after) && Absorbed(db, after) && NoneNewlyCancelled(db, after)
  {
    AbandonFacts(db, after, step.op, TimesOut, step.now);
    AbandonDoesNotCancel(db, after, step.op, TimesOut, step.now);
  }

  lemma SweepOrderly(d: Device, next: Device, c: Id)
    requires Orderly(d) && c in d.calls && (d.calls[c].phase.Cleared? || d.calls[c].phase.HasRead?)
    requires Absorbed(d.db, next.db) && NoneNewlyCancelled(d.db, next.db)
    requires next == d.(db := next.db, calls := WithPhase(d, c, GaveUp), clock := d.clock + 1)
    ensures Orderly(next)
  {
    assert CallSound(d, c);
    OneMoves(d, next, c);
    OneKeepsWaiters(d, next, c);
    OneCancelsNothing(d, next, c);
  }

  /** Cancel ends an active operation, which no call can have cancelled before. */
  lemma CancelCommits(d: Device, next: Device, c: Id, consent: Option<Consent>, step: Step)
    requires Sound(d) && c in d.calls && !d.calls[c].sweeping
    requires consent == if d.calls[c].phase.Cleared? then d.calls[c].phase.consent else None
    requires d.calls[c].phase.Cleared? || (d.calls[c].phase.HasRead? && !ReadRunning(d.calls[c]))
    requires step.CancelOp? && step.op == d.calls[c].op && Cancel(d.db, step.op, step.now) == Commit(next.db)
    requires next == d.(db := next.db, calls := WithPhase(d, c, Cancelled(consent)), clock := d.clock + 1)
    ensures Sound(next)
  {
    CancelFacts(d.db, next.db, step);
    CancelOrderly(d, next, c, consent);
  }

  lemma CancelFacts(db: Db, after: Db, step: Step)
    requires Coupled(db) && step.CancelOp? && Cancel(db, step.op, step.now) == Commit(after)
    ensures Coupled(after) && Absorbed(db, after) && Active(db, step.op)
    ensures after.ops.Keys == db.ops.Keys && after.ops[step.op].status == OpCancelled
    ensures forall o | o in db.ops && o != step.op :: after.ops[o] == db.ops[o]
  {
    AbandonFacts(db, after, step.op, IsCancelled, step.now);
    CancelCancels(db, after, step.op, step.now);
  }

  lemma CancelCancels(db: Db, after: Db, op: Id, now: Time)
    requires Cancel(db, op, now) == Commit(after)
    ensures Active(db, op) && after.ops.Keys == db.ops.Keys && after.ops[op].status == OpCancelled
    ensures forall o | o in db.ops && o != op :: after.ops[o] == db.ops[o]
  {
  }

  lemma CancelOrderly(d: Device, next: Device, c: Id, consent: Option<Consent>)
    requires Orderly(d) && c in d.calls && !d.calls[c].sweeping
    requires consent == if d.calls[c].phase.Cleared? then d.calls[c].phase.consent else None
    requires d.calls[c].phase.Cleared? || (d.calls[c].phase.HasRead? && !ReadRunning(d.calls[c]))
    requires Absorbed(d.db, next.db) && Active(d.db, d.calls[c].op)
    requires next.db.ops.Keys == d.db.ops.Keys && next.db.ops[d.calls[c].op].status == OpCancelled
    requires forall o | o in d.db.ops && o != d.calls[c].op :: next.db.ops[o] == d.db.ops[o]
    requires next == d.(db := next.db, calls := WithPhase(d, c, Cancelled(consent)), clock := d.clock + 1)
    ensures Orderly(next)
  {
    CancelledSound(d, next, c, consent);
    OneMoves(d, next, c);
    OneKeepsWaiters(d, next, c);
    OneCancels(d, next, c, consent);
  }

  lemma CancelledSound(d: Device, next: Device, c: Id, consent: Option<Consent>)
    requires c in d.calls && CallSound(d, c) && !d.calls[c].sweeping && Later(d, next)
    requires consent == if d.calls[c].phase.Cleared? then d.calls[c].phase.consent else None
    requires d.calls[c].phase.Cleared? || (d.calls[c].phase.HasRead? && !ReadRunning(d.calls[c]))
    requires d.calls[c].op in next.db.ops && next.db.ops[d.calls[c].op].status == OpCancelled
    requires next.calls == WithPhase(d, c, Cancelled(consent))
    ensures CallSound(next, c)
  {
    ConsentStays(d, next, c, consent);
  }

  lemma OneCancels(d: Device, next: Device, c: Id, consent: Option<Consent>)
    requires CallsSound(d) && CancelsCalled(d) && c in d.calls && !d.calls[c].phase.Cancelled?
    requires Active(d.db, d.calls[c].op)
    requires next.calls == WithPhase(d, c, Cancelled(consent)) && next.db.ops.Keys == d.db.ops.Keys
    requires forall o | o in d.db.ops && o != d.calls[c].op :: next.db.ops[o] == d.db.ops[o]
    ensures CancelsCalled(next)
  {
    var op := d.calls[c].op;
    forall o, x ensures CancelledBy(next, o, x) <==> (o == c && x == op) || CancelledBy(d, o, x) {}
    assert forall o :: !CancelledBy(d, o, op) by {
      if o :| CancelledBy(d, o, op) {
        NotCancelledYet(d, o, op);
      }
    }
    forall x | x in next.db.ops && next.db.ops[x].status == OpCancelled ensures exists o :: CancelledBy(next, o, x) {
      if x == op {
        assert CancelledBy(next, c, x);
      } else {
        var o :| CancelledBy(d, o, x);
        assert CancelledBy(next, o, x);
      }
    }
  }

  lemma NotCancelledYet(d: Device, c: Id, op: Id)
    requires CallsSound(d) && CancelledBy(d, c, op)
    ensures !Active(d.db, op)
  {
    assert CallSound(d, c);
  }

  // ----- runs ---------------------------------------------------------------------------------------------------

  lemma NextSound(d: Device, next: Device, act: Act)
    requires Sound(d) && next == Next(d, act)
    ensures Sound(next)
  {
    if !Enabled(d, act) {
      TickSound(d, next);
    } else if act.Otherwise? {
      OtherStep(d, next, act.step);
    } else if act.HandleAck? {
      HandleAct(d, next, act.ack, act.event);
    } else if act.Write? {
      WriteStep(d, next, act.call, act.now);
    } else {
      TalkStep(d, next, act);
    }
  }

  lemma HandleAct(d: Device, next: Device, a: Id, ev: DeviceEvent)
    requires Sound(d) && Enabled(d, HandleAck(a, ev))
    requires next == Effect(d, HandleAck(a, ev)).(clock := d.clock + 1)
    ensures Sound(next)
  {
    var ack := Ack(ev.op, ev.etype == EvAbortAck, d.clock, Pending);
    HandleStep(d, next, a, ack, Report(ev, true), OnDeviceEvent(d.db, ev, true));
  }

  lemma TalkStep(d: Device, next: Device, act: Act)
    requires Orderly(d) && Enabled(d, act) && !act.HandleAck? && !act.Write? && !act.Otherwise?
    requires next == Talk(d, act).(clock := d.clock + 1)
    ensures Orderly(next) && next.db == d.db
  {
    match act
    case Read(c, op, sweeping) => ReadStep(d, next, c, op, sweeping);
    case Register(c) => if d.calls[c].op in d.waiters { RefusedStep(d, next, c); } else { RegisterStep(d, next, c); }
    case LookUp(a) => LookUpStep(d, next, a, next.acks[a].signal);
    case Send(a) =>
      var c := d.acks[a].signal.call;
      if IsWaiting(d, c) && d.calls[c].phase.inbox.None? { SendStep(d, next, a, c); } else { TickSound(d, next); }
    case Receive(c) => ReceiveStep(d, next, c, next.calls[c].phase.consent);
    case StopWaiting(c) => StopStep(d, next, c);
    case Leave(c) => LeaveStep(d, next, c);
  }

  lemma WriteStep(d: Device, next: Device, c: Id, now: Time)
    requires Sound(d) && Enabled(d, Write(c, now)) && next == Written(d, c, now).(clock := d.clock + 1)
    ensures Sound(next)
  {
    var op := d.calls[c].op;
    if d.calls[c].sweeping {
      SweepWrite(d, next, c, TimeoutOp(op, now));
    } else if Cancel(d.db, op, now).Commit? {
      var consent := if d.calls[c].phase.Cleared? then d.calls[c].phase.consent else None;
      CancelCommits(d, next, c, consent, CancelOp(op, now));
    } else {
      GivesUp(d, next, c);
    }
  }

  lemma {:induction false} RunSound(d: Device, acts: seq<Act>)
    requires Sound(d)
    ensures Sound(RunActs(d, acts))
  {
    if acts != [] {
      RunSound(d, acts[..|acts| - 1]);
      NextSound(RunActs(d, acts[..|acts| - 1]), RunActs(d, acts), acts[|acts| - 1]);
    }
  }

  /**
   * Cancel implies consent: every cancelled operation was cancelled by exactly one call, and
   * if that call had read it SENT or EXECUTING, a successful acknowledgement for the operation
   * was matched to the call after it had registered its waiter. Waiters belong to running calls.
   */
  lemma CancelImpliesConsent(d: Device, acts: seq<Act>, op: Id)
    requires Sound(d)
    requires op in RunActs(d, acts).db.ops && RunActs(d, acts).db.ops[op].status == OpCancelled
    ensures var end := RunActs(d, acts);
            exists c :: CancelledBy(end, c, op)
                        && (ReadRunning(end.calls[c]) <==> end.calls[c].phase.why.Some?)
                        && (ReadRunning(end.calls[c]) ==> Consented(end, c, end.calls[c].phase.why.value))
                        && (forall other | CancelledBy(end, other, op) :: other == c)
    ensures WaitersOwned(RunActs(d, acts))
  {
    RunSound(d, acts);
    var end := RunActs(d, acts);
    var c :| CancelledBy(end, c, op);
    assert CallSound(end, c);
  }

  /** A successful cancel and a completed pickup or return exclude each other, at any later time. */
  lemma CancelExcludesCompletion(d: Device, acts: seq<Act>, c: Id)
    requires Sound(d)
    requires c in RunActs(d, acts).calls && RunActs(d, acts).calls[c].phase.Cancelled?
    ensures var end := RunActs(d, acts);
            end.calls[c].op in end.db.ops && end.db.ops[end.calls[c].op].status == OpCancelled
  {
    RunSound(d, acts);
    assert CallSound(RunActs(d, acts), c);
  }

  // ----- the gap ---------------------------------------------------------------------------------------------------

  /**
   * The status is read once: a cancel that read AUTHORIZED commits without asking the
   * cabinet even if the operation has been handed to it in between.
   */
  lemma CancelWithoutConsent(d: Device, c: Id, op: Id, now: Time)
    requires c !in d.calls && op in d.db.ops && d.db.ops[op].status == OpAuthorized
    ensures var end := Next(Next(Next(d, Read(c, op, false)), Otherwise(Begin(op, now))), Write(c, now));
            && op in end.db.ops && end.db.ops[op].status == OpCancelled && end.db.ops[op].sentAt == Some(now)
            && CancelledBy(end, c, op) && end.calls[c].phase.why.None?
  {
    var one := Next(d, Read(c, op, false));
    var two := Next(one, Otherwise(Begin(op, now)));
    BeginSends(d.db, two.db, op, now);
    assert two.calls[c] == Call(op, false, OpAuthorized, HasRead);
    WritesAtOnce(two, Next(two, Write(c, now)), c, now);
  }

  lemma WritesAtOnce(d: Device, next: Device, c: Id, now: Time)
    requires c in d.calls && d.calls[c].phase.HasRead? && !d.calls[c].sweeping && !ReadRunning(d.calls[c])
    requires Active(d.db, d.calls[c].op) && next == Next(d, Write(c, now))
    ensures var op := d.calls[c].op;
            && op in next.db.ops && next.db.ops[op].status == OpCancelled
            && next.db.ops[op].sentAt == d.db.ops[op].sentAt
            && CancelledBy(next, c, op) && next.calls[c].phase.why.None?
  {
    var op := d.calls[c].op;
    assert Cancel(d.db, op, now) == Commit(next.db);
    CancelCancels(d.db, next.db, op, now);
    CancelKeepsSent(d.db, next.db, op, now);
  }

  lemma BeginSends(db: Db, after: Db, op: Id, now: Time)
    requires op in db.ops && db.ops[op].status == OpAuthorized && after == After(db, Begin(op, now))
    ensures Active(after, op) && after.ops[op].sentAt == Some(now)
  {
  }

  lemma CancelKeepsSent(db: Db, after: Db, op: Id, now: Time)
    requires Cancel(db, op, now) == Commit(after)
    ensures after.ops[op].sentAt == db.ops[op].sentAt
  {
  }
}
