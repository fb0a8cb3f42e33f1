/**
 * At most one physical start per request: calls of the start services, their
 * begin-dispatch-fail tails, and every other step of the ledger, interleaved.
 */
module Dispatch {
  import opened LedgerTypes
  import opened OperationTx
  import opened Services
  import opened Steps
  import opened Coupling
  import opened Moves
  import opened CouplingRuns

  // ----- idempotent requests ----------------------------------------------------------

  /** A retry of a pickup request that names another user, task, reservation or cabinet is refused. */
  lemma PickupRetry(db: Db, q: PickupRequest)
    requires RequestIndex(db) && q.request in db.requests
    requires q.user != BLANK && q.reservation != BLANK && q.request != BLANK
    ensures StartPickup(db, q).db == db
    ensures var first := db.ops[db.requests[q.request]];
            StartPickup(db, q).reply ==
              if !Verified(db, q.user) || first.userId != q.user then Refused(Forbidden)
              else if first.action == Pickup && first.reservationId == q.reservation
                  && q.cabinet in {BLANK, first.deviceId}
              then Existing(db.requests[q.request]) else Refused(Conflict)
  {
  }

  lemma ReturnRetry(db: Db, q: ReturnRequest)
    requires RequestIndex(db) && q.request in db.requests
    requires q.user != BLANK && q.borrow != BLANK && q.request != BLANK
    ensures StartReturn(db, q).db == db
    ensures var first := db.ops[db.requests[q.request]];
            StartReturn(db, q).reply ==
              if first.userId != q.user then Refused(Forbidden)
              else if first.action == Return && first.borrowId == q.borrow && q.device in {BLANK, first.deviceId}
              then Existing(db.requests[q.request]) else Refused(Conflict)
  {
  }

  /**
   * Direct dispensing is laxer: a retry by room number is answered with any pickup of that
   * user at that cabinet, and the reservation behind it is not compared.
   */
  lemma DispenseRetry(db: Db, q: DispenseRequest)
    requires RequestIndex(db) && q.request in db.requests
    requires q.request != BLANK && q.device != BLANK && (q.room != BLANK || q.key != BLANK)
    requires q.device in db.devices && db.devices[q.device] == Online && q.user != BLANK && Verified(db, q.user)
    ensures DirectDispense(db, q).db == db
    ensures var first := db.ops[db.requests[q.request]];
            DirectDispense(db, q).reply ==
              if first.userId == q.user && first.action == Pickup && first.deviceId == q.device
                  && q.key in {BLANK, first.keyId}
              then Existing(db.requests[q.request]) else Refused(Conflict)
  {
  }

  // ----- calls in flight ------------------------------------------------------------------

  /** Where a call of a start service stands after its check-and-prepare. */
  datatype Call =
    | Ready(op: Id)       // prepared, BeginExecution is next
    | Begun(op: Id)       // EXECUTING, the gateway call is next
    | Undone(op: Id)      // the gateway refused, Fail is next
    | Done

  /** The ledger, the calls in flight, and the start commands handed to the gateway. */
  datatype World = World(db: Db, calls: map<Id, Call>, starts: seq<Id>)

  datatype Act =
    | Ask(call: Id, step: Step)
    | BeginCall(call: Id, now: Time)
    | Command(call: Id, sent: bool)
    | FailCall(call: Id, message: string, now: Time)
    | Otherwise(step: Step)

  predicate IsAsk(step: Step) {
    step.AskPickup? || step.AskReturn? || step.AskDispense?
  }

  function Answer(db: Db, step: Step): Reply
    requires IsAsk(step)
  {
    match step
    case AskPickup(q) => StartPickup(db, q).reply
    case AskReturn(q) => StartReturn(db, q).reply
    case AskDispense(q) => DirectDispense(db, q).reply
  }

  /** BeginExecution is only ever called by dispatchPrepared and DirectDispense, so `Otherwise` excludes it. */
  predicate Enabled(w: World, act: Act) {
    match act
    case Ask(call, step) => call !in w.calls && IsAsk(step)
    case BeginCall(call, _) => call in w.calls && w.calls[call].Ready?
    case Command(call, _) => call in w.calls && w.calls[call].Begun?
    case FailCall(call, _, _) => call in w.calls && w.calls[call].Undone?
    case Otherwise(step) => !IsAsk(step) && !step.Begin?
  }

  /**
   * An act that is not enabled does not happen. A start command counts even if the gateway
   * then reports an error: it may have been published.
   */
  function Next(w: World, act: Act): World {
    if !Enabled(w, act) then w else
    match act
    case Ask(call, step) =>
      var reply := Answer(w.db, step);
      World(After(w.db, step), w.calls[call := if reply.Prepared? then Ready(reply.op) else Done], w.starts)
    case BeginCall(call, now) =>
      var op := w.calls[call].op;
      World(After(w.db, Begin(op, now)),
            w.calls[call := if BeginExecution(w.db, op, now).Commit? then Begun(op) else Done], w.starts)
    case Command(call, sent) =>
      var op := w.calls[call].op;
      World(w.db, w.calls[call := if sent then Done else Undone(op)], w.starts + [op])
    case FailCall(call, message, now) =>
      World(After(w.db, DispatchFails(w.calls[call].op, message, now)), w.calls[call := Done], w.starts)
    case Otherwise(step) => w.(db := After(w.db, step))
  }

  function RunActs(w: World, acts: seq<Act>): World {
    if acts == [] then w else Next(RunActs(w, acts[..|acts| - 1]), acts[|acts| - 1])
  }

  // ----- the invariant -----------------------------------------------------------------------

  predicate IsBegun(w: World, c: Id, o: Id) {
    c in w.calls && w.calls[c] == Begun(o)
  }

  /** The operation has left AUTHORIZED for good. */
  predicate Dispatched(db: Db, o: Id) {
    o in db.ops && db.ops[o].status != OpAuthorized && db.ops[o].status != OpCreated
  }

  ghost predicate StartsOnce(w: World) {
    && Coupled(w.db)
    && (forall o | o in w.starts :: Dispatched(w.db, o))
    && (forall c, o | IsBegun(w, c, o) :: Dispatched(w.db, o) && o !in w.starts)
    && (forall c1, c2, o | IsBegun(w, c1, o) && IsBegun(w, c2, o) :: c1 == c2)
    && (forall i, j | 0 <= i < j < |w.starts| :: w.starts[i] != w.starts[j])
  }

  lemma MoveStaysDispatched(db: Db, after: Db)
    requires Moved(db, after)
    ensures forall o | Dispatched(db, o) :: Dispatched(after, o)
  {
    if OnlyTouched(db, after) || OnlySeen(db, after) || OnlyReserves(db, after) {
    } else if id :| Began(db, after, id) {
      StartStaysDispatched(db, after, id);
    } else {
      var id :| Finished(db, after, id);
      EndStaysDispatched(db, after, id);
    }
  }

  lemma StartStaysDispatched(db: Db, after: Db, id: Id)
    requires Starts(db, after, id)
    ensures forall o | Dispatched(db, o) :: Dispatched(after, o)
  {
  }

  lemma EndStaysDispatched(db: Db, after: Db, id: Id)
    requires Ends(db, after, id)
    ensures forall o | Dispatched(db, o) :: Dispatched(after, o)
  {
  }

  /** A step of the ledger that touches neither calls nor commands. */
  lemma LedgerStep(w: World, next: World, step: Step)
    requires StartsOnce(w) && next.db == After(w.db, step) && next.starts == w.starts
    requires forall c, o :: IsBegun(next, c, o) ==> IsBegun(w, c, o)
    ensures StartsOnce(next)
  {
    StepMoves(w.db, step);
    MoveKeeps(w.db, next.db);
    MoveStaysDispatched(w.db, next.db);
  }

  /** BeginExecution succeeds only on AUTHORIZED, so nobody else has started or begun the operation. */
  lemma BeginStep(w: World, next: World, call: Id, now: Time)
    requires StartsOnce(w) && Enabled(w, BeginCall(call, now)) && next == Next(w, BeginCall(call, now))
    ensures StartsOnce(next)
  {
    var op := w.calls[call].op;
    if BeginExecution(w.db, op, now).Commit? {
      BeginDispatches(w.db, next.db, op, now);
      BegunCall(w, next, call, op);
    } else {
      LedgerStep(w, next, Begin(op, now));
    }
  }

  lemma BegunCall(w: World, next: World, call: Id, op: Id)
    requires StartsOnce(w) && Coupled(next.db) && next.starts == w.starts && next.calls == w.calls[call := Begun(op)]
    requires !Dispatched(w.db, op) && Dispatched(next.db, op)
    requires forall o | Dispatched(w.db, o) :: Dispatched(next.db, o)
    ensures StartsOnce(next)
  {
    forall c, o | IsBegun(next, c, o) ensures (c == call && o == op) || (c != call && IsBegun(w, c, o)) {}
  }

  lemma BeginDispatches(db: Db, after: Db, op: Id, now: Time)
    requires Coupled(db) && BeginExecution(db, op, now) == Commit(after)
    ensures Coupled(after) && !Dispatched(db, op) && Dispatched(after, op)
    ensures forall o | Dispatched(db, o) :: Dispatched(after, o)
  {
    BeginOnly(db, after, op, now);
    TouchKeeps(db, after);
    MoveStaysDispatched(db, after);
  }

  lemma CommandStep(w: World, next: World, call: Id, sent: bool)
    requires StartsOnce(w) && Enabled(w, Command(call, sent)) && next == Next(w, Command(call, sent))
    ensures StartsOnce(next)
  {
    var op := w.calls[call].op;
    assert IsBegun(w, call, op);
    forall c, o | IsBegun(next, c, o) ensures c != call && o != op && IsBegun(w, c, o) {
      assert c != call && IsBegun(w, c, o);
    }
  }

  lemma NextStartsOnce(w: World, act: Act)
    requires StartsOnce(w)
    ensures StartsOnce(Next(w, act))
  {
    var next := Next(w, act);
    if !Enabled(w, act) {
      return;
    }
    match act
    case Ask(call, step) =>
      forall c, o | IsBegun(next, c, o) ensures IsBegun(w, c, o) {}
      LedgerStep(w, next, step);
    case BeginCall(call, now) => BeginStep(w, next, call, now);
    case Command(call, sent) => CommandStep(w, next, call, sent);
    case FailCall(call, message, now) =>
      forall c, o | IsBegun(next, c, o) ensures IsBegun(w, c, o) {}
      LedgerStep(w, next, DispatchFails(w.calls[call].op, message, now));
    case Otherwise(step) => LedgerStep(w, next, step);
  }

  lemma {:induction false} RunStartsOnce(w: World, acts: seq<Act>)
    requires StartsOnce(w)
    ensures StartsOnce(RunActs(w, acts))
  {
    if acts != [] {
      RunStartsOnce(w, acts[..|acts| - 1]);
      NextStartsOnce(RunActs(w, acts[..|acts| - 1]), acts[|acts| - 1]);
    }
  }

  /**
   * Over any interleaving of calls and steps, two start commands never serve the same
   * request id: each request has one operation, and each operation one command.
   */
  lemma OneStartPerRequest(w: World, acts: seq<Act>, i: nat, j: nat)
    requires StartsOnce(w)
    requires i < j < |RunActs(w, acts).starts|
    ensures var end := RunActs(w, acts);
            && end.starts[i] in end.db.ops && end.starts[j] in end.db.ops
            && end.db.ops[end.starts[i]].requestId != end.db.ops[end.starts[j]].requestId
  {
    RunStartsOnce(w, acts);
    var end := RunActs(w, acts);
    assert end.starts[i] in end.starts && end.starts[j] in end.starts;
  }
}
