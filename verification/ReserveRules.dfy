/**
 * Reservations, column by column: who is granted which time, what reviewing, cancelling and
 * expiring make of a reservation and its key, and that over every run none expires early.
 */
module ReserveRules {
  import opened LedgerTypes
  import opened OperationTx
  import opened ReservationTx
  import opened Services
  import opened Steps
  import opened StartRules
  import opened EndRows

  predicate Pending(r: Reservation) {
    r.status in {ResPending, ResApproved, ResActive}
  }

  lemma PendingMeans(r: Reservation)
    ensures Pending(r) <==> IsActiveReservation(r.status)
  {
    match r.status
    case ResPending => case ResApproved => case ResActive =>
    case ResUsed => case ResRejected => case ResCancelled => case ResExpired =>
  }

  /** Some reservation other than `r` still holds the key. */
  ghost predicate HeldByAnother(db: Db, key: Id, r: Id) {
    exists other | other in db.reservations && other != r ::
      db.reservations[other].keyId == key && Pending(db.reservations[other])
  }

  /** The reservation has the new status and is otherwise as it was. */
  predicate Turned(db: Db, after: Db, id: Id, status: ReservationStatus, usedAt: Option<Time>)
    requires id in db.reservations
  {
    after.reservations == db.reservations[id := db.reservations[id].(status := status, usedAt := usedAt)]
  }

  /** Its key goes from RESERVED to AVAILABLE, unless another reservation holds it. */
  ghost predicate KeyLetGo(db: Db, after: Db, id: Id)
    requires id in db.reservations
  {
    var key := db.reservations[id].keyId;
    after.keys == if key in db.keys && db.keys[key].status == KeyReserved && !HeldByAnother(db, key, id)
                  then db.keys[key := db.keys[key].(status := KeyAvailable)] else db.keys
  }

  /** Nothing but reservations and keys. */
  predicate NothingElse(db: Db, after: Db) {
    after == db.(reservations := after.reservations, keys := after.keys)
  }

  lemma LetGo(db: Db, ended: Db, after: Db, id: Id)
    requires id in db.reservations && after == ReleaseKey(ended, db.reservations[id].keyId)
    requires ended == db.(reservations := ended.reservations) && id in ended.reservations
    requires ended.reservations == db.reservations[id := ended.reservations[id]] && !Pending(ended.reservations[id])
    ensures KeyLetGo(db, after, id) && NothingElse(db, after) && after.reservations == ended.reservations
  {
    var key := db.reservations[id].keyId;
    forall r | r in ended.reservations
      ensures ActiveFor(ended, r, key)
              <==> r != id && db.reservations[r].keyId == key && Pending(db.reservations[r])
    {
      PendingMeans(ended.reservations[r]);
    }
    if HeldByAnother(db, key, id) {
      var other :| other in db.reservations && other != id && db.reservations[other].keyId == key
                   && Pending(db.reservations[other]);
      assert ActiveFor(ended, other, key);
    }
  }

  // ----- reviewing and cancelling --------------------------------------------------------------------

  /**
   * A review of a pending reservation: approved it is APPROVED and keeps its key, rejected it is
   * REJECTED and lets go of it. With its window over it expires, whatever the review says, and that
   * is committed although the review is refused.
   */
  lemma ReviewRows(db: Db, id: Id, approved: bool, now: Time)
    requires id in db.reservations && db.reservations[id].status == ResPending
    ensures var r := db.reservations[id];
            var (tx, done) := Review(db, id, approved, now);
            if now >= r.windowEnd then
              !done && tx.Commit? && Turned(db, tx.db, id, ResExpired, r.usedAt) && KeyLetGo(db, tx.db, id)
              && NothingElse(db, tx.db)
            else if r.userId !in db.users then !done && tx == Rollback(NotFound)
            else if !ActiveVerified(db, r.userId) then !done && tx == Rollback(InvalidState)
            else if approved then
              done && tx.Commit? && Turned(db, tx.db, id, ResApproved, r.usedAt) && tx.db.keys == db.keys
              && NothingElse(db, tx.db)
            else
              done && tx.Commit? && Turned(db, tx.db, id, ResRejected, r.usedAt) && KeyLetGo(db, tx.db, id)
              && NothingElse(db, tx.db)
  {
    var r := db.reservations[id];
    if now >= r.windowEnd {
      var ended := db.(reservations := db.reservations[id := r.(status := ResExpired)]);
      LetGo(db, ended, ReleaseKey(ended, r.keyId), id);
    } else if !approved {
      var ended := db.(reservations := db.reservations[id := r.(status := ResRejected)]);
      LetGo(db, ended, ReleaseKey(ended, r.keyId), id);
    }
  }

  /** Anything else is not reviewed. */
  lemma NotReviewed(db: Db, id: Id, approved: bool, now: Time)
    requires id in db.reservations ==> db.reservations[id].status != ResPending
    ensures Review(db, id, approved, now)
            == (Rollback(if id in db.reservations then InvalidState else NotFound), false)
  {
  }

  /** A user cancels: exactly an own reservation that has not ended, which is CANCELLED and lets go of its key. */
  lemma CancelReservationRows(db: Db, user: Id, id: Id)
    requires BLANK !in db.reservations
    ensures var tx := CancelReservation(db, db, user, id);
            if id == BLANK then tx == Rollback(InvalidInput)
            else if id !in db.reservations || db.reservations[id].userId != user then tx == Rollback(NotFound)
            else if !Pending(db.reservations[id]) then tx == Rollback(InvalidState)
            else tx.Commit? && Turned(db, tx.db, id, ResCancelled, None) && KeyLetGo(db, tx.db, id)
                 && NothingElse(db, tx.db)
  {
    if id in db.reservations {
      PendingMeans(db.reservations[id]);
      var ended := db.(reservations := db.reservations[id :=
                         db.reservations[id].(status := ResCancelled, usedAt := None)]);
      LetGo(db, ended, ReleaseKey(ended, db.reservations[id].keyId), id);
    }
  }

  // ----- expiring ----------------------------------------------------------------------------------------

  /** A reservation whose pickup window has passed unused. */
  predicate WindowPassed(r: Reservation, now: Time) {
    Pending(r) && r.windowEnd < now
  }

  function PassedIds(db: Db, now: Time): set<Id> {
    set r | r in db.reservations && WindowPassed(db.reservations[r], now)
  }

  /** The key loses a reservation, and there is no other. */
  ghost predicate LosesAll(db: Db, key: Id, now: Time) {
    && (exists r | r in db.reservations :: db.reservations[r].keyId == key && WindowPassed(db.reservations[r], now))
    && (forall r | r in db.reservations && db.reservations[r].keyId == key && Pending(db.reservations[r]) ::
          WindowPassed(db.reservations[r], now))
  }

  /** What an expiry sweep does to each row. */
  ghost predicate WindowsSwept(db: Db, after: Db, now: Time) {
    && NothingElse(db, after)
    && after.reservations.Keys == db.reservations.Keys && after.keys.Keys == db.keys.Keys
    && (forall r | r in db.reservations ::
          after.reservations[r]
          == if WindowPassed(db.reservations[r], now) then db.reservations[r].(status := ResExpired)
             else db.reservations[r])
    && (forall k | k in db.keys ::
          after.keys[k] == if db.keys[k].status == KeyReserved && LosesAll(db, k, now)
                           then db.keys[k].(status := KeyAvailable) else db.keys[k])
  }

  lemma PassedMeans(db: Db, now: Time)
    ensures forall r | r in db.reservations ::
              WindowPassed(db.reservations[r], now) <==> Overdue(db.reservations[r], now)
    ensures OverdueIds(db, now) == PassedIds(db, now)
    ensures forall k :: LosesAll(db, k, now) <==> LeftUnreserved(db, k, now)
  {
    forall r | r in db.reservations
      ensures WindowPassed(db.reservations[r], now) <==> Overdue(db.reservations[r], now)
      ensures forall k :: ActiveFor(db, r, k) <==> db.reservations[r].keyId == k && Pending(db.reservations[r])
    {
      PendingMeans(db.reservations[r]);
    }
    forall k ensures LosesAll(db, k, now) <==> LeftUnreserved(db, k, now) {
    }
  }

  lemma ExpiredRows(db: Db, now: Time)
    ensures WindowsSwept(db, Expired(db, now), now)
  {
    PassedMeans(db, now);
  }

  // ----- reserving -------------------------------------------------------------------------------------------

  /** A window from `from` to `to`, and a return time; what is left out is now, half an hour, two hours. */
  predicate Asked(q: ReserveRequest, from: Time, to: Time, back: Time) {
    && from == (match q.start case Some(t) => t case None => q.now)
    && to == (match q.end case Some(t) => t case None => from + 30 * 60 * 1000)
    && back == (match q.returnAt case Some(t) => t
                case None => from + if q.duration > 0 then q.duration else 2 * 3600 * 1000)
  }

  /** The key is neither lent nor taken out of service. */
  predicate Offered(key: Key) {
    key.enabled && key.status in {KeyAvailable, KeyReserved}
  }

  /** The user has no reservation of the key that touches the time. */
  ghost predicate NoneOfOwn(db: Db, user: Id, key: Id, from: Time, back: Time) {
    forall r | r in db.reservations && db.reservations[r].userId == user && db.reservations[r].keyId == key
               && Pending(db.reservations[r]) ::
      db.reservations[r].windowStart >= back || db.reservations[r].returnAt <= from
  }

  ghost predicate ReserveAllowed(db: Db, q: ReserveRequest, from: Time, to: Time, back: Time) {
    && q.user != BLANK && q.key != BLANK && ActiveVerified(db, q.user)
    && q.key in db.keys && Offered(db.keys[q.key])
    && db.keys[q.key].deviceId in db.devices && db.devices[db.keys[q.key].deviceId] == Online
    && NotLent(db, q.key)
    && from < to < back && NoneOfOwn(db, q.user, q.key, from, back) && Unreserved(db, q.key, from, back)
  }

  ghost function ReserveRefusal(db: Db, q: ReserveRequest, from: Time, to: Time, back: Time): Error
    requires !ReserveAllowed(db, q, from, to, back)
  {
    if q.user == BLANK || q.key == BLANK then InvalidInput
    else if !ActiveVerified(db, q.user) then Forbidden
    else if q.key !in db.keys then NotFound
    else if !Offered(db.keys[q.key]) then InvalidState
    else if db.keys[q.key].deviceId !in db.devices then NotFound
    else if db.devices[db.keys[q.key].deviceId] != Online then Unavailable
    else if NotLent(db, q.key) && !(from < to < back) then InvalidInput
    else Conflict
  }

  /** The new reservation waits for approval if the key requires it; the key is RESERVED in any case. */
  predicate Reserved(db: Db, after: Db, q: ReserveRequest, from: Time, to: Time, back: Time)
    requires q.key in db.keys
  {
    && NothingElse(db, after)
    && after.reservations == db.reservations[q.newReservation := Reservation(
         userId := q.user, keyId := q.key,
         status := if db.keys[q.key].requiresApproval then ResPending else ResActive,
         windowStart := from, windowEnd := to, returnAt := back, usedAt := None)]
    && after.keys == db.keys[q.key := db.keys[q.key].(status := KeyReserved)]
  }

  lemma OwnMeans(db: Db, user: Id, key: Id, from: Time, back: Time)
    ensures NoneOfOwn(db, user, key, from, back) <==> !UserHasConflict(db, user, key, from, back)
  {
    forall r | r in db.reservations
      ensures ActiveFor(db, r, key) <==> db.reservations[r].keyId == key && Pending(db.reservations[r])
    {
      PendingMeans(db.reservations[r]);
    }
  }

  lemma OfferedMeans(key: Key)
    ensures Offered(key) <==> KeyOffered(key)
  {
    match key.status
    case KeyAvailable => case KeyReserved => case KeyBorrowed =>
    case KeyOverdue => case KeyMaintenance => case KeyDisabled =>
  }

  /** A reservation is granted iff all of that holds; a refused one is told what is missing. */
  lemma ReserveGrantedIff(db: Db, q: ReserveRequest, from: Time, to: Time, back: Time)
    requires q.newReservation !in db.reservations && Asked(q, from, to, back)
    ensures var tx := CreateReservation(db, q);
            if ReserveAllowed(db, q, from, to, back)
            then tx.Commit? && Reserved(db, tx.db, q, from, to, back)
            else tx == Rollback(ReserveRefusal(db, q, from, to, back))
  {
    assert from == StartOf(q) && to == EndOf(q) && back == ReturnOf(q);
    IdleMeans(db, BLANK, q.key, BLANK);
    OwnMeans(db, q.user, q.key, from, back);
    UnreservedMeans(db, q.key, from, back);
    if q.key in db.keys {
      OfferedMeans(db.keys[q.key]);
      if ReserveAllowed(db, q, from, to, back) {
        GrantedRows(db, q, from, to, back);
      }
    }
  }

  lemma GrantedRows(db: Db, q: ReserveRequest, from: Time, to: Time, back: Time)
    requires q.newReservation !in db.reservations && q.key in db.keys && Offered(db.keys[q.key])
    requires from == StartOf(q) && to == EndOf(q) && back == ReturnOf(q)
    requires ReserveObstacle(db, q).None? && !HasConflict(db, q.key, from, back)
    ensures var tx := CreateReservation(db, q); tx.Commit? && Reserved(db, tx.db, q, from, to, back)
  {
    PendingMeans(NewReservation(db, q));
    assert db.keys[q.key].status == KeyReserved ==> db.keys[q.key].(status := KeyReserved) == db.keys[q.key];
  }

  // ----- runs ---------------------------------------------------------------------------------------------------

  /** The step that made a reservation what it is. */
  predicate Explains(step: Step, id: Id, r: Reservation) {
    match r.status
    case ResPending => ReservedBy(step, id, r)
    case ResActive => ReservedBy(step, id, r)
    case ResApproved => step.ReviewIt? && step.reservation == id && step.approved && step.now < r.windowEnd
    case ResRejected => step.ReviewIt? && step.reservation == id && !step.approved && step.now < r.windowEnd
    case ResCancelled => step.CancelWrite? && step.reservation == id
    case ResUsed => step.Report? && r.usedAt == Some(step.event.at)
                    && step.event.etype in {EvSuccess, EvPickupSuccess, EvReturnSuccess}
    case ResExpired =>
      || (step.ExpireAll? && r.windowEnd < step.now)
      || (step.ReviewIt? && step.reservation == id && r.windowEnd <= step.now)
  }

  predicate ReservedBy(step: Step, id: Id, r: Reservation) {
    && step.Reserve? && step.reserve.newReservation == id
    && step.reserve.user == r.userId && step.reserve.key == r.keyId
    && Asked(step.reserve, r.windowStart, r.windowEnd, r.returnAt)
  }

  /** User, key and times of a reservation never change, and a step that changes its status explains it. */
  ghost predicate Told(db: Db, after: Db, step: Step) {
    && (forall r | r in db.reservations ::
          && r in after.reservations
          && after.reservations[r] == db.reservations[r].(status := after.reservations[r].status,
                                                          usedAt := after.reservations[r].usedAt))
    && (forall r | r in after.reservations ::
          || (r in db.reservations && after.reservations[r] == db.reservations[r])
          || Explains(step, r, after.reservations[r]))
    && (forall r | r in after.reservations && r !in db.reservations :: ReservedBy(step, r, after.reservations[r]))
  }

  lemma ReserveTold(db: Db, after: Db, q: ReserveRequest)
    requires after == Applied(db, CreateReservation(db, q))
    ensures Told(db, after, Reserve(q))
  {
    if CreateReservation(db, q).Commit? {
      NewIsStored(db, after, q);
      assert ReservedBy(Reserve(q), q.newReservation, NewReservation(db, q));
    }
  }

  lemma NewIsStored(db: Db, after: Db, q: ReserveRequest)
    requires CreateReservation(db, q) == Commit(after)
    ensures q.key in db.keys && q.newReservation !in db.reservations
    ensures after.reservations == db.reservations[q.newReservation := NewReservation(db, q)]
  {
  }

  lemma ReviewTold(db: Db, after: Db, id: Id, approved: bool, now: Time)
    requires after == Applied(db, Review(db, id, approved, now).0)
    ensures Told(db, after, ReviewIt(id, approved, now))
  {
    if id in db.reservations && db.reservations[id].status == ResPending {
      ReviewRows(db, id, approved, now);
    } else {
      NotReviewed(db, id, approved, now);
    }
  }

  lemma CancelTold(db: Db, after: Db, id: Id)
    requires after == Applied(db, WriteCancelled(db, id))
    ensures Told(db, after, CancelWrite(id))
  {
    if id in db.reservations {
      var ended := db.(reservations := db.reservations[id :=
                         db.reservations[id].(status := ResCancelled, usedAt := None)]);
      LetGo(db, ended, ReleaseKey(ended, db.reservations[id].keyId), id);
    }
  }

  lemma ExpireTold(db: Db, after: Db, now: Time)
    requires after == Expired(db, now)
    ensures Told(db, after, ExpireAll(now))
  {
    ExpiredRows(db, now);
  }

  lemma ReportTold(db: Db, after: Db, ev: DeviceEvent, stored: bool)
    requires after == Applied(db, OnDeviceEvent(db, ev, stored))
    ensures Told(db, after, Report(ev, stored))
  {
    if ev.op !in db.ops || db.ops[ev.op].deviceId != ev.deviceId {
      assert after == db;
    } else if ReportsSuccess(ev.etype) && db.ops[ev.op].action == Pickup {
      PickupTold(db, after, ev, stored);
    } else {
      ReportSame(db, after, ev, stored);
    }
  }

  lemma ReportSame(db: Db, after: Db, ev: DeviceEvent, stored: bool)
    requires after == Applied(db, OnDeviceEvent(db, ev, stored)) && ev.op in db.ops
    requires db.ops[ev.op].deviceId == ev.deviceId && !(ReportsSuccess(ev.etype) && db.ops[ev.op].action == Pickup)
    ensures after.reservations == db.reservations
  {
    if ReportsSuccess(ev.etype) {
      ReturnSame(db, after, ev.op, ev.at);
    } else if ReportsFailure(ev.etype) {
      AbandonSame(db, after, ev.op, Fails(ev.code, ev.message), ev.at);
    } else {
      RecordSame(db, after, ev, stored);
    }
  }

  lemma RecordSame(db: Db, after: Db, ev: DeviceEvent, stored: bool)
    requires ev.op in db.ops && after == Applied(db, RecordEvent(db, ev, stored))
    ensures after.reservations == db.reservations
  {
    AppendRows(Tagged(db, ev, stored), ev.op, EventKey(ev.deviceId, ev.msgId), ev.etype, ev.data, ev.at);
  }

  lemma PickupTold(db: Db, after: Db, ev: DeviceEvent, stored: bool)
    requires after == Applied(db, CompletePickup(db, ev.op, ev.at)) && ReportsSuccess(ev.etype)
    ensures Told(db, after, Report(ev, stored))
  {
    if after != db {
      TwoHalves(db.ops[ev.op].status);
      PickupRows(db, after, ev.op, ev.at);
    }
  }

  lemma ReturnSame(db: Db, after: Db, id: Id, now: Time)
    requires after == Applied(db, CompleteReturn(db, id, now))
    ensures after.reservations == db.reservations
  {
    if after != db {
      TwoHalves(db.ops[id].status);
      ReturnRows(db, after, id, now);
    }
  }

  lemma AbandonSame(db: Db, after: Db, id: Id, how: Ending, now: Time)
    requires after == Applied(db, Abandon(db, id, how, now))
    ensures after.reservations == db.reservations
  {
    if after != db {
      TwoHalves(db.ops[id].status);
      match how {
        case Fails(code, message) => FailRows(db, after, id, code, message, now);
        case TimesOut => TimeoutRows(db, after, id, now);
        case IsCancelled => EndRows.CancelRows(db, after, id, now);
      }
    }
  }

  lemma StartSame(db: Db, after: Db, step: Step)
    requires step.AskPickup? || step.AskReturn? || step.AskDispense?
    requires after == After(db, step)
    ensures after.reservations == db.reservations
  {
    if after != db {
      match step
      case AskPickup(q) =>
        var (borrow, op) := NewPickup(db, q);
        InsertedRows(db.(borrows := db.borrows[q.newBorrow := borrow]), q.newOp, op, after);
      case AskReturn(q) =>
        InsertedRows(db.(borrows := db.borrows[q.borrow := db.borrows[q.borrow].(status := Returning)]), q.newOp,
                     NewReturn(db, q), after);
      case AskDispense(q) =>
        var (borrow, op) := NewDispense(db, q);
        InsertedRows(db.(borrows := db.borrows[q.newBorrow := borrow]), q.newOp, op, after);
    }
  }

  lemma StepTold(db: Db, after: Db, step: Step)
    requires after == After(db, step)
    ensures Told(db, after, step)
  {
    match step
    case Reserve(q) => ReserveTold(db, after, q);
    case ReviewIt(r, approved, now) => ReviewTold(db, after, r, approved, now);
    case CancelWrite(r) => CancelTold(db, after, r);
    case ExpireAll(now) => ExpireTold(db, after, now);
    case Report(ev, stored) => ReportTold(db, after, ev, stored);
    case _ => OtherSame(db, after, step);
  }

  lemma OtherSame(db: Db, after: Db, step: Step)
    requires !step.Reserve? && !step.ReviewIt? && !step.CancelWrite? && !step.ExpireAll? && !step.Report?
    requires after == After(db, step)
    ensures after.reservations == db.reservations
  {
    match step
    case Begin(op, now) => BeginRows(db, op, now);
    case DispatchFails(op, message, now) =>
      AbandonSame(db, after, op, Fails("DEVICE_COMMAND_FAILED", message), now);
    case TimeoutOp(op, now) => AbandonSame(db, after, op, TimesOut, now);
    case CancelOp(op, now) => AbandonSame(db, after, op, IsCancelled, now);
    case SeeSlot(_, _) =>
    case SetDevice(_, _) =>
    case SetUser(_, _) =>
    case _ => StartSame(db, after, step);
  }

  /** A step of the run explains the reservation, and a request in it reserved just this. */
  ghost predicate Explained(steps: seq<Step>, id: Id, r: Reservation) {
    && (exists i | 0 <= i < |steps| :: Explains(steps[i], id, r))
    && (exists i | 0 <= i < |steps| :: ReservedBy(steps[i], id, r))
  }

  ghost predicate AllExplained(db: Db, steps: seq<Step>) {
    forall r | r in db.reservations :: Explained(steps, r, db.reservations[r])
  }

  lemma StepExplained(db: Db, after: Db, steps: seq<Step>, step: Step)
    requires AllExplained(db, steps) && Told(db, after, step)
    ensures AllExplained(after, steps + [step])
  {
    var more := steps + [step];
    forall r | r in after.reservations ensures Explained(more, r, after.reservations[r]) {
      assert more[|steps|] == step;
      if r in db.reservations {
        var i :| 0 <= i < |steps| && ReservedBy(steps[i], r, db.reservations[r]);
        assert more[i] == steps[i] && ReservedBy(more[i], r, after.reservations[r]);
        var j :| 0 <= j < |steps| && Explains(steps[j], r, db.reservations[r]);
        assert more[j] == steps[j];
      } else {
        assert ReservedBy(more[|steps|], r, after.reservations[r]);
        assert Explains(more[|steps|], r, after.reservations[r]);
      }
    }
  }

  /**
   * Over every run each reservation was asked for by its user, for this key and these times, and
   * a step of the run made it what it is: it was reviewed so within its window, cancelled, used by a
   * pickup that succeeded at that time, or it expired, and then only after its window had passed.
   */
  lemma {:induction false} EveryReservationIsExplained(db: Db, steps: seq<Step>)
    requires db.reservations == map[]
    ensures AllExplained(Exec(db, steps), steps)
  {
    if steps != [] {
      var early := steps[..|steps| - 1];
      EveryReservationIsExplained(db, early);
      StepTold(Exec(db, early), Exec(db, steps), steps[|steps| - 1]);
      StepExplained(Exec(db, early), Exec(db, steps), early, steps[|steps| - 1]);
      assert steps == early + [steps[|steps| - 1]];
    }
  }

  /**
   * No clock, no expiry: a reservation does not expire in a run none of whose clocks has reached
   * the end of its window.
   */
  lemma {:induction false} NoneExpiresEarly(db: Db, steps: seq<Step>, id: Id)
    requires id in db.reservations && db.reservations[id].status != ResExpired
    requires forall i | 0 <= i < |steps| ::
               (steps[i].ExpireAll? || steps[i].ReviewIt?) ==> steps[i].now < db.reservations[id].windowEnd
    ensures id in Exec(db, steps).reservations && Exec(db, steps).reservations[id].status != ResExpired
    ensures Exec(db, steps).reservations[id].windowEnd == db.reservations[id].windowEnd
  {
    if steps != [] {
      var early := steps[..|steps| - 1];
      NoneExpiresEarly(db, early, id);
      StepTold(Exec(db, early), Exec(db, steps), steps[|steps| - 1]);
    }
  }
}
