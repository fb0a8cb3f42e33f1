/** The overdue check as it works: mark, remind, retry. What the messaging client answers is arbitrary. */
module ReminderSweep {
  import opened LedgerTypes
  import opened Services
  import opened Reminders

  datatype Loan = Loan(status: BorrowStatus, expectedReturnAt: Time, overdueAt: Option<Time>)

  /** A borrowed key calls for one notice once its time is over, for the other in the half hour before. */
  predicate CallsFor(loan: Loan, kind: Kind, now: Time) {
    && loan.status == Borrowed
    && match kind
       case OverdueNotice => loan.expectedReturnAt < now
       case ApproachingNotice => now <= loan.expectedReturnAt < now + 30 * 60 * 1000
  }

  /** After a send a subject is not due again at the same moment. */
  lemma AttemptNotDue(book: Book, subject: Subject, now: Time, ok: bool)
    ensures !Due(Attempt(book, subject, now, ok).rows, subject, now)
  {
    var attempts := Attempt(book, subject, now, ok).rows[subject].attempts;
    PowerPositive(attempts - 1);
  }

  const RETRY_LIMIT := 50

  /** Some row is created no later than the others. */
  lemma {:induction false} HasOldest(rows: map<Subject, Reminder>, todo: set<Subject>) returns (oldest: Subject)
    requires todo != {} && todo <= rows.Keys
    ensures oldest in todo && forall x | x in todo :: rows[oldest].createdAt <= rows[x].createdAt
    decreases |todo|
  {
    var one :| one in todo;
    oldest := one;
    var rest := todo - {one};
    if rest != {} {
      var other := HasOldest(rows, rest);
      if rows[other].createdAt < rows[one].createdAt {
        oldest := other;
      }
    }
    forall x | x in todo ensures rows[oldest].createdAt <= rows[x].createdAt {
      assert x == one || x in rest;
    }
  }

  class ReminderDispatcher {
    const clientConfigured: bool
    var loans: map<Id, Loan>
    var rows: map<Subject, Reminder>
    var sent: seq<Sending>

    constructor (clientConfigured: bool, loans: map<Id, Loan>)
      ensures this.clientConfigured == clientConfigured && this.loans == loans
      ensures Records() == Book(map[], []) && Kept(Records())
    {
      this.clientConfigured := clientConfigured;
      this.loans := loans;
      rows, sent := map[], [];
      new;
      EmptyKept();
    }

    function Records(): Book
      reads this
    {
      Book(rows, sent)
    }

    /** The notice is called for, or has been tried before without success. */
    ghost predicate Called(subject: Subject, base: nat, now: Time)
      requires base <= |sent|
      reads this
    {
      && subject.loan in loans && loans[subject.loan].status == Borrowed
      && (CallsFor(loans[subject.loan], subject.kind, now)
          || exists j | 0 <= j < base :: sent[j].subject == subject && !sent[j].ok)
    }

    /** Since position `base`, at most one send per subject, at `now`, each for a borrowed key that calls for it. */
    ghost predicate Fair(base: nat, now: Time)
      reads this
    {
      && base <= |sent|
      && (forall i | base <= i < |sent| ::
            sent[i].at == now && !Due(rows, sent[i].subject, now) && Called(sent[i].subject, base, now))
      && (forall i, j | base <= i < j < |sent| :: sent[i].subject != sent[j].subject)
    }

    method ExecuteReminderSend(subject: Subject, now: Time, ghost base: nat)
      requires subject in rows && Due(rows, subject, now)
      requires Kept(Records()) && Fair(base, now) && Called(subject, base, now)
      modifies this`rows, this`sent
      ensures Kept(Records()) && Fair(base, now)
      ensures rows.Keys == old(rows.Keys) && old(sent) <= sent
      ensures rows[subject].createdAt == old(rows[subject]).createdAt
      ensures forall other | other in rows && other != subject :: rows[other] == old(rows[other])
      ensures clientConfigured ==> !Due(rows, subject, now) && |sent| == |old(sent)| + 1
      ensures !clientConfigured ==> rows == old(rows) && sent == old(sent)
    {
      if !clientConfigured {
        return;
      }
      var ok: bool := *;
      ghost var before := Records();
      AttemptKept(before, subject, now, ok);
      AttemptNotDue(before, subject, now, ok);
      var row := rows[subject];
      row := row.(attempts := row.attempts + 1);
      if ok {
        row := row.(status := Sent, sentAt := Some(now), nextRetryAt := None);
      } else {
        row := row.(status := Failed, sentAt := None, nextRetryAt := Some(now + Backoff(row.attempts)));
      }
      rows := rows[subject := row];
      sent := sent + [Sending(subject, now, ok)];
      assert Records() == Attempt(before, subject, now, ok);
      forall s | old(Called(s, base, now)) ensures Called(s, base, now) {
        if j :| 0 <= j < base && before.sent[j].subject == s && !before.sent[j].ok {
          assert sent[j] == before.sent[j];
        }
      }
    }

    method ProcessReminder(subject: Subject, now: Time, ghost base: nat)
      requires Kept(Records()) && Fair(base, now)
      requires subject.loan in loans && CallsFor(loans[subject.loan], subject.kind, now)
      modifies this`rows, this`sent
      ensures Kept(Records()) && Fair(base, now)
      ensures old(sent) <= sent
      ensures subject in rows && (clientConfigured ==> !Due(rows, subject, now))
      ensures rows[subject].createdAt == if subject in old(rows) then old(rows)[subject].createdAt else now
      ensures forall other | other in old(rows) && other != subject :: other in rows && rows[other] == old(rows[other])
    {
      if subject in rows {
        var existing := rows[subject];
        if existing.status == Sent || existing.attempts >= MAX_ATTEMPTS {
          return;
        }
        if existing.nextRetryAt.Some? && existing.nextRetryAt.value > now {
          return;
        }
        ExecuteReminderSend(subject, now, base);
        return;
      }
      OpenKept(Records(), subject, now);
      rows := rows[subject := Opened(now)];
      ExecuteReminderSend(subject, now, base);
    }

    /** Failed reminders whose retry time has come (FindPendingOrFailedRetries, before its limit). */
    function Retryable(now: Time): set<Subject>
      reads this
    {
      set s | s in rows && rows[s].status == Failed && Due(rows, s, now)
    }

    /** FindPendingOrFailedRetries: the 50 oldest of them. */
    method FindPendingOrFailedRetries(now: Time) returns (batch: set<Subject>)
      ensures batch <= Retryable(now) && |batch| <= RETRY_LIMIT
      ensures |batch| < RETRY_LIMIT ==> batch == Retryable(now)
      ensures forall s, x | s in batch && x in Retryable(now) - batch :: rows[s].createdAt <= rows[x].createdAt
    {
      batch := {};
      var todo := Retryable(now);
      while todo != {} && |batch| < RETRY_LIMIT
        invariant batch !! todo && batch + todo == Retryable(now) && |batch| <= RETRY_LIMIT
        invariant forall s, x | s in batch && x in todo :: rows[s].createdAt <= rows[x].createdAt
        decreases |todo|
      {
        ghost var eldest := HasOldest(rows, todo);
        var s :| s in todo && forall x | x in todo :: rows[s].createdAt <= rows[x].createdAt;
        todo := todo - {s};
        batch := batch + {s};
      }
    }

    /** retryFailedReminders: each row of the batch is looked at with its borrow record; no other row changes. */
    method RetryFailedReminders(now: Time, ghost base: nat) returns (batch: set<Subject>)
      requires Kept(Records()) && Fair(base, now)
      modifies this`rows, this`sent
      ensures Kept(Records()) && Fair(base, now)
      ensures old(sent) <= sent && rows.Keys == old(rows.Keys)
      ensures batch <= old(Retryable(now)) && |batch| <= RETRY_LIMIT
      ensures clientConfigured && |batch| < RETRY_LIMIT ==> batch == old(Retryable(now))
      ensures forall s, x | s in batch && x in old(Retryable(now)) - batch ::
                old(rows)[s].createdAt <= old(rows)[x].createdAt
      ensures forall s | s in rows && s !in batch :: rows[s] == old(rows)[s]
      ensures clientConfigured ==>
                forall s | s in batch && s.loan in loans && loans[s.loan].status == Borrowed :: !Due(rows, s, now)
    {
      if !clientConfigured {
        return {};
      }
      batch := FindPendingOrFailedRetries(now);
      RetryEach(batch, now, base);
    }

    /** A failed row that is due has been tried before this sweep. */
    lemma TriedBefore(subject: Subject, now: Time, base: nat)
      requires Kept(Records()) && Fair(base, now)
      requires subject in rows && rows[subject].status == Failed && Due(rows, subject, now)
      ensures exists j | 0 <= j < base :: sent[j].subject == subject && !sent[j].ok
    {
      var sends := SendsOf(sent, subject);
      assert RowKept(rows, subject, sends);
      assert sends[|sends| - 1] in sent;
      var j :| 0 <= j < |sent| && sent[j] == sends[|sends| - 1];
    }

    method RetryEach(batch: set<Subject>, now: Time, ghost base: nat)
      requires clientConfigured && batch <= rows.Keys
      requires forall s | s in batch :: rows[s].status == Failed && Due(rows, s, now)
      requires Kept(Records()) && Fair(base, now)
      modifies this`rows, this`sent
      ensures Kept(Records()) && Fair(base, now)
      ensures old(sent) <= sent && rows.Keys == old(rows.Keys)
      ensures forall s | s in rows && s !in batch :: rows[s] == old(rows)[s]
      ensures forall s | s in batch && s.loan in loans && loans[s.loan].status == Borrowed :: !Due(rows, s, now)
    {
      var todo := batch;
      while todo != {}
        invariant Kept(Records()) && Fair(base, now)
        invariant old(sent) <= sent && rows.Keys == old(rows.Keys) && todo <= batch
        invariant forall s | s in todo :: rows[s].status == Failed && Due(rows, s, now)
        invariant forall s | s in rows && s !in batch :: rows[s] == old(rows)[s]
        invariant forall s | s in batch - todo && s.loan in loans && loans[s.loan].status == Borrowed ::
                  !Due(rows, s, now)
        decreases |todo|
      {
        var s :| s in todo;
        todo := todo - {s};
        if s.loan in loans && loans[s.loan].status == Borrowed {
          TriedBefore(s, now, base);
          ExecuteReminderSend(s, now, base);
        }
      }
    }

    method DispatchReminders(now: Time, ghost base: nat)
      requires Kept(Records()) && base == |sent|
      modifies this`rows, this`sent
      ensures Kept(Records()) && Fair(base, now) && old(sent) <= sent
      ensures clientConfigured ==>
                forall id, kind | id in loans && CallsFor(loans[id], kind, now) ::
                  Subject(id, kind) in rows && !Due(rows, Subject(id, kind), now)
    {
      var todo := set id | id in loans && loans[id].status == Borrowed;
      while todo != {}
        invariant todo <= loans.Keys
        invariant Kept(Records()) && Fair(base, now) && old(sent) <= sent
        invariant forall id | id in todo :: loans[id].status == Borrowed
        invariant clientConfigured ==>
          forall id, kind | id in loans && id !in todo && CallsFor(loans[id], kind, now) ::
            Subject(id, kind) in rows && !Due(rows, Subject(id, kind), now)
        decreases |todo|
      {
        var id :| id in todo;
        todo := todo - {id};
        var loan := loans[id];
        if loan.expectedReturnAt < now {
          ProcessReminder(Subject(id, OverdueNotice), now, base);
        } else if loan.expectedReturnAt < now + 30 * MINUTE {
          ProcessReminder(Subject(id, ApproachingNotice), now, base);
        }
      }
      var retried := RetryFailedReminders(now, base);
    }

    /**
     * MarkOverdue: a record has a stamp afterwards iff it had one or is overdue; stamps are never
     * moved, nothing else changes.
     */
    method MarkOverdue(now: Time)
      modifies this`loans
      ensures loans.Keys == old(loans.Keys)
      ensures forall id | id in loans ::
                && loans[id] == old(loans)[id].(overdueAt := loans[id].overdueAt)
                && (old(loans)[id].overdueAt.Some? ==> loans[id].overdueAt == old(loans)[id].overdueAt)
                && (loans[id].overdueAt.Some? && old(loans)[id].overdueAt.None? <==>
                      loans[id].status == Borrowed && loans[id].expectedReturnAt < now
                          && old(loans)[id].overdueAt.None?)
                && (loans[id].overdueAt.Some? ==> loans[id].overdueAt.value == now || loans[id] == old(loans)[id])
    {
      loans := map id | id in loans ::
        if loans[id].status == Borrowed && loans[id].expectedReturnAt < now && loans[id].overdueAt == None
        then loans[id].(overdueAt := Some(now)) else loans[id];
    }

    /** CheckOverdue: one sweep. Nothing a borrowed key calls for is left due. */
    method CheckOverdue(now: Time)
      requires Kept(Records())
      modifies this
      ensures Kept(Records()) && Fair(|old(sent)|, now) && old(sent) <= sent
      ensures clientConfigured ==>
                forall id, kind | id in loans && CallsFor(loans[id], kind, now) ::
                  Subject(id, kind) in rows && !Due(rows, Subject(id, kind), now)
    {
      MarkOverdue(now);
      DispatchReminders(now, |sent|);
    }
  }
}
