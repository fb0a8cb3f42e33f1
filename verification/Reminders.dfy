/** Return reminders: one row per borrow record and kind, at most three sends, growing gaps. */
module Reminders {
  import opened LedgerTypes
  import opened Services

  datatype Kind = OverdueNotice | ApproachingNotice

  /** The unique index (borrow_record_id, type). */
  datatype Subject = Subject(loan: Id, kind: Kind)

  datatype Delivery = Pending | Sent | Failed

  datatype Reminder = Reminder(status: Delivery, attempts: nat, sentAt: Option<Time>, nextRetryAt: Option<Time>,
      createdAt: Time)

  /** One call of the messaging client and its result. */
  datatype Sending = Sending(subject: Subject, at: Time, ok: bool)

  datatype Book = Book(rows: map<Subject, Reminder>, sent: seq<Sending>)

  const MAX_ATTEMPTS := 3

  function PowerOfTwo(n: nat): nat {
    if n == 0 then 1 else 2 * PowerOfTwo(n - 1)
  }

  function Backoff(attempts: nat): Time
    requires attempts >= 1
  {
    PowerOfTwo(attempts - 1) * 10 * MINUTE
  }

  lemma {:induction false} PowerPositive(n: nat)
    ensures PowerOfTwo(n) >= 1
  {
    if n > 0 {
      PowerPositive(n - 1);
    }
  }

  function Opened(now: Time): Reminder {
    Reminder(Pending, 0, None, None, now)
  }

  /** Neither delivered, nor given up, nor waiting for its retry time. */
  predicate Due(rows: map<Subject, Reminder>, subject: Subject, now: Time) {
    subject in rows ==>
      && rows[subject].status != Sent && rows[subject].attempts < MAX_ATTEMPTS
      && (rows[subject].nextRetryAt.Some? ==> rows[subject].nextRetryAt.value <= now)
  }

  /** executeReminderSend on a row. */
  function Tried(row: Reminder, now: Time, ok: bool): Reminder {
    var attempts := row.attempts + 1;
    if ok then row.(attempts := attempts, status := Sent, sentAt := Some(now), nextRetryAt := None)
    else row.(attempts := attempts, status := Failed, sentAt := None, nextRetryAt := Some(now + Backoff(attempts)))
  }

  /** A send for a subject, whose row is opened if there is none. */
  function Attempt(book: Book, subject: Subject, now: Time, ok: bool): Book {
    var row := if subject in book.rows then book.rows[subject] else Opened(now);
    Book(book.rows[subject := Tried(row, now, ok)], book.sent + [Sending(subject, now, ok)])
  }

  /** The sends for one subject, in order. */
  function SendsOf(sent: seq<Sending>, subject: Subject): (r: seq<Sending>)
    ensures forall i | 0 <= i < |r| :: r[i] in sent && r[i].subject == subject
  {
    if sent == [] then []
    else
      var last := sent[|sent| - 1];
      SendsOf(sent[..|sent| - 1], subject) + if last.subject == subject then [last] else []
  }

  /** Attempts k and k + 1 are at least 10 * 2^(k-1) minutes apart. */
  ghost predicate Spaced(sends: seq<Sending>) {
    forall i | 1 <= i < |sends| :: sends[i].at >= sends[i - 1].at + Backoff(i)
  }

  /** A row tells what has been sent for it. */
  ghost predicate RowKept(rows: map<Subject, Reminder>, subject: Subject, sends: seq<Sending>) {
    if subject !in rows then sends == []
    else
      var row := rows[subject];
      && |sends| == row.attempts <= MAX_ATTEMPTS
      && Spaced(sends)
      && (forall i | 0 <= i < |sends| - 1 :: !sends[i].ok)
      && match row.status
         case Pending => sends == [] && row.nextRetryAt == None
         case Sent => sends != [] && sends[|sends| - 1].ok && row.sentAt == Some(sends[|sends| - 1].at)
         case Failed =>
           && row.sentAt == None && sends != [] && !sends[|sends| - 1].ok
           && row.nextRetryAt == Some(sends[|sends| - 1].at + Backoff(|sends|))
  }

  ghost predicate Kept(book: Book) {
    forall subject :: RowKept(book.rows, subject, SendsOf(book.sent, subject))
  }

  lemma OneMoreSend(sent: seq<Sending>, s: Sending, subject: Subject)
    ensures SendsOf(sent + [s], subject) == SendsOf(sent, subject) + if s.subject == subject then [s] else []
  {
    assert (sent + [s])[..|sent|] == sent;
  }

  lemma TriedKept(rows: map<Subject, Reminder>, subject: Subject, sends: seq<Sending>, now: Time, ok: bool)
    requires RowKept(rows, subject, sends) && Due(rows, subject, now)
    ensures var row := if subject in rows then rows[subject] else Opened(now);
            RowKept(rows[subject := Tried(row, now, ok)], subject, sends + [Sending(subject, now, ok)])
  {
    var more := sends + [Sending(subject, now, ok)];
    forall i | 1 <= i < |more| ensures more[i].at >= more[i - 1].at + Backoff(i) {
      if i < |sends| {
        assert sends[i].at >= sends[i - 1].at + Backoff(i);
      }
    }
  }

  lemma AttemptKept(book: Book, subject: Subject, now: Time, ok: bool)
    requires Kept(book) && Due(book.rows, subject, now)
    ensures Kept(Attempt(book, subject, now, ok))
  {
    var after := Attempt(book, subject, now, ok);
    forall other ensures RowKept(after.rows, other, SendsOf(after.sent, other)) {
      var sends := SendsOf(book.sent, other);
      assert RowKept(book.rows, other, sends);
      OneMoreSend(book.sent, Sending(subject, now, ok), other);
      if other == subject {
        TriedKept(book.rows, subject, sends, now, ok);
      } else {
        assert SendsOf(after.sent, other) == sends;
        OtherRowKept(book.rows, subject, after.rows[subject], other, sends);
      }
    }
  }

  lemma OtherRowKept(rows: map<Subject, Reminder>, subject: Subject, row: Reminder, other: Subject, sends: seq<Sending>)
    requires other != subject && RowKept(rows, other, sends)
    ensures RowKept(rows[subject := row], other, sends)
  {
  }

  /** Opening a row without sending: no messaging client is configured. */
  lemma OpenKept(book: Book, subject: Subject, now: Time)
    requires Kept(book) && subject !in book.rows
    ensures Kept(book.(rows := book.rows[subject := Opened(now)]))
  {
    forall other ensures RowKept(book.rows[subject := Opened(now)], other, SendsOf(book.sent, other)) {
      assert RowKept(book.rows, other, SendsOf(book.sent, other));
    }
  }

  /**
   * The time a failed send waits for the next, in milliseconds: ten minutes after the first, twenty
   * after the second.
   */
  function Wait(sends: nat): Time {
    (if sends == 1 then 10 else 20) * 60 * 1000
  }

  /** When a subject is due, from the sends alone: fewer than three, none successful, the last one long enough ago. */
  lemma DueIff(book: Book, subject: Subject, now: Time)
    requires Kept(book)
    ensures var sends := SendsOf(book.sent, subject);
            Due(book.rows, subject, now) <==>
              && |sends| < 3 && (forall i | 0 <= i < |sends| :: !sends[i].ok)
              && (sends != [] ==> sends[|sends| - 1].at + Wait(|sends|) <= now)
  {
    var sends := SendsOf(book.sent, subject);
    assert RowKept(book.rows, subject, sends);
    assert PowerOfTwo(0) == 1 && PowerOfTwo(1) == 2;
    if subject in book.rows && book.rows[subject].status == Sent {
      assert sends[|sends| - 1].ok;
    }
  }

  // ----- runs ------------------------------------------------------------------------------

  /** A dispatcher looks at a subject; it sends only if the subject is due. */
  datatype Look = Look(subject: Subject, now: Time, ok: bool)

  function Run(book: Book, looks: seq<Look>): Book {
    if looks == [] then book
    else
      var before := Run(book, looks[..|looks| - 1]);
      var last := looks[|looks| - 1];
      if Due(before.rows, last.subject, last.now) then Attempt(before, last.subject, last.now, last.ok) else before
  }

  lemma {:induction false} RunKept(book: Book, looks: seq<Look>)
    requires Kept(book)
    ensures Kept(Run(book, looks))
  {
    if looks != [] {
      var before := Run(book, looks[..|looks| - 1]);
      var last := looks[|looks| - 1];
      RunKept(book, looks[..|looks| - 1]);
      if Due(before.rows, last.subject, last.now) {
        AttemptKept(before, last.subject, last.now, last.ok);
      }
    }
  }

  lemma EmptyKept()
    ensures Kept(Book(map[], []))
  {
    forall subject ensures RowKept(map[], subject, SendsOf([], subject)) {}
  }

  /**
   * However often and whenever dispatchers look: at most three sends per subject, nothing
   * after a success, doubling gaps, and never two sends at one moment, hence at most one per sweep.
   */
  lemma SendsBounded(looks: seq<Look>, subject: Subject)
    ensures var sends := SendsOf(Run(Book(map[], []), looks).sent, subject);
            && |sends| <= 3
            && (forall i | 0 <= i < |sends| :: sends[i].ok ==> i == |sends| - 1)
            && (forall i | 1 <= i < |sends| :: sends[i].at - sends[i - 1].at >= Wait(i))
            && (forall i, j | 0 <= i < j < |sends| :: sends[i].at < sends[j].at)
  {
    EmptyKept();
    RunKept(Book(map[], []), looks);
    var end := Run(Book(map[], []), looks);
    var sends := SendsOf(end.sent, subject);
    assert RowKept(end.rows, subject, sends);
    forall i | 1 <= i < |sends| ensures sends[i].at - sends[i - 1].at >= Wait(i) {
      assert sends[i].at >= sends[i - 1].at + Backoff(i);
      assert PowerOfTwo(0) == 1 && PowerOfTwo(1) == 2;
    }
    SpacedGrows(sends);
  }

  lemma {:induction false} SpacedGrows(sends: seq<Sending>)
    requires Spaced(sends)
    ensures forall i, j | 0 <= i < j < |sends| :: sends[i].at < sends[j].at
  {
    if sends != [] {
      var early := sends[..|sends| - 1];
      assert forall i | 1 <= i < |early| :: early[i].at >= early[i - 1].at + Backoff(i);
      SpacedGrows(early);
      if early != [] {
        LastGrows(sends);
        assert forall i | 0 <= i < |early| - 1 :: early[i].at < early[|early| - 1].at;
      }
    }
  }

  lemma LastGrows(sends: seq<Sending>)
    requires Spaced(sends) && |sends| >= 2
    ensures sends[|sends| - 2].at < sends[|sends| - 1].at
  {
    PowerPositive(|sends| - 2);
    assert sends[|sends| - 1].at >= sends[|sends| - 2].at + Backoff(|sends| - 1);
  }
}
