/** Expiring reservations one by one comes to the same in any order. */
module ExpiryOrder {
  import opened LedgerTypes
  import opened ReservationTx

  /** Some reservation of `key` is in `done`, and no active one is outside it. */
  predicate Lapsed(db: Db, done: set<Id>, key: Id) {
    && (exists r | r in db.reservations :: r in done && db.reservations[r].keyId == key)
    && !(exists r | r in db.reservations :: r !in done && ActiveFor(db, r, key))
  }

  /** The tables when just the reservations in `done` have been expired. */
  function ExpiredSome(db: Db, done: set<Id>): Db {
    db.(
      reservations := map r | r in db.reservations ::
        if r in done then db.reservations[r].(status := ResExpired) else db.reservations[r],
      keys := map k | k in db.keys ::
        if db.keys[k].status == KeyReserved && Lapsed(db, done, k)
        then db.keys[k].(status := KeyAvailable) else db.keys[k])
  }

  lemma NoneExpiredYet(db: Db)
    ensures ExpiredSome(db, {}) == db
  {
    assert ExpiredSome(db, {}).reservations == db.reservations;
    assert ExpiredSome(db, {}).keys == db.keys;
  }

  /** Expiring one more and releasing its key if unreserved, after any others. */
  lemma ExpireOneMore(db: Db, done: set<Id>, r: Id)
    requires r in db.reservations && r !in done && IsActiveReservation(db.reservations[r].status)
    ensures r in ExpiredSome(db, done).reservations
    ensures IsActiveReservation(ExpiredSome(db, done).reservations[r].status)
    ensures ReleaseKey(SetStatus(ExpiredSome(db, done), r, ResExpired), db.reservations[r].keyId)
            == ExpiredSome(db, done + {r})
  {
    var part := SetStatus(ExpiredSome(db, done), r, ResExpired);
    var more := ExpiredSome(db, done + {r});
    var key := db.reservations[r].keyId;
    assert part.reservations == more.reservations;
    LapsedElsewhere(db, done, r);
    LapsedHere(db, done, r);
    ReleaseLapsed(db, done, part, more, key);
  }

  lemma ReleaseLapsed(db: Db, done: set<Id>, part: Db, more: Db, key: Id)
    requires part.keys == ExpiredSome(db, done).keys && more.keys.Keys == db.keys.Keys
    requires forall k | k in db.keys && k != key :: more.keys[k] == part.keys[k]
    requires !Lapsed(db, done, key)
    requires key in db.keys ==> more.keys[key] == if db.keys[key].status == KeyReserved && !HasActive(part, key)
                                                  then db.keys[key].(status := KeyAvailable) else db.keys[key]
    ensures ReleaseKey(part, key).keys == more.keys
  {
  }

  lemma LapsedElsewhere(db: Db, done: set<Id>, r: Id)
    requires r in db.reservations
    ensures forall k | k != db.reservations[r].keyId :: Lapsed(db, done + {r}, k) <==> Lapsed(db, done, k)
  {
    forall k | k != db.reservations[r].keyId ensures Lapsed(db, done + {r}, k) <==> Lapsed(db, done, k) {
      if q :| q in db.reservations && q !in done && ActiveFor(db, q, k) {
        assert q !in done + {r} && ActiveFor(db, q, k);
      }
      if q :| q in db.reservations && q in done && db.reservations[q].keyId == k {
        assert q in done + {r};
      }
    }
  }

  lemma LapsedHere(db: Db, done: set<Id>, r: Id)
    requires r in db.reservations && r !in done && IsActiveReservation(db.reservations[r].status)
    ensures var key := db.reservations[r].keyId;
            && !Lapsed(db, done, key)
            && (Lapsed(db, done + {r}, key) <==> !HasActive(SetStatus(ExpiredSome(db, done), r, ResExpired), key))
  {
    var key := db.reservations[r].keyId;
    var part := SetStatus(ExpiredSome(db, done), r, ResExpired);
    assert ActiveFor(db, r, key);
    forall q | q in db.reservations ensures ActiveFor(part, q, key) <==> q !in done + {r} && ActiveFor(db, q, key) {}
    assert r in done + {r} && db.reservations[r].keyId == key;
  }

  /** With every overdue reservation done, this is the batch. */
  lemma AllExpired(db: Db, now: Time)
    ensures ExpiredSome(db, OverdueIds(db, now)) == Expired(db, now)
  {
    var all := OverdueIds(db, now);
    forall k ensures Lapsed(db, all, k) <==> LeftUnreserved(db, k, now) {
      if q :| q in db.reservations && q !in all && ActiveFor(db, q, k) {
        assert !Overdue(db.reservations[q], now);
      }
      if q :| q in db.reservations && ActiveFor(db, q, k) && !Overdue(db.reservations[q], now) {
        assert q !in all;
      }
      if q :| q in db.reservations && db.reservations[q].keyId == k && Overdue(db.reservations[q], now) {
        assert q in all;
      }
      if q :| q in db.reservations && q in all && db.reservations[q].keyId == k {
        assert Overdue(db.reservations[q], now);
      }
    }
    assert ExpiredSome(db, all).reservations == Expired(db, now).reservations;
    assert ExpiredSome(db, all).keys == Expired(db, now).keys;
  }
}
