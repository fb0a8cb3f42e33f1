/**
 * The transactions of the reservation repository
 * (server/internal/infrastructure/postgres/reservation_repository.go).
 */
module ReservationTx {
  import opened LedgerTypes

  predicate ActiveFor(db: Db, r: Id, key: Id) {
    r in db.reservations && db.reservations[r].keyId == key && IsActiveReservation(db.reservations[r].status)
  }

  /** activeCount > 0 in releaseKeyIfUnreserved. */
  predicate HasActive(db: Db, key: Id) {
    exists r | r in db.reservations :: ActiveFor(db, r, key)
  }

  /** FindConflicts returns a row. */
  predicate HasConflict(db: Db, key: Id, start: Time, end: Time) {
    exists r | r in db.reservations ::
      ActiveFor(db, r, key) && Overlap(db.reservations[r].windowStart, db.reservations[r].returnAt, start, end)
  }

  /** UPDATE keys SET status = to WHERE id = key AND status = from. */
  function SwitchKey(db: Db, key: Id, from: KeyStatus, to: KeyStatus): (r: Db)
    ensures r == db.(keys := r.keys)
  {
    if key in db.keys && db.keys[key].status == from then
      db.(keys := db.keys[key := db.keys[key].(status := to)])
    else db
  }

  /** Reservation transactions write the reservation and key tables only. */
  predicate OnlyRows(db: Db, after: Db) {
    after == db.(reservations := after.reservations, keys := after.keys)
  }

  /** Create, under the exclusion constraint on the active ranges of one key. */
  function CreateRow(db: Db, id: Id, reservation: Reservation): (r: Tx)
    ensures r.Commit? ==> OnlyRows(db, r.db)
  {
    if id in db.reservations then Rollback(DuplicateRow)
    else
      var inserted := db.(reservations := db.reservations[id := reservation]);
      if !IsActiveReservation(reservation.status) then Commit(inserted)
      else if HasConflict(db, reservation.keyId, reservation.windowStart, reservation.returnAt) then Rollback(Conflict)
      else Commit(SwitchKey(inserted, reservation.keyId, KeyAvailable, KeyReserved))
  }

  /** releaseKeyIfUnreserved. */
  function ReleaseKey(db: Db, key: Id): (r: Db)
    ensures r == db.(keys := r.keys)
  {
    if HasActive(db, key) then db else SwitchKey(db, key, KeyReserved, KeyAvailable)
  }

  function SetStatus(db: Db, id: Id, status: ReservationStatus): Db
    requires id in db.reservations
  {
    db.(reservations := db.reservations[id := db.reservations[id].(status := status)])
  }

  /**
   * Update with status CANCELLED. The whole row is written as it was read: bookings never
   * change, and it was read active, so without used_at, whatever it has become since.
   */
  function WriteCancelled(db: Db, id: Id): (r: Tx)
    ensures r.Commit? && OnlyRows(db, r.db)
  {
    if id !in db.reservations then Commit(db)
    else
      var row := db.reservations[id].(status := ResCancelled, usedAt := None);
      Commit(ReleaseKey(db.(reservations := db.reservations[id := row]), row.keyId))
  }

  /** Review; a window that is over is expired and reported as an invalid state, but committed. */
  function Review(db: Db, id: Id, approved: bool, now: Time): (r: (Tx, bool))
    ensures r.0.Commit? ==> OnlyRows(db, r.0.db)
  {
    if id !in db.reservations then (Rollback(NotFound), false)
    else
      var reservation := db.reservations[id];
      if reservation.status != ResPending then (Rollback(InvalidState), false)
      else if reservation.windowEnd <= now then
        (Commit(ReleaseKey(SetStatus(db, id, ResExpired), reservation.keyId)), false)
      else if reservation.userId !in db.users then (Rollback(NotFound), false)
      else if !db.users[reservation.userId].active || !db.users[reservation.userId].verified then
        (Rollback(InvalidState), false)
      else if approved then (Commit(SetStatus(db, id, ResApproved)), true)
      else (Commit(ReleaseKey(SetStatus(db, id, ResRejected), reservation.keyId)), true)
  }

  // ----- expiry -------------------------------------------------------------

  /** The rows ExpireBefore selects. */
  predicate Overdue(reservation: Reservation, now: Time) {
    IsActiveReservation(reservation.status) && reservation.windowEnd < now
  }

  function OverdueIds(db: Db, now: Time): set<Id> {
    set r | r in db.reservations && Overdue(db.reservations[r], now)
  }

  predicate LeftUnreserved(db: Db, key: Id, now: Time) {
    && (exists r | r in db.reservations :: db.reservations[r].keyId == key && Overdue(db.reservations[r], now))
    && !(exists r | r in db.reservations :: ActiveFor(db, r, key) && !Overdue(db.reservations[r], now))
  }

  /**
   * What ExpireBefore amounts to: every overdue reservation expires at once, and a
   * RESERVED key is released exactly if it lost a reservation and has none left.
   */
  function Expired(db: Db, now: Time): Db {
    db.(
      reservations := map r | r in db.reservations ::
        if Overdue(db.reservations[r], now) then db.reservations[r].(status := ResExpired) else db.reservations[r],
      keys := map k | k in db.keys ::
        if db.keys[k].status == KeyReserved && LeftUnreserved(db, k, now)
        then db.keys[k].(status := KeyAvailable) else db.keys[k])
  }
}
