/** Where runs begin, and everything that holds wherever they lead. */
module Reachable {
  import opened LedgerTypes
  import opened Steps
  import opened Coupling
  import opened CouplingRuns
  import opened Conservation
  import opened Bookings
  import opened EventLog
  import opened OneWinner
  import opened RfidGate
  import opened Causes
  import opened Loans
  import opened ReserveRules
  import Dispatch
  import AbortProtocol

  /** A cabinet as it is commissioned: keys bound to slots, nothing lent, reserved or recorded yet. */
  ghost predicate Fresh(db: Db) {
    && NoBlankRows(db) && Bound(db)
    && db.ops == map[] && db.requests == map[] && db.borrows == map[] && db.reservations == map[]
    && db.logs == map[] && db.eventKeys == {}
    && forall k | k in db.keys :: db.keys[k].status != KeyReserved && db.keys[k].status != KeyBorrowed
  }

  lemma FreshIsSound(db: Db)
    requires Fresh(db)
    ensures Coupled(db) && Booked(db) && BackingKnown(db) && LogsShaped(db) && Outcomes(db)
    ensures TagsCarried(db, {}) && CompletedGated(db, {})
    ensures Dispatch.StartsOnce(Dispatch.World(db, map[], []))
    ensures AbortProtocol.Sound(AbortProtocol.Device(db, map[], map[], map[], 0))
  {
  }

  /** All invariants of the ledger, from commissioning on, over any run of steps. */
  lemma AlwaysSound(db: Db, steps: seq<Step>)
    requires Fresh(db) && forall i | 0 <= i < |steps| :: FromGateway(steps[i])
    ensures var end := Exec(db, steps);
            && Coupled(end) && Booked(end) && LogsShaped(end) && Outcomes(end)
            && CompletedGated(end, Confirmations(db, steps)) && LoansTold(end) && AllBelong(end)
            && AllCaused(end, steps) && AllExplained(end, steps)
            && Stock(end) == |FullSlots(db)| + TotalDrift(db, steps)
  {
    FreshIsSound(db);
    RunKeeps(db, steps);
    NeverDoubleBooked(db, steps);
    RunShaped(db, steps);
    RunOutcomes(db, steps);
    RunGated(db, steps);
    StockAccounted(db, steps);
    RunLoans(db, steps);
    EveryOperationHasItsCause(db, steps);
    EveryReservationIsExplained(db, steps);
    assert KeysLent(db) == {};
  }
}
