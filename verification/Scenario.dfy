/** One key, one slot, one user: an ordinary pickup, run from commissioning on. */
module Scenario {
  import opened LedgerTypes
  import opened OperationTx
  import opened ReservationTx
  import opened Services
  import opened Steps
  import opened Coupling
  import opened CouplingRuns
  import opened OneWinner
  import opened EventLog
  import opened Reachable

  const KEY := Key(KeyAvailable, "04A1", 1, 1, true, false, false)

  /** As commissioned. */
  function Start(): Db {
    Db(map[], map[], map[], map[], map[1 := KEY], map[1 := Slot(1, Present, true)],
       map[1 := User(true, true)], map[1 := Online], map[], {})
  }

  const RESERVE := ReserveRequest(1, 1, None, None, None, 0, 1, 0)
  const PICKUP := PickupRequest(1, 1, 1, BLANK, 1, 1, 0, true)

  /** With the key reserved from now on. */
  function Reserved(): Db {
    Start().(reservations := map[1 := Reservation(1, 1, ResActive, 0, 30 * MINUTE, 2 * HOUR, None)],
             keys := map[1 := KEY.(status := KeyReserved)])
  }

  const BORROW := Borrow(1, 1, 1, 1, 1, Borrowing, None, 2 * HOUR, None, false, "", "", 0)
  const TASK := Operation(1, 1, 1, 1, 1, 1, 1, Pickup, OpAuthorized, "", 0, Some(0), None, None, None, "", "")

  const FIRST: seq<Event> := [Event(1, EvRequestReceived, NO_TAG, 0)]
  const OPENING: seq<Event> := FIRST + [Event(2, EvAuthConfirmed, NO_TAG, 0)]

  lemma Logs()
    ensures WithEvent([], EvRequestReceived, NO_TAG, 0) == FIRST
    ensures WithEvent(FIRST, EvAuthConfirmed, NO_TAG, 0) == OPENING
    ensures WithEvent(OPENING, EvCommandDispatching, NO_TAG, 0) == OPENING + [Event(3, EvCommandDispatching, NO_TAG, 0)]
  {
    MaxSeqIsLength([]);
    MaxSeqIsLength(FIRST);
    MaxSeqIsLength(OPENING);
  }

  /** With the pickup prepared. */
  function Requested(): Db {
    Reserved().(
      ops := map[1 := TASK], requests := map[1 := 1], borrows := map[1 := BORROW],
      logs := map[1 := OPENING])
  }

  /** With the pickup begun. */
  function Running(): Db {
    Requested().(
      ops := map[1 := TASK.(status := OpExecuting, sentAt := Some(0))],
      logs := map[1 := OPENING + [Event(3, EvCommandDispatching, NO_TAG, 0)]])
  }

  lemma StartIsFresh()
    ensures Fresh(Start())
  {
  }

  lemma ReserveGranted()
    ensures After(Start(), Reserve(RESERVE)) == Reserved()
  {
    var db := Start();
    assert ReserveObstacle(db, RESERVE) == None;
    assert CreateRow(db, 1, NewReservation(db, RESERVE)) == Commit(Reserved());
  }

  lemma PickupGranted()
    ensures StartPickup(Reserved(), PICKUP) == Outcome(Prepared(1), Requested())
  {
    var db := Reserved();
    assert PickupObstacle(db, PICKUP) == None;
    assert NewPickup(db, PICKUP) == (BORROW, TASK);
    PickupStored(db.(borrows := map[1 := BORROW]));
  }

  lemma PickupStored(db: Db)
    requires db == Reserved().(borrows := map[1 := BORROW])
    ensures InsertOp(db, 1, TASK) == Commit(Requested())
  {
    var inserted := db.(ops := map[1 := TASK], requests := map[1 := 1]);
    Logs();
    var first := LogEvent(inserted, 1, EvRequestReceived, 0);
    assert first == inserted.(logs := map[1 := FIRST]);
    assert LogEvent(first, 1, EvAuthConfirmed, 0) == Requested();
  }

  lemma PickupBegun()
    ensures BeginExecution(Requested(), 1, 0) == Commit(Running())
  {
    Logs();
    assert Running().ops == Requested().ops[1 := TASK.(status := OpExecuting, sentAt := Some(0))];
  }

  lemma RunningIsReached()
    ensures Exec(Start(), [Reserve(RESERVE), AskPickup(PICKUP), Begin(1, 0)]) == Running()
    ensures Coupled(Running())
  {
    ExecThree(Start(), Reserve(RESERVE), AskPickup(PICKUP), Begin(1, 0));
    ReserveGranted();
    AfterGranted();
    AfterBegun();
    StartIsCoupled();
    RunKeeps(Start(), [Reserve(RESERVE), AskPickup(PICKUP), Begin(1, 0)]);
  }

  lemma ExecThree(db: Db, first: Step, second: Step, third: Step)
    ensures Exec(db, [first, second, third]) == After(After(After(db, first), second), third)
  {
    var steps := [first, second, third];
    assert steps[..2][..1] == steps[..1] && steps[..1][..0] == [];
    assert Exec(db, steps[..0]) == db;
    assert Exec(db, steps[..1]) == After(db, first);
    assert Exec(db, steps[..2]) == After(After(db, first), second);
  }

  lemma AfterGranted()
    ensures After(Reserved(), AskPickup(PICKUP)) == Requested()
  {
    PickupGranted();
  }

  lemma AfterBegun()
    ensures After(Requested(), Begin(1, 0)) == Running()
  {
    PickupBegun();
  }

  lemma StartIsCoupled()
    ensures Coupled(Start())
  {
    StartIsFresh();
    FreshIsSound(Start());
  }

  /** The user cancels the reservation while the key is being handed out: the cabinet's success is rolled back. */
  lemma SuccessRolledBack()
    ensures var run := [Reserve(RESERVE), AskPickup(PICKUP), Begin(1, 0), CancelWrite(1)];
            var success := DeviceEvent(1, 1, 7, EvPickupSuccess, NO_TAG, 5 * MINUTE, "", "");
            OnDeviceEvent(Exec(Start(), run), success, true) == Rollback(ReservationInactive)
  {
    var run := [Reserve(RESERVE), AskPickup(PICKUP), Begin(1, 0), CancelWrite(1)];
    var success := DeviceEvent(1, 1, 7, EvPickupSuccess, NO_TAG, 5 * MINUTE, "", "");
    assert run == [Reserve(RESERVE), AskPickup(PICKUP), Begin(1, 0)] + [CancelWrite(1)];
    ExecMore(Start(), [Reserve(RESERVE), AskPickup(PICKUP), Begin(1, 0)], CancelWrite(1));
    RunningIsReached();
    RolledBackFrom(After(Running(), CancelWrite(1)), success);
  }

  lemma RolledBackFrom(end: Db, success: DeviceEvent)
    requires end == After(Running(), CancelWrite(1))
    requires success.op == 1 && success.deviceId == 1 && ReportsSuccess(success.etype)
    ensures OnDeviceEvent(end, success, true) == Rollback(ReservationInactive)
  {
    PickupGranted();
    PickupBegun();
    ReservedIsCoupled();
    WrittenIs(Running(), end);
    OvertakenReportRollsBack(Reserved(), Requested(), Running(), end, PICKUP, 0, success, true);
  }

  lemma WrittenIs(running: Db, end: Db)
    requires end == After(running, CancelWrite(1))
    ensures WriteCancelled(running, 1) == Commit(end)
  {
  }

  lemma ReservedIsCoupled()
    ensures Coupled(Reserved())
  {
    StartIsCoupled();
    StepKeeps(Start(), Reserve(RESERVE));
    ReserveGranted();
  }
}
