/**
 * The cabinet's command queue (firmware/esp32/main/mqtt_client_task.c): one worker, and an
 * abort that is acknowledged by another task at once and does not say whom it stops.
 */
module CommandQueue {
  import opened LedgerTypes

  const QUEUE_LENGTH := 8

  /** Where a command stands: acknowledging and moving the motor, waiting for the key, waiting for the door. */
  datatype Stage = Before | AtKey | AtDoor

  /** The worker's position: about to look at the flag, past a look that found it down, or about to publish success. */
  datatype Work = Idle | Working(op: Id, stage: Stage) | Looked(op: Id, stage: Stage) | Closing(op: Id)

  /** The queue, the flag, what has been published, and whose keys the slot sensor has seen move. */
  datatype Cabinet = Cabinet(
    queue: seq<Id>, work: Work, flag: bool, acknowledged: seq<Id>, succeeded: seq<Id>, moved: seq<Id>)

  datatype Act =
    | CommandArrives(op: Id)
    | AbortArrives(op: Id)
    | Begins                 // the worker takes the next command and clears the flag
    | Proceeds               // the motor is done, or a return needs none
    | Looks                  // the flag is sampled; a raised one ends the command in silence
    | Senses(there: bool)    // the sensor of the stage is read
    | Fails                  // a failed outcome
    | Succeeds

  /** After a look: what is waited for is there, or the loop goes on to the next look. */
  function Sensed(work: Work, there: bool): Work
    requires work.Looked?
  {
    if !there then Working(work.op, work.stage)
    else if work.stage == AtDoor then Closing(work.op)
    else Working(work.op, AtDoor)
  }

  /** A key taken out or put in. */
  function Seen(work: Work, there: bool): seq<Id>
    requires work.Looked?
  {
    if there && work.stage == AtKey then [work.op] else []
  }

  /** What does not apply does not happen; a command that finds the queue full is dropped. */
  function Next(c: Cabinet, act: Act): Cabinet {
    match act
    case CommandArrives(op) => if |c.queue| < QUEUE_LENGTH then c.(queue := c.queue + [op]) else c
    case AbortArrives(op) => c.(flag := true, acknowledged := c.acknowledged + [op])
    case Begins =>
      if c.work.Idle? && c.queue != []
      then c.(queue := c.queue[1..], work := Working(c.queue[0], Before), flag := false) else c
    case Proceeds =>
      if c.work.Working? && c.work.stage == Before then c.(work := Working(c.work.op, AtKey)) else c
    case Looks =>
      if !c.work.Working? then c
      else if c.flag then c.(work := Idle)
      else if c.work.stage == Before then c
      else c.(work := Looked(c.work.op, c.work.stage))
    case Senses(there) =>
      if c.work.Looked? then c.(work := Sensed(c.work, there), moved := c.moved + Seen(c.work, there)) else c
    case Fails => c.(work := Idle)
    case Succeeds => if c.work.Closing? then c.(work := Idle, succeeded := c.succeeded + [c.work.op]) else c
  }

  function Run(c: Cabinet, acts: seq<Act>): Cabinet
    decreases |acts|
  {
    if acts == [] then c else Run(Next(c, acts[0]), acts[1..])
  }

  function Successes(c: Cabinet, op: Id): nat {
    multiset(c.succeeded)[op]
  }

  function Moves(c: Cabinet, op: Id): nat {
    multiset(c.moved)[op]
  }

  // ----- whom an abort keeps from success ------------------------------------------------------

  /** The command of `op` is not delivered (again). */
  predicate NotSent(acts: seq<Act>, op: Id) {
    forall i | 0 <= i < |acts| :: acts[i] != CommandArrives(op)
  }

  /** Whatever happens from here on, short of a new command, `op` does not succeed. */
  ghost predicate Stopped(c: Cabinet, op: Id) {
    forall acts | NotSent(acts, op) :: Successes(Run(c, acts), op) == Successes(c, op)
  }

  /** The worker has found the flag down and is about to read the door, or has found it closed. */
  predicate PastStopping(c: Cabinet, op: Id) {
    c.work == Looked(op, AtDoor) || c.work == Closing(op)
  }

  predicate AtWork(c: Cabinet, op: Id) {
    !c.work.Idle? && c.work.op == op
  }

  /** Neither waiting nor past stopping, and if at work, then under a raised flag. */
  predicate Doomed(c: Cabinet, op: Id) {
    op !in c.queue && !PastStopping(c, op) && (AtWork(c, op) ==> c.flag)
  }

  lemma {:induction false} DoomedIsStopped(c: Cabinet, acts: seq<Act>, op: Id)
    requires Doomed(c, op) && NotSent(acts, op)
    ensures Successes(Run(c, acts), op) == Successes(c, op)
    decreases |acts|
  {
    if acts != [] {
      assert acts[0] != CommandArrives(op);
      assert Doomed(Next(c, acts[0]), op);
      DoomedIsStopped(Next(c, acts[0]), acts[1..], op);
    }
  }

  /** Nothing comes in: the worker goes on by itself. */
  predicate OwnActs(acts: seq<Act>) {
    forall i | 0 <= i < |acts| :: !acts[i].CommandArrives? && !acts[i].AbortArrives?
  }

  /** A waiting command gets its turn, and its success. */
  lemma {:induction false} WaitingSucceeds(c: Cabinet, op: Id) returns (acts: seq<Act>)
    requires op in c.queue
    ensures OwnActs(acts)
    ensures NotSent(acts, op)
    ensures Successes(Run(c, acts), op) > Successes(c, op) && Moves(Run(c, acts), op) > Moves(c, op)
    decreases |c.queue|
  {
    var taken := c.(queue := c.queue[1..], work := Working(c.queue[0], Before), flag := false);
    if c.queue[0] == op {
      UndisturbedSucceeds(taken, op);
      acts := [Fails, Begins] + UNDISTURBED;
      NextInLine(c, taken, UNDISTURBED, op);
    } else {
      var rest := WaitingSucceeds(taken, op);
      acts := [Fails, Begins] + rest;
      NextInLine(c, taken, rest, op);
    }
  }

  /** Whatever the worker is at, it can give up and take the next command. */
  lemma NextInLine(c: Cabinet, taken: Cabinet, rest: seq<Act>, op: Id)
    requires c.queue != []
    requires taken == c.(queue := c.queue[1..], work := Working(c.queue[0], Before), flag := false)
    requires OwnActs(rest)
    ensures OwnActs([Fails, Begins] + rest) && NotSent([Fails, Begins] + rest, op)
    ensures Run(c, [Fails, Begins] + rest) == Run(taken, rest)
  {
    RunTwo(c, Fails, Begins, rest);
    assert Next(Next(c, Fails), Begins) == taken;
  }

  /** A command that nothing disturbs. */
  const UNDISTURBED: seq<Act> := [Proceeds, Looks, Senses(true), Looks, Senses(true), Succeeds]

  lemma UndisturbedSucceeds(c: Cabinet, op: Id)
    requires c.work == Working(op, Before) && !c.flag
    ensures Run(c, UNDISTURBED) == c.(work := Idle, succeeded := c.succeeded + [op], moved := c.moved + [op])
    ensures OwnActs(UNDISTURBED)
    ensures Successes(Run(c, UNDISTURBED), op) > Successes(c, op) && Moves(Run(c, UNDISTURBED), op) > Moves(c, op)
  {
    var key := c.(work := Looked(op, AtKey));
    assert UNDISTURBED == [Proceeds, Looks] + UNDISTURBED[2..];
    RunTwo(c, Proceeds, Looks, UNDISTURBED[2..]);
    assert Next(Next(c, Proceeds), Looks) == key;
    TakenSucceeds(key, op);
  }

  lemma TakenSucceeds(c: Cabinet, op: Id)
    requires c.work == Looked(op, AtKey) && !c.flag
    ensures Run(c, UNDISTURBED[2..]) == c.(work := Idle, succeeded := c.succeeded + [op], moved := c.moved + [op])
  {
    var door := c.(work := Looked(op, AtDoor), moved := c.moved + [op]);
    assert UNDISTURBED[2..] == [Senses(true), Looks] + [Senses(true), Succeeds];
    RunTwo(c, Senses(true), Looks, [Senses(true), Succeeds]);
    assert Next(Next(c, Senses(true)), Looks) == door;
    PastStoppingSucceeds(door, op);
  }

  lemma RunTwo(c: Cabinet, first: Act, second: Act, rest: seq<Act>)
    ensures Run(c, [first, second] + rest) == Run(Next(Next(c, first), second), rest)
  {
    var acts := [first, second] + rest;
    assert acts[1..] == [second] + rest && acts[1..][1..] == rest;
  }

  lemma PastStoppingSucceeds(c: Cabinet, op: Id)
    requires PastStopping(c, op)
    ensures Run(c, [Senses(true), Succeeds]) == c.(work := Idle, succeeded := c.succeeded + [op])
    ensures Successes(Run(c, [Senses(true), Succeeds]), op) > Successes(c, op)
  {
    assert [Senses(true), Succeeds] == [Senses(true), Succeeds] + [];
    RunTwo(c, Senses(true), Succeeds, []);
  }

  /**
   * An abort is acknowledged for whatever operation it names. Whom it stops does not depend
   * on that name, but on the worker's position: exactly those that neither wait in the queue
   * nor are past a look at the flag with only the door left to read.
   */
  lemma AbortStopsIff(c: Cabinet, named: Id, op: Id)
    ensures Next(c, AbortArrives(named)).acknowledged == c.acknowledged + [named]
    ensures Stopped(Next(c, AbortArrives(named)), op) <==> op !in c.queue && !PastStopping(c, op)
  {
    var after := Next(c, AbortArrives(named));
    if op in c.queue {
      var acts := WaitingSucceeds(after, op);
      assert Successes(Run(after, acts), op) != Successes(after, op);
    } else if PastStopping(c, op) {
      var acts := [Senses(true), Succeeds];
      PastStoppingSucceeds(after, op);
      assert NotSent(acts, op) && Successes(Run(after, acts), op) != Successes(after, op);
    } else {
      forall acts | NotSent(acts, op) ensures Successes(Run(after, acts), op) == Successes(after, op) {
        DoomedIsStopped(after, acts, op);
      }
    }
  }

  // ----- whose keys an abort keeps from moving -----------------------------------------------------

  /** Whatever happens from here on, short of a new command, the key of `op` is not seen to move. */
  ghost predicate Kept(c: Cabinet, op: Id) {
    forall acts | NotSent(acts, op) :: Moves(Run(c, acts), op) == Moves(c, op)
  }

  /** Neither waiting nor past the look, and if at work, then under a raised flag. */
  predicate StaysShut(c: Cabinet, op: Id) {
    op !in c.queue && c.work != Looked(op, AtKey) && (AtWork(c, op) ==> c.flag)
  }

  lemma {:induction false} ShutIsKept(c: Cabinet, acts: seq<Act>, op: Id)
    requires StaysShut(c, op) && NotSent(acts, op)
    ensures Moves(Run(c, acts), op) == Moves(c, op)
    decreases |acts|
  {
    if acts != [] {
      assert acts[0] != CommandArrives(op);
      assert StaysShut(Next(c, acts[0]), op);
      ShutIsKept(Next(c, acts[0]), acts[1..], op);
    }
  }

  lemma PastLookMoves(c: Cabinet, op: Id)
    requires c.work == Looked(op, AtKey)
    ensures Run(c, [Senses(true)]).moved == c.moved + [op]
  {
    assert [Senses(true)][1..] == [];
  }

  /** Its key is kept iff it neither waits nor is past a look at the flag with only the slot left to read. */
  lemma AbortKeepsKeyIff(c: Cabinet, named: Id, op: Id)
    ensures Kept(Next(c, AbortArrives(named)), op) <==> op !in c.queue && c.work != Looked(op, AtKey)
  {
    var after := Next(c, AbortArrives(named));
    if op in c.queue {
      var acts := WaitingSucceeds(after, op);
      assert Moves(Run(after, acts), op) != Moves(after, op);
    } else if c.work == Looked(op, AtKey) {
      PastLookMoves(after, op);
      assert NotSent([Senses(true)], op) && Moves(Run(after, [Senses(true)]), op) != Moves(after, op);
    } else {
      forall acts | NotSent(acts, op) ensures Moves(Run(after, acts), op) == Moves(after, op) {
        ShutIsKept(after, acts, op);
      }
    }
  }

  lemma {:induction false} SendingsGrow(c: Cabinet, acts: seq<Act>)
    ensures c.acknowledged <= Run(c, acts).acknowledged && c.succeeded <= Run(c, acts).succeeded
    ensures c.moved <= Run(c, acts).moved
    decreases |acts|
  {
    if acts != [] {
      SendingsGrow(Next(c, acts[0]), acts[1..]);
    }
  }

  // ----- reachable cabinets ------------------------------------------------------------------------

  function PoweredOn(): Cabinet {
    Cabinet([], Idle, false, [], [], [])
  }

  /** Each command is delivered once. */
  ghost predicate SentOnce(acts: seq<Act>) {
    forall i, j | 0 <= i < j < |acts| && acts[i].CommandArrives? :: acts[i] != acts[j]
  }

  /** No command is both waiting and at work, or waits twice, or is still to come. */
  ghost predicate EachOnce(c: Cabinet, acts: seq<Act>) {
    && SentOnce(acts)
    && (forall i, j | 0 <= i < j < |c.queue| :: c.queue[i] != c.queue[j])
    && (!c.work.Idle? ==> c.work.op !in c.queue && NotSent(acts, c.work.op))
    && (forall op | op in c.queue :: NotSent(acts, op))
  }

  lemma RestNotSent(acts: seq<Act>)
    requires acts != [] && SentOnce(acts)
    ensures SentOnce(acts[1..])
    ensures forall op | NotSent(acts, op) || acts[0] == CommandArrives(op) :: NotSent(acts[1..], op)
  {
    assert forall i | 0 <= i < |acts[1..]| :: acts[1..][i] == acts[i + 1];
  }

  lemma ArrivalOnce(c: Cabinet, acts: seq<Act>)
    requires acts != [] && acts[0].CommandArrives? && EachOnce(c, acts)
    ensures EachOnce(Next(c, acts[0]), acts[1..])
  {
    RestNotSent(acts);
    forall op | op in c.queue || AtWork(c, op) ensures acts[0] != CommandArrives(op) {
      assert NotSent(acts, op);
    }
  }

  lemma OtherOnce(c: Cabinet, acts: seq<Act>)
    requires acts != [] && !acts[0].CommandArrives? && EachOnce(c, acts)
    ensures EachOnce(Next(c, acts[0]), acts[1..])
  {
    RestNotSent(acts);
    var next := Next(c, acts[0]);
    if acts[0].Begins? && c.work.Idle? && c.queue != [] {
      assert next.queue == c.queue[1..] && next.work.op == c.queue[0] && c.queue[0] in c.queue;
    } else {
      assert next.queue == c.queue && (!next.work.Idle? ==> !c.work.Idle? && next.work.op == c.work.op);
    }
  }

  lemma NextOnce(c: Cabinet, acts: seq<Act>)
    requires acts != [] && EachOnce(c, acts)
    ensures EachOnce(Next(c, acts[0]), acts[1..])
  {
    if acts[0].CommandArrives? { ArrivalOnce(c, acts); } else { OtherOnce(c, acts); }
  }

  lemma {:induction false} RunOnce(c: Cabinet, acts: seq<Act>, rest: seq<Act>)
    requires EachOnce(c, acts + rest)
    ensures EachOnce(Run(c, acts), rest)
    decreases |acts|
  {
    if acts == [] {
      assert acts + rest == rest;
    } else {
      NextOnce(c, acts + rest);
      assert (acts + rest)[1..] == acts[1..] + rest;
      RunOnce(Next(c, acts[0]), acts[1..], rest);
    }
  }

  predicate Outstanding(c: Cabinet, op: Id) {
    op in c.queue || AtWork(c, op)
  }

  /**
   * In every reachable cabinet: an acknowledged abort keeps an outstanding operation from
   * success iff its command is the one at work, and not past a look with only the door left.
   */
  lemma AbortHeededIff(acts: seq<Act>, op: Id)
    requires SentOnce(acts) && Outstanding(Run(PoweredOn(), acts), op)
    ensures var c := Run(PoweredOn(), acts);
            Stopped(Next(c, AbortArrives(op)), op) <==> AtWork(c, op) && !PastStopping(c, op)
  {
    assert acts == acts + [];
    RunOnce(PoweredOn(), acts, []);
    AbortStopsIff(Run(PoweredOn(), acts), op, op);
  }

  /** The companion: an abort for a waiting operation stops the one at work instead. */
  lemma AbortHitsAnother(acts: seq<Act>, waiting: Id, working: Id)
    requires SentOnce(acts) && waiting in Run(PoweredOn(), acts).queue
    requires AtWork(Run(PoweredOn(), acts), working) && !PastStopping(Run(PoweredOn(), acts), working)
    ensures var after := Next(Run(PoweredOn(), acts), AbortArrives(waiting));
            !Stopped(after, waiting) && Stopped(after, working) && waiting != working
  {
    assert acts == acts + [];
    RunOnce(PoweredOn(), acts, []);
    AbortStopsIff(Run(PoweredOn(), acts), waiting, waiting);
    AbortStopsIff(Run(PoweredOn(), acts), waiting, working);
  }

  /** Two commands wait; the first begins, the second is aborted, the first looks at the flag. */
  function Wronged(first: Id, second: Id): seq<Act> {
    [CommandArrives(first), CommandArrives(second)] + ([Begins, AbortArrives(second)] + ([Looks, Begins] + UNDISTURBED))
  }

  /** Such a run, for any two operations: the abort of the second ends the first, and the second succeeds. */
  lemma WrongCommandStopped(first: Id, second: Id)
    requires first != second
    ensures var end := Run(PoweredOn(), Wronged(first, second));
            && end.acknowledged == [second] && end.succeeded == end.moved == [second]
            && end.queue == [] && end.work == Idle
    ensures SentOnce(Wronged(first, second))
  {
    var third := [Looks, Begins] + UNDISTURBED;
    RunTwo(PoweredOn(), CommandArrives(first), CommandArrives(second), [Begins, AbortArrives(second)] + third);
    var queued := Cabinet([first, second], Idle, false, [], [], []);
    assert Next(Next(PoweredOn(), CommandArrives(first)), CommandArrives(second)) == queued;
    RunTwo(queued, Begins, AbortArrives(second), third);
    var hit := Cabinet([second], Working(first, Before), true, [second], [], []);
    assert Next(Next(queued, Begins), AbortArrives(second)) == hit;
    RunTwo(hit, Looks, Begins, UNDISTURBED);
    var next := Cabinet([], Working(second, Before), false, [second], [], []);
    assert Next(Next(hit, Looks), Begins) == next;
    UndisturbedSucceeds(next, second);
    WrongedSentOnce(first, second);
  }

  lemma WrongedSentOnce(first: Id, second: Id)
    requires first != second
    ensures SentOnce(Wronged(first, second))
  {
    var run := Wronged(first, second);
    assert run[0] == CommandArrives(first) && run[1] == CommandArrives(second);
    assert forall i | 2 <= i < |run| :: !run[i].CommandArrives?;
  }

  // ----- the queue itself ---------------------------------------------------------------------------

  /** The commands a run accepts, in order. */
  function Accepted(c: Cabinet, acts: seq<Act>): seq<Id>
    decreases |acts|
  {
    if acts == [] then []
    else
      (if acts[0].CommandArrives? && |c.queue| < 8 then [acts[0].op] else [])
      + Accepted(Next(c, acts[0]), acts[1..])
  }

  /** The commands a run begins, in order. */
  function Begun(c: Cabinet, acts: seq<Act>): seq<Id>
    decreases |acts|
  {
    if acts == [] then []
    else
      (if acts[0].Begins? && c.work.Idle? && c.queue != [] then [c.queue[0]] else [])
      + Begun(Next(c, acts[0]), acts[1..])
  }

  /** First come, first served, never more than eight waiting. */
  lemma {:induction false} InOrder(c: Cabinet, acts: seq<Act>)
    requires |c.queue| <= 8
    ensures Begun(c, acts) + Run(c, acts).queue == c.queue + Accepted(c, acts)
    ensures |Run(c, acts).queue| <= 8
    decreases |acts|
  {
    if acts != [] {
      var after := Next(c, acts[0]);
      var begun, accepted, queue := Begun(after, acts[1..]), Accepted(after, acts[1..]), Run(c, acts).queue;
      InOrder(after, acts[1..]);
      if acts[0].Begins? && c.work.Idle? && c.queue != [] {
        Prepend(c.queue[0], begun, queue, after.queue, accepted);
        assert c.queue == [c.queue[0]] + after.queue;
        assert Accepted(c, acts) == accepted;
      } else if acts[0].CommandArrives? && |c.queue| < 8 {
        Regroup(c.queue, acts[0].op, accepted);
        assert Begun(c, acts) == begun;
      } else {
        assert Begun(c, acts) == begun && Accepted(c, acts) == accepted && after.queue == c.queue;
      }
    }
  }

  lemma Prepend(op: Id, begun: seq<Id>, queue: seq<Id>, rest: seq<Id>, accepted: seq<Id>)
    requires begun + queue == rest + accepted
    ensures ([op] + begun) + queue == ([op] + rest) + accepted
  {
    assert ([op] + begun) + queue == [op] + (begun + queue);
  }

  lemma Regroup(queue: seq<Id>, op: Id, accepted: seq<Id>)
    ensures (queue + [op]) + accepted == queue + ([op] + accepted)
  {
  }

  /** A command that finds the queue full is never run: its operation cannot succeed unless it is sent again. */
  lemma DroppedNeverSucceeds(c: Cabinet, op: Id)
    requires |c.queue| >= 8 && !Outstanding(c, op)
    ensures Stopped(Next(c, CommandArrives(op)), op)
  {
    forall acts | NotSent(acts, op) ensures Successes(Run(c, acts), op) == Successes(c, op) {
      DoomedIsStopped(c, acts, op);
    }
  }
}
