/** Every request is served: a car that is left alone by the emergency stop, by obstructions and by
    new orders empties its table in a bounded number of events. */
module ControllerLiveness {
  import opened Config
  import opened Control
  import opened ControllerRounds
  import opened ControllerSafety
  import opened Orders
  import opened Requests

  /** The table after floor `f` has been cleared. */
  function Served(t: BoolTable, f: int, k: Flags): BoolTable {
    seq(FLOORS, g requires IsFloor(g) => seq(BUTTONS, b requires IsButton(g, b) => t[g][b] && !(g == f && k[b])))
  }

  /** The car after its orders have been updated with what the event `k` clears. */
  function AfterEvent(d: Car, k: Option<Flags>): Car {
    if k.Some? then d.Finish(Served(d.requests, d.state.floor, k.value)) else d
  }

  /** One whole round of a car whose table only changes by what the car serves. */
  function Round(c: Car, i: Inputs): Car {
    var (d, k) := BeginRound(c, i, c.requests);
    AfterEvent(d, k)
  }

  predicate EventFires(c: Car, i: Inputs) { BeginRound(c, i, c.requests).1.Some? }

  /** A world without emergency stop and obstruction, whose floor sensor reads nothing, the floor
      last passed or, while the motor runs, the next floor in its direction. */
  predicate Calm(c: Car, i: Inputs) {
    && !i.stop && !i.obstruction
    && (|| i.sensor == BETWEEN_FLOORS
        || i.sensor == c.state.floor
        || (c.motorOut.Up? && i.sensor == c.state.floor + 1)
        || (c.motorOut.Down? && i.sensor == c.state.floor - 1))
  }

  /** Something happens in this round: the next floor is reached, or the door has been open long
      enough. */
  predicate Prompt(c: Car, i: Inputs) {
    && (c.motorOut.Up? ==> i.sensor == c.state.floor + 1)
    && (c.motorOut.Down? ==> i.sensor == c.state.floor - 1)
    && (c.doorTimer.active ==> c.doorTimer.deadline <= i.now)
  }

  /** A moving car has a reason to move on. */
  predicate Headed(c: Car) {
    || (c.motorOut.Up? && RequestAbove(c.requests, c.state.floor))
    || (c.motorOut.Down? && RequestBelow(c.requests, c.state.floor))
  }

  /** Timers and motor fit the moving state. */
  predicate Fits(c: Car) {
    && IsFloor(c.state.floor)
    && (c.doorTimer.active <==> c.state.movingState.DoorOpen?)
    && (c.floorTimer.active ==> c.state.movingState.Moving?)
    && (c.state.movingState.Moving? ==> !c.motorOut.Stop?)
  }

  /** The invariant of a car at work between rounds. It does not depend on what its table holds. */
  predicate AtWork(c: Car) { Safe(c) && InShaft(c) && Awake(c) && Fits(c) && !c.state.stopped }

  /** Floors to the end of the shaft in the direction of travel, this one included. */
  function Ahead(c: Car): int { if c.motorOut.Up? then FLOORS - c.state.floor else c.state.floor + 1 }

  predicate Changed(c: Car) { c.requests != c.prevRequests }

  /** What a car costs that travels for nothing: it will stop without serving anyone. */
  const IDLE_TRAVEL := 2 * FLOORS + 3

  function Phase(c: Car): nat
    requires IsFloor(c.state.floor)
  {
    match c.state.movingState
    case Moving =>
      2 * Ahead(c) + (if c.floorTimer.active then 1 else 0) + (if Changed(c) then 1 else 0)
      + (if Headed(c) then 0 else IDLE_TRAVEL)
    case Idle => 2 * FLOORS + (if Changed(c) then 4 else 2)
    case DoorOpen => 2 * FLOORS + (if Changed(c) then 3 else 2)
    case Err => 0
  }

  const WEIGHT: nat := 4 * FLOORS + 6

  function Weighed(requests: nat): nat { requests * WEIGHT }

  /** The events left at most: each request served is worth more than any phase. */
  function Rank(c: Car): nat
    requires IsFloor(c.state.floor)
  {
    Weighed(Pending(c.requests)) + Phase(c)
  }

  // Serving

  lemma ServedCount(t: BoolTable, f: int, k: Flags)
    requires IsFloor(f)
    ensures Pending(Served(t, f, k)) <= Pending(t)
    ensures (exists b :: 0 <= b < BUTTONS && k[b] && t[f][b]) ==> Pending(Served(t, f, k)) < Pending(t)
    ensures (forall b :: 0 <= b < BUTTONS && k[b] ==> !t[f][b]) ==> Served(t, f, k) == t
  {
    var u := Served(t, f, k);
    forall g | IsFloor(g) && g != f
      ensures t[g] == u[g]
    {
    }
    CountOneRow(t, u, f, FLOORS);
    if forall b :: 0 <= b < BUTTONS && k[b] ==> !t[f][b] {
      assert u[f] == t[f];
    }
  }

  lemma NothingServed(t: BoolTable, f: int)
    ensures Served(t, f, NO_CLEAR) == t
  {
    forall g | IsFloor(g)
      ensures Served(t, f, NO_CLEAR)[g] == t[g]
    {
    }
  }

  /** A stop at a floor with a request that is allowed to stop there serves at least one. */
  lemma StopServes(c: Car, f: int)
    requires RequestHere(c.requests, f) && c.ShouldStop(f)
    ensures exists b :: 0 <= b < BUTTONS && c.ClearCurrentFloor(f)[b] && c.requests[f][b]
  {
  }

  // Event by event

  predicate Serves(c: Car, k: Flags) {
    exists b :: 0 <= b < BUTTONS && k[b] && Value(c.requests, c.state.floor, b)
  }

  /** What an event must leave: timers and motor that fit and, while requests are outstanding, fewer
      of them or a phase below `phase`. */
  predicate Progress(d: Car, k: Flags, phase: nat) {
    Fits(d) && (Serves(d, k) || !NonEmpty(d.requests) || Phase(d) < phase)
  }

  /** A car has just reached a floor where or after which requests are outstanding. */
  predicate Arriving(s: Car) {
    || (s.motorOut.Up? && (RequestHere(s.requests, s.state.floor) || RequestAbove(s.requests, s.state.floor)))
    || (s.motorOut.Down? && (RequestHere(s.requests, s.state.floor) || RequestBelow(s.requests, s.state.floor)))
  }

  /** The least phase that the car can have had on its way to this floor. */
  function ArrivalPhase(s: Car): nat
    requires IsFloor(s.state.floor)
  {
    2 * (Ahead(s) + 1) + (if Changed(s) then 1 else 0) + (if Arriving(s) then 0 else IDLE_TRAVEL)
  }

  lemma ArrivalProgress(a: Car, now: int)
    requires Safe(a) && Fits(a) && a.state.movingState.Moving?
    requires a.motorOut.Up? ==> 0 < a.state.floor
    ensures Progress(a.FsmFloorArrival(now).0, a.FsmFloorArrival(now).1, ArrivalPhase(a))
  {
    var f := a.state.floor;
    if a.ShouldStop(f) && RequestHere(a.requests, f) {
      StopServes(a, f);
      assert Serves(a.FsmFloorArrival(now).0, a.ClearCurrentFloor(f));
    }
  }

  lemma ChooseProgress(t: Car)
    ensures var d := t.ChooseDirection(t.state.floor);
      && (d.moving.DoorOpen? ==> RequestHere(t.requests, t.state.floor) && t.ShouldStop(t.state.floor))
      && (d.dir.Up? ==> RequestAbove(t.requests, t.state.floor))
      && (d.dir.Down? ==> RequestBelow(t.requests, t.state.floor))
  {
  }

  lemma TableUpdateProgress(t: Car, now: int)
    requires Safe(t) && Fits(t) && !t.state.stopped && !t.state.obstruction && !Changed(t)
    ensures var (d, k) := t.FsmTableUpdate(now);
      Progress(d, k, Phase(t) + if t.state.movingState.Idle? then 2 else 1)
  {
    var f := t.state.floor;
    if t.state.movingState.Idle? {
      ChooseDirectionFits(t, f);
      ChooseProgress(t);
      if t.ChooseDirection(f).moving.DoorOpen? {
        StopServes(t, f);
        assert Serves(t.FsmTableUpdate(now).0, t.ClearCurrentFloor(f));
      }
    }
  }

  lemma DoorTimeoutProgress(t: Car, now: int)
    requires Safe(t) && Fits(t) && !t.state.stopped && !t.state.obstruction && !Changed(t)
    requires t.state.movingState.DoorOpen?
    ensures var (d, k) := t.FsmDoorTimeout(now); Progress(d, k, Phase(t))
  {
    var f := t.state.floor;
    ChooseDirectionFits(t, f);
    ChooseProgress(t);
    if t.ChooseDirection(f).moving.DoorOpen? {
      StopServes(t, f);
      assert Serves(t.FsmDoorTimeout(now).0, t.ClearCurrentFloor(f));
    }
  }

  /** A car at work that has just sensed: a new floor only in the direction of its motor. */
  predicate Sensed(s: Car) {
    && Safe(s) && Fits(s) && !s.stopPressed && !s.state.stopped && !s.state.obstruction
    && (s.state.floor != s.prevFloor ==> s.state.movingState.Moving? && (s.motorOut.Up? ==> 0 < s.state.floor))
  }

  function SensedPhase(s: Car): nat
    requires IsFloor(s.state.floor)
  {
    if s.state.floor == s.prevFloor then Phase(s) else ArrivalPhase(s)
  }

  /** The event of a round that finds no new floor. */
  lemma StandingProgress(s: Car, i: Inputs)
    requires Sensed(s) && s.state.floor == s.prevFloor
    ensures var (d, k) := s.Dispatch(i);
      Progress(d, if k.Some? then k.value else NO_CLEAR, if k.Some? then Phase(s) else Phase(s) + 1)
  {
    var t := s.(prevRequests := s.requests);
    if s.requests != s.prevRequests {
      TableUpdateProgress(t, i.now);
    } else if s.doorTimer.Expired(i.now) {
      DoorTimeoutProgress(t, i.now);
    }
  }

  /** The event of a round, whichever it is. */
  lemma DispatchProgress(s: Car, i: Inputs)
    requires Sensed(s)
    ensures var (d, k) := s.Dispatch(i);
      Progress(d, if k.Some? then k.value else NO_CLEAR, if k.Some? then SensedPhase(s) else SensedPhase(s) + 1)
  {
    if s.state.floor != s.prevFloor {
      ArrivalProgress(s.(prevFloor := s.state.floor), i.now);
    } else {
      StandingProgress(s, i);
    }
  }

  // Round by round

  lemma SensingAtWork(c: Car, i: Inputs, table: BoolTable)
    requires AtWork(c) && Calm(c, i)
    ensures Sensed(c.Sense(i).Sync(table))
  {
  }

  lemma SensingKeepsPhase(c: Car, i: Inputs)
    requires AtWork(c) && Calm(c, i)
    ensures SensedPhase(c.Sense(i).Sync(c.requests)) <= Phase(c)
  {
  }

  /** Whatever the table, a round leaves a car at work at work. */
  lemma RoundKeepsWork(c: Car, i: Inputs, table: BoolTable)
    requires AtWork(c) && Calm(c, i)
    ensures AtWork(BeginRound(c, i, table).0) && BeginRound(c, i, table).0.requests == table
  {
    SensingAtWork(c, i, table);
    RoundIsSafe(c, i, table);
    RoundStaysInShaft(c, i, table);
    RoundWakes(c, i, table);
    DispatchProgress(c.Sense(i).Sync(table), i);
    DispatchKeepsReport(c.Sense(i).Sync(table), i);
  }

  lemma RoundProgress(c: Car, i: Inputs)
    requires AtWork(c) && Calm(c, i)
    ensures var (d, k) := BeginRound(c, i, c.requests);
      Progress(d, if k.Some? then k.value else NO_CLEAR, if k.Some? then Phase(c) else Phase(c) + 1)
  {
    SensingAtWork(c, i, c.requests);
    SensingKeepsPhase(c, i);
    DispatchProgress(c.Sense(i).Sync(c.requests), i);
  }

  lemma PhaseBelowWeight(c: Car)
    requires Safe(c)
    ensures Phase(c) < WEIGHT
  {
  }

  lemma EventKeepsWork(d: Car, k: Option<Flags>)
    requires AtWork(d)
    ensures AtWork(AfterEvent(d, k))
  {
  }

  /** The event has served a request, or the car is one phase further. */
  lemma EventServesOrAdvances(d: Car, k: Option<Flags>, phase: nat)
    requires Safe(d)
    requires Progress(d, if k.Some? then k.value else NO_CLEAR, phase)
    ensures var e := AfterEvent(d, k);
      || Pending(e.requests) < Pending(d.requests)
      || (Pending(e.requests) == Pending(d.requests) && (NonEmpty(d.requests) ==> Phase(e) < phase))
  {
    var flags := if k.Some? then k.value else NO_CLEAR;
    ServedCount(d.requests, d.state.floor, flags);
    if k.Some? && !Serves(d, flags) {
      assert AfterEvent(d, k).requests == d.requests;
    }
  }

  lemma {:induction false} Multiples(p: nat, q: nat, w: nat)
    requires p < q
    ensures p * w + w <= q * w
  {
    assert q * w == (q - 1) * w + w;
    if p < q - 1 {
      Multiples(p, q - 1, w);
    }
  }

  lemma Outweighs(p: nat, q: nat, x: nat, y: nat)
    requires p < q && x < WEIGHT
    ensures p * WEIGHT + x < q * WEIGHT + y
  {
    Multiples(p, q, WEIGHT);
  }

  /** A round leaves a car at work at work, never adds a request, and its event lowers the rank. */
  lemma RoundLowersRank(c: Car, i: Inputs)
    requires AtWork(c) && Calm(c, i)
    ensures var e := Round(c, i);
      && AtWork(e)
      && Pending(e.requests) <= Pending(c.requests)
      && (NonEmpty(c.requests) ==> Rank(e) <= Rank(c))
      && (NonEmpty(c.requests) && EventFires(c, i) ==> Rank(e) < Rank(c))
  {
    var (d, k) := BeginRound(c, i, c.requests);
    RoundKeepsWork(c, i, c.requests);
    RoundProgress(c, i);
    var phase := if k.Some? then Phase(c) else Phase(c) + 1;
    EventKeepsWork(d, k);
    EventServesOrAdvances(d, k, phase);
    var e := AfterEvent(d, k);
    PhaseBelowWeight(e);
    if Pending(e.requests) < Pending(c.requests) {
      Outweighs(Pending(e.requests), Pending(c.requests), Phase(e), Phase(c));
    }
  }

  // Whole runs

  /** The car after the rounds with inputs `ins`. */
  function Rounds(c: Car, ins: seq<Inputs>): Car {
    if ins == [] then c else Round(Rounds(c, ins[..|ins| - 1]), ins[|ins| - 1])
  }

  predicate CalmRun(c: Car, ins: seq<Inputs>) {
    ins == [] || (CalmRun(c, ins[..|ins| - 1]) && Calm(Rounds(c, ins[..|ins| - 1]), ins[|ins| - 1]))
  }

  /** The number of prompt rounds. */
  function PromptRounds(c: Car, ins: seq<Inputs>): nat {
    if ins == [] then 0
    else
      PromptRounds(c, ins[..|ins| - 1]) + if Prompt(Rounds(c, ins[..|ins| - 1]), ins[|ins| - 1]) then 1 else 0
  }

  /** The number of rounds with an event while requests were outstanding. */
  function Events(c: Car, ins: seq<Inputs>): nat {
    if ins == [] then 0
    else
      var d := Rounds(c, ins[..|ins| - 1]);
      Events(c, ins[..|ins| - 1]) + if NonEmpty(d.requests) && EventFires(d, ins[|ins| - 1]) then 1 else 0
  }

  /** However long the run and however the sensor reads in between, at most `Rank(c)` events happen
      before the table is empty, and it stays empty. */
  lemma {:induction false} BoundedEvents(c: Car, ins: seq<Inputs>)
    requires AtWork(c) && CalmRun(c, ins)
    ensures AtWork(Rounds(c, ins))
    ensures Events(c, ins) <= Rank(c)
    ensures NonEmpty(Rounds(c, ins).requests) ==> Events(c, ins) + Rank(Rounds(c, ins)) <= Rank(c)
  {
    if ins != [] {
      var front, i := ins[..|ins| - 1], ins[|ins| - 1];
      BoundedEvents(c, front);
      var d := Rounds(c, front);
      RoundLowersRank(d, i);
      PendingZero(d.requests);
      PendingZero(Round(d, i).requests);
    }
  }

  /** A car at work with an outstanding request is never stuck: a prompt world makes an event. */
  lemma NeverStuck(c: Car, i: Inputs)
    requires AtWork(c) && Calm(c, i) && Prompt(c, i) && NonEmpty(c.requests)
    ensures EventFires(c, i)
  {
  }

  lemma RoundStaysEmpty(c: Car, i: Inputs)
    requires AtWork(c) && Calm(c, i) && !NonEmpty(c.requests)
    ensures !NonEmpty(Round(c, i).requests)
  {
    RoundLowersRank(c, i);
    PendingZero(c.requests);
    PendingZero(Round(c, i).requests);
  }

  lemma {:induction false} PromptRoundsCount(c: Car, ins: seq<Inputs>)
    requires AtWork(c) && CalmRun(c, ins)
    ensures NonEmpty(Rounds(c, ins).requests) ==> PromptRounds(c, ins) <= Events(c, ins)
  {
    if ins != [] {
      var front, i := ins[..|ins| - 1], ins[|ins| - 1];
      PromptRoundsCount(c, front);
      BoundedEvents(c, front);
      var d := Rounds(c, front);
      if !NonEmpty(d.requests) {
        RoundStaysEmpty(d, i);
      } else if Prompt(d, i) {
        NeverStuck(d, i);
      }
    }
  }

  /** Every request is served: the table is empty after at most `Rank(c)` prompt rounds, and it does
      not matter how many other rounds there are between them. */
  lemma EveryRequestIsServed(c: Car, ins: seq<Inputs>)
    requires AtWork(c) && CalmRun(c, ins) && PromptRounds(c, ins) >= Rank(c)
    ensures !NonEmpty(Rounds(c, ins).requests)
  {
    PromptRoundsCount(c, ins);
    BoundedEvents(c, ins);
    var e := Rounds(c, ins);
    if NonEmpty(e.requests) {
      PendingZero(e.requests);
      Multiples(0, Pending(e.requests), WEIGHT);
    }
  }

  /** The bound in numbers: quadratic in the number of floors. */
  const MAX_EVENTS := (3 * FLOORS + 1) * WEIGHT

  lemma RankBound(c: Car)
    requires Safe(c)
    ensures Rank(c) <= MAX_EVENTS
  {
    PhaseBelowWeight(c);
    Outweighs(Pending(c.requests), 3 * FLOORS + 1, Phase(c), 0);
  }

  /** A car that has just been initialized, and not stopped, is at work. */
  lemma StartIsAtWork(id: int, floor: int, obstruction: bool)
    requires IsFloor(floor)
    ensures AtWork(StartCar(id, floor, false, obstruction))
  {
  }
}
