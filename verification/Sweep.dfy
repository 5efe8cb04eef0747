/** How a car sweeps the shaft, told from what it reads and from the calls of its table: when it stops and
    whom it serves there, where it sets off to, and what becomes of its door, its fault and its timers. */
module Sweep {
  import opened Config
  import opened Control
  import opened ControllerRounds
  import opened ControllerSafety
  import opened ElevatorStates
  import opened Orders
  import opened Requests
  import opened Timers

  // Calls

  ghost predicate CallAt(t: BoolTable, f: int) {
    exists b :: IsButton(f, b) && t[f][b]
  }

  /** Is floor `g` further on than `f` in this direction? */
  predicate Beyond(dir: Inertia, f: int, g: int) {
    match dir
    case Up => f < g
    case Down => g < f
    case NoInertia => false
  }

  ghost predicate CallAhead(t: BoolTable, f: int, dir: Inertia) {
    exists g :: CallAt(t, g) && Beyond(dir, f, g)
  }

  /** The button of somebody who wants to go the other way. */
  predicate Against(dir: Inertia, b: int) {
    (dir.Up? && b == HALL_DOWN) || (dir.Down? && b == HALL_UP)
  }

  /** Somebody wants to get out here, or in and on in this direction. */
  ghost predicate Wanted(t: BoolTable, f: int, dir: Inertia) {
    exists b :: IsButton(f, b) && t[f][b] && !Against(dir, b)
  }

  /** A stop serves a call unless it is against the direction of travel, and either the car has calls
      ahead or somebody here wants to go on. */
  ghost predicate Fair(t: BoolTable, f: int, dir: Inertia, b: int)
    requires IsFloor(f)
  {
    Against(dir, b) ==> !CallAhead(t, f, dir) && !t[f][if dir.Up? then HALL_UP else HALL_DOWN]
  }

  // Events

  /** The floor of the car once it has read its sensor. */
  function FloorOf(c: Car, i: Inputs): int { if IsFloor(i.sensor) then i.sensor else c.state.floor }

  predicate Arrives(c: Car, i: Inputs) { !i.stop && FloorOf(c, i) != c.prevFloor }

  predicate Notices(c: Car, i: Inputs, t: BoolTable) { !i.stop && !Arrives(c, i) && t != c.prevRequests }

  predicate Undisturbed(c: Car, i: Inputs, t: BoolTable) { !i.stop && !Arrives(c, i) && !Notices(c, i, t) }

  predicate RunOut(t: Timer, now: int) { t.active && t.deadline <= now }

  predicate DoorTimesOut(c: Car, i: Inputs, t: BoolTable) { Undisturbed(c, i, t) && RunOut(c.doorTimer, i.now) }

  predicate FloorTimesOut(c: Car, i: Inputs, t: BoolTable) {
    Undisturbed(c, i, t) && !RunOut(c.doorTimer, i.now) && RunOut(c.floorTimer, i.now)
  }

  /** The car has to choose what to do next. */
  predicate Chooses(c: Car, i: Inputs, t: BoolTable) {
    || (Notices(c, i, t) && c.state.movingState.Idle?)
    || (DoorTimesOut(c, i, t) && c.state.movingState.DoorOpen? && !i.obstruction)
  }

  // Outcomes

  /** There is a reason to stop here, or none to go on. */
  ghost predicate Rests(t: BoolTable, f: int, dir: Inertia) {
    dir.NoInertia? || Wanted(t, f, dir) || !CallAhead(t, f, dir)
  }

  /** The car stops at its floor, or stays there, and serves it. */
  ghost predicate StopsHere(c: Car, i: Inputs, t: BoolTable) {
    var f := FloorOf(c, i);
    || (i.stop && c.state.stopped && c.state.doorOpen)
    || (Arrives(c, i) && c.state.movingState.Moving? && Rests(t, f, c.inertia))
    || (Notices(c, i, t) && c.state.movingState.DoorOpen? && Rests(t, f, c.inertia))
    || (Chooses(c, i, t) && CallAt(t, f) && !CallAhead(t, f, c.inertia))
  }

  /** From rest a car goes on in its direction as long as there are calls ahead. It turns round only when
      there are none, and none here. A car without direction prefers to go up. */
  ghost predicate Attracted(t: BoolTable, f: int, inertia: Inertia, dir: Inertia) {
    && CallAhead(t, f, dir)
    && (dir != inertia ==>
          && !CallAt(t, f) && !CallAhead(t, f, inertia)
          && (inertia.NoInertia? && dir.Down? ==> !CallAhead(t, f, Inertia.Up)))
  }

  /** The motor is started in direction `dir`. */
  ghost predicate SetsOff(c: Car, i: Inputs, t: BoolTable, dir: Inertia) {
    if i.stop then
      c.state.stopped && !c.state.doorOpen && c.inertia == dir && !dir.NoInertia?
    else
      Chooses(c, i, t) && !c.state.stopped && !i.obstruction && Attracted(t, FloorOf(c, i), c.inertia, dir)
  }

  predicate Runs(c: Car, dir: Inertia) { (dir.Up? && c.motorOut.Up?) || (dir.Down? && c.motorOut.Down?) }

  /** A motor runs if it has just been started, or has been running and nothing has stopped it: no stop
      button, no floor to serve, not the bottom of the shaft. */
  ghost predicate MotorFits(c: Car, i: Inputs, t: BoolTable, d: Car, dir: Inertia) {
    Runs(d, dir) <==>
      || SetsOff(c, i, t, dir)
      || (Runs(c, dir) && !i.stop && !StopsHere(c, i, t) && !(Arrives(c, i) && FloorOf(c, i) == 0))
  }

  ghost predicate InertiaFits(c: Car, i: Inputs, t: BoolTable, d: Car) {
    d.inertia ==
      if SetsOff(c, i, t, Inertia.Up) then Inertia.Up
      else if SetsOff(c, i, t, Inertia.Down) then Inertia.Down
      else c.inertia
  }

  /** Exactly the calls that it is fair to serve are cleared, and only by a stop. */
  ghost predicate FlagsFit(c: Car, i: Inputs, t: BoolTable, k: Option<Flags>)
    requires IsFloor(FloorOf(c, i))
  {
    forall b :: 0 <= b < BUTTONS ==>
      ((k.Some? && k.value[b]) <==> StopsHere(c, i, t) && Fair(t, FloorOf(c, i), c.inertia, b))
  }

  // Bridges

  lemma CallsAre(t: BoolTable, f: int)
    ensures CallAt(t, f) <==> RequestHere(t, f)
    ensures CallAhead(t, f, Inertia.Up) <==> RequestAbove(t, f)
    ensures CallAhead(t, f, Inertia.Down) <==> RequestBelow(t, f)
  {
    forall g
      ensures CallAt(t, g) <==> RequestHere(t, g)
    {
      if RequestHere(t, g) {
        assert IsButton(g, HALL_UP) && IsButton(g, HALL_DOWN) && IsButton(g, CAB);
        assert t[g][HALL_UP] || t[g][HALL_DOWN] || t[g][CAB];
      }
    }
  }

  lemma WantedIs(t: BoolTable, f: Floor, dir: Inertia)
    ensures Rests(t, f, dir) <==> StopsAt(dir, t, f)
  {
    CallsAre(t, f);
    assert IsButton(f, HALL_UP) && IsButton(f, HALL_DOWN) && IsButton(f, CAB);
    if StopsAt(dir, t, f) && CallAhead(t, f, dir) {
      assert t[f][CAB] || t[f][HALL_UP] || t[f][HALL_DOWN];
    }
  }

  lemma FairIs(t: BoolTable, f: Floor, dir: Inertia, b: int)
    requires 0 <= b < BUTTONS
    ensures Fair(t, f, dir, b) <==> ClearedAt(dir, t, f)[b]
  {
    CallsAre(t, f);
  }

  /** What attracts a car from rest. */
  lemma DirectionIs(t: BoolTable, f: Floor, inertia: Inertia)
    ensures var d := Direction(inertia, t, f);
      && (d.dir.Up? <==> Attracted(t, f, inertia, Inertia.Up))
      && (d.dir.Down? <==> Attracted(t, f, inertia, Inertia.Down))
      && (d.moving.DoorOpen? <==> CallAt(t, f) && !CallAhead(t, f, inertia))
      && (d.moving.Moving? <==> d.dir.Up? || d.dir.Down?)
      && !d.moving.Err? && !d.dir.Err?
  {
    CallsAre(t, f);
  }

  // Event by event

  /** What a round does to the motor and the inertia of the car, and to the calls of its floor. */
  ghost predicate Sweeps(c: Car, i: Inputs, t: BoolTable, d: Car, k: Option<Flags>)
    requires IsFloor(FloorOf(c, i))
  {
    && MotorFits(c, i, t, d, Inertia.Up) && MotorFits(c, i, t, d, Inertia.Down)
    && InertiaFits(c, i, t, d)
    && FlagsFit(c, i, t, k)
  }

  lemma FlagsAre(t: BoolTable, f: Floor, dir: Inertia)
    ensures forall b :: 0 <= b < BUTTONS ==> (Fair(t, f, dir, b) <==> ClearedAt(dir, t, f)[b])
  {
    forall b | 0 <= b < BUTTONS
      ensures Fair(t, f, dir, b) <==> ClearedAt(dir, t, f)[b]
    {
      FairIs(t, f, dir, b);
    }
  }

  /** The event leaves the inertia and, unless it stops the car, the motor; it clears if `serves`. */
  predicate Keeps(c: Car, d: Car, k: Flags, serves: bool, halts: bool) {
    && d.inertia == c.inertia
    && d.motorOut == (if halts then MotorDir.Stop else c.motorOut)
    && k == if serves then ClearedAt(c.inertia, c.requests, c.state.floor) else NO_CLEAR
  }

  lemma EmergencyStopOutcome(s: Car, i: Inputs)
    ensures var (d, k) := s.FsmEmergencyStop(i); Keeps(s, d, k, false, true)
  {
  }

  /** The car goes on the way it was going, if its door is closed. */
  lemma ResetOutcome(s: Car, now: int)
    requires Safe(s) && s.state.stopped
    ensures var (d, k) := s.FsmEmergencyStopReset(now);
      && d.inertia == s.inertia
      && (Runs(d, Inertia.Up) <==> !s.state.doorOpen && s.inertia.Up?)
      && (Runs(d, Inertia.Down) <==> !s.state.doorOpen && s.inertia.Down?)
      && k == if s.state.doorOpen then ClearedAt(s.inertia, s.requests, s.state.floor) else NO_CLEAR
  {
  }

  lemma ArrivalOutcome(s: Car, now: int)
    requires Safe(s)
    ensures var (d, k) := s.FsmFloorArrival(now);
      var serves := s.state.movingState.Moving? && StopsAt(s.inertia, s.requests, s.state.floor);
      Keeps(s, d, k, serves, serves || s.state.floor == 0)
  {
  }

  lemma ArrivalFits(c: Car, i: Inputs, t: BoolTable, s: Car, d: Car, k: Flags)
    requires Safe(c) && Arrives(c, i) && s == c.Sense(i).Sync(t)
    requires var serves := c.state.movingState.Moving? && StopsAt(s.inertia, s.requests, s.state.floor);
      Keeps(s, d, k, serves, serves || s.state.floor == 0)
    ensures Sweeps(c, i, t, d, Some(k))
  {
    FlagsAre(t, FloorOf(c, i), c.inertia);
    WantedIs(t, FloorOf(c, i), c.inertia);
  }

  lemma ArrivalSweeps(c: Car, i: Inputs, t: BoolTable)
    requires Safe(c) && Arrives(c, i)
    ensures Sweeps(c, i, t, BeginRound(c, i, t).0, BeginRound(c, i, t).1)
  {
    var s := c.Sense(i).Sync(t);
    var a := s.(prevFloor := s.state.floor);
    var (d, k) := a.FsmFloorArrival(i.now);
    ArrivalOutcome(a, i.now);
    ArrivalFits(c, i, t, s, d, k);
    assert BeginRound(c, i, t) == (d, Some(k));
  }

  lemma EmergencyStopFits(c: Car, i: Inputs, t: BoolTable, s: Car, d: Car, k: Flags)
    requires Safe(c) && i.stop && !c.state.stopped && s == c.Sense(i).Sync(t)
    requires Keeps(s, d, k, false, true)
    ensures Sweeps(c, i, t, d, Some(k))
  {
  }

  lemma ResetFits(c: Car, i: Inputs, t: BoolTable, s: Car, d: Car, k: Flags)
    requires Safe(c) && i.stop && c.state.stopped && s == c.Sense(i).Sync(t)
    requires d.inertia == s.inertia
    requires Runs(d, Inertia.Up) <==> !s.state.doorOpen && s.inertia.Up?
    requires Runs(d, Inertia.Down) <==> !s.state.doorOpen && s.inertia.Down?
    requires k == if s.state.doorOpen then ClearedAt(s.inertia, s.requests, s.state.floor) else NO_CLEAR
    ensures Sweeps(c, i, t, d, Some(k))
  {
    FlagsAre(t, FloorOf(c, i), c.inertia);
  }

  lemma StopSweeps(c: Car, i: Inputs, t: BoolTable)
    requires Safe(c) && i.stop
    ensures Sweeps(c, i, t, BeginRound(c, i, t).0, BeginRound(c, i, t).1)
  {
    var s := c.Sense(i).Sync(t);
    if c.state.stopped {
      var (d, k) := s.FsmEmergencyStopReset(i.now);
      ResetOutcome(s, i.now);
      ResetFits(c, i, t, s, d, k);
      assert BeginRound(c, i, t) == (d, Some(k));
    } else {
      var (d, k) := s.FsmEmergencyStop(i);
      EmergencyStopOutcome(s, i);
      EmergencyStopFits(c, i, t, s, d, k);
      assert BeginRound(c, i, t) == (d, Some(k));
    }
  }

  // At rest

  /** The car has chosen: it is served here, sets off unless it is held, or has nowhere to go. */
  predicate Follows(s: Car, d: Car, k: Flags) {
    var e := Direction(s.inertia, s.requests, s.state.floor);
    var free := !s.state.stopped && !s.state.obstruction;
    && (Runs(d, Inertia.Up) <==> free && e.dir.Up?)
    && (Runs(d, Inertia.Down) <==> free && e.dir.Down?)
    && d.inertia == (if free && e.dir.Up? then Inertia.Up else if free && e.dir.Down? then Inertia.Down else s.inertia)
    && k == if e.moving.DoorOpen? then ClearedAt(s.inertia, s.requests, s.state.floor) else NO_CLEAR
  }

  lemma IdleOutcome(s: Car, now: int)
    requires Safe(s) && s.state.movingState.Idle?
    ensures var (d, k) := s.FsmTableUpdate(now); Follows(s, d, k)
  {
    ChooseDirectionFits(s, s.state.floor);
  }

  lemma BusyOutcome(s: Car, now: int)
    requires Safe(s) && !s.state.movingState.Idle?
    ensures var (d, k) := s.FsmTableUpdate(now);
      Keeps(s, d, k, s.state.movingState.DoorOpen? && StopsAt(s.inertia, s.requests, s.state.floor), false)
  {
  }

  lemma DoorTimeoutOutcome(s: Car, now: int)
    requires Safe(s)
    ensures var (d, k) := s.FsmDoorTimeout(now);
      if s.state.movingState.DoorOpen? && !s.state.obstruction then Follows(s, d, k) else Keeps(s, d, k, false, false)
  {
    ChooseDirectionFits(s, s.state.floor);
  }

  lemma ChoiceFits(c: Car, i: Inputs, t: BoolTable, s: Car, d: Car, k: Flags)
    requires Safe(c) && Chooses(c, i, t) && s == c.Sense(i).Sync(t) && Follows(s, d, k)
    ensures Sweeps(c, i, t, d, Some(k))
  {
    FlagsAre(t, FloorOf(c, i), c.inertia);
    DirectionIs(t, FloorOf(c, i), c.inertia);
  }

  lemma NoticeFits(c: Car, i: Inputs, t: BoolTable, s: Car, d: Car, k: Flags)
    requires Safe(c) && Notices(c, i, t) && !Chooses(c, i, t) && s == c.Sense(i).Sync(t)
    requires Keeps(s, d, k, s.state.movingState.DoorOpen? && StopsAt(s.inertia, s.requests, s.state.floor), false)
    ensures Sweeps(c, i, t, d, Some(k))
  {
    FlagsAre(t, FloorOf(c, i), c.inertia);
    WantedIs(t, FloorOf(c, i), c.inertia);
  }

  /** Nothing to do with the sweep. */
  lemma RestFits(c: Car, i: Inputs, t: BoolTable, s: Car, d: Car, k: Option<Flags>)
    requires Safe(c) && Undisturbed(c, i, t) && !Chooses(c, i, t) && s == c.Sense(i).Sync(t)
    requires Keeps(s, d, if k.Some? then k.value else NO_CLEAR, false, false)
    ensures Sweeps(c, i, t, d, k)
  {
  }

  lemma NoticeSweeps(c: Car, i: Inputs, t: BoolTable)
    requires Safe(c) && Notices(c, i, t)
    ensures Sweeps(c, i, t, BeginRound(c, i, t).0, BeginRound(c, i, t).1)
  {
    var s := c.Sense(i).Sync(t);
    var a := s.(prevFloor := s.state.floor).(prevRequests := s.requests);
    var (d, k) := a.FsmTableUpdate(i.now);
    if c.state.movingState.Idle? {
      IdleOutcome(a, i.now);
      ChoiceFits(c, i, t, s, d, k);
    } else {
      BusyOutcome(a, i.now);
      NoticeFits(c, i, t, s, d, k);
    }
    assert BeginRound(c, i, t) == (d, Some(k));
  }

  lemma TimeoutSweeps(c: Car, i: Inputs, t: BoolTable)
    requires Safe(c) && Undisturbed(c, i, t)
    ensures Sweeps(c, i, t, BeginRound(c, i, t).0, BeginRound(c, i, t).1)
  {
    var s := c.Sense(i).Sync(t);
    var a := s.(prevFloor := s.state.floor).(prevRequests := s.requests);
    if RunOut(c.doorTimer, i.now) {
      var (d, k) := a.FsmDoorTimeout(i.now);
      DoorTimeoutOutcome(a, i.now);
      if Chooses(c, i, t) {
        ChoiceFits(c, i, t, s, d, k);
      } else {
        RestFits(c, i, t, s, d, Some(k));
      }
      assert BeginRound(c, i, t) == (d, Some(k));
    } else {
      var (d, k) := BeginRound(c, i, t);
      RestFits(c, i, t, s, d, k);
    }
  }

  /** The sweep, exactly, in every round of every safe car: where the motor runs, where the car turns
      round, and whom it serves. */
  lemma RoundSweeps(c: Car, i: Inputs, t: BoolTable)
    requires Safe(c)
    ensures Sweeps(c, i, t, BeginRound(c, i, t).0, BeginRound(c, i, t).1)
  {
    if i.stop {
      StopSweeps(c, i, t);
    } else if Arrives(c, i) {
      ArrivalSweeps(c, i, t);
    } else if Notices(c, i, t) {
      NoticeSweeps(c, i, t);
    } else {
      TimeoutSweeps(c, i, t);
    }
  }
}
