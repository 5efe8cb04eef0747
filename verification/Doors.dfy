/** The door, the timers and the fault of a car, round by round, told from what the car reads. */
module Doors {
  import opened Config
  import opened Control
  import opened ControllerRounds
  import opened ControllerSafety
  import opened ElevatorStates
  import opened Orders
  import opened Sweep
  import opened Timers

  /** An emergency stop that finds the car at a floor. */
  predicate HaltsAtFloor(c: Car, i: Inputs) { i.stop && !c.state.stopped && i.sensorAgain != BETWEEN_FLOORS }

  /** The door opens for an emergency stop, or because the car reaches a floor to serve or is called to
      the one where it rests. */
  ghost predicate Opens(c: Car, i: Inputs, t: BoolTable) {
    HaltsAtFloor(c, i) || (!i.stop && StopsHere(c, i, t) && !c.state.movingState.DoorOpen?)
  }

  /** It closes when the car chooses to go or to rest, unless it is obstructed. */
  ghost predicate Closes(c: Car, i: Inputs, t: BoolTable) {
    Chooses(c, i, t) && !StopsHere(c, i, t) && !i.obstruction
  }

  /** An obstructed car has waited as long as its door is to be open, in vain. */
  ghost predicate WaitsOn(c: Car, i: Inputs, t: BoolTable) {
    && i.obstruction && RunOut(c.doorTimer, i.now)
    && (DoorTimesOut(c, i, t) || (Notices(c, i, t) && c.state.movingState.Idle? && !StopsHere(c, i, t)))
  }

  ghost predicate DoorFits(c: Car, i: Inputs, t: BoolTable, d: Car) {
    && (d.state.doorOpen <==> Opens(c, i, t) || (c.state.doorOpen && !Closes(c, i, t)))
    && d.doorTimer ==
         if StopsHere(c, i, t) || HaltsAtFloor(c, i) || WaitsOn(c, i, t) then Timer(true, i.now + DOOR_OPEN_TIME)
         else if DoorTimesOut(c, i, t) then c.doorTimer.Stop()
         else c.doorTimer
  }

  ghost predicate Departs(c: Car, i: Inputs, t: BoolTable) {
    SetsOff(c, i, t, Inertia.Up) || SetsOff(c, i, t, Inertia.Down)
  }

  /** The car stops, decides to stay or to rest, or is late. */
  ghost predicate EndsTrip(c: Car, i: Inputs, t: BoolTable) {
    || (i.stop && !(c.state.stopped && c.state.doorOpen))
    || (Arrives(c, i) && StopsHere(c, i, t))
    || (Chooses(c, i, t) && !c.state.stopped && (StopsHere(c, i, t) || !i.obstruction))
    || FloorTimesOut(c, i, t)
  }

  /** A car on its way has five seconds from floor to floor. A fault is that it took longer, and is over
      at the next floor. */
  ghost predicate TripFits(c: Car, i: Inputs, t: BoolTable, d: Car) {
    && (d.state.movingState.Moving? <==>
          Departs(c, i, t) || (c.state.movingState.Moving? && !i.stop && !StopsHere(c, i, t)))
    && (if Departs(c, i, t) || (Arrives(c, i) && !StopsHere(c, i, t)) then
          d.floorTimer == Timer(true, i.now + FAULT_TIMEOUT)
        else if EndsTrip(c, i, t) then !d.floorTimer.active
        else d.floorTimer == c.floorTimer)
    && (d.state.fault <==> !Arrives(c, i) && (c.state.fault || (FloorTimesOut(c, i, t) && c.state.movingState.Moving?)))
  }

  /** What a car reports besides, and remembers. */
  predicate ReportFits(c: Car, i: Inputs, t: BoolTable, d: Car) {
    && d.state.floor == FloorOf(c, i) && d.state.obstruction == i.obstruction
    && d.state.stopped == (c.state.stopped != i.stop)
    && d.state.version == c.state.version + 1
    && d.requests == t
    && d.prevFloor == (if i.stop then c.prevFloor else FloorOf(c, i))
    && d.prevRequests == if i.stop || Arrives(c, i) then c.prevRequests else t
  }

  // Handlers

  /** Not touched by the event. */
  predicate Untouched(s: Car, d: Car) {
    d.state.obstruction == s.state.obstruction && SameReport(s, d) && SameMemory(s, d)
  }

  predicate Halted(s: Car, d: Car, i: Inputs) {
    var halts := i.sensorAgain != BETWEEN_FLOORS;
    && d.state.doorOpen == (s.state.doorOpen || halts)
    && d.doorTimer == (if halts then Timer(true, i.now + DOOR_OPEN_TIME) else s.doorTimer)
    && !d.state.movingState.Moving? && !d.floorTimer.active && d.state.stopped && d.state.fault == s.state.fault
  }

  predicate Restarted(s: Car, d: Car, now: int) {
    var departs := !s.state.doorOpen && !s.inertia.NoInertia?;
    && d.state.doorOpen == s.state.doorOpen
    && d.doorTimer == (if s.state.doorOpen then Timer(true, now + DOOR_OPEN_TIME) else s.doorTimer)
    && (d.state.movingState.Moving? <==> departs)
    && (if departs then d.floorTimer == Timer(true, now + FAULT_TIMEOUT)
        else if s.state.doorOpen then d.floorTimer == s.floorTimer
        else !d.floorTimer.active)
    && !d.state.stopped && d.state.fault == s.state.fault
  }

  predicate Arrived(s: Car, d: Car, now: int) {
    var serves := s.state.movingState.Moving? && StopsAt(s.inertia, s.requests, s.state.floor);
    && d.state.doorOpen == (s.state.doorOpen || serves)
    && d.doorTimer == (if serves then Timer(true, now + DOOR_OPEN_TIME) else s.doorTimer)
    && (d.state.movingState.Moving? <==> s.state.movingState.Moving? && !serves)
    && (if serves then !d.floorTimer.active else d.floorTimer == Timer(true, now + FAULT_TIMEOUT))
    && !d.state.fault && d.state.stopped == s.state.stopped
  }

  /** The car has chosen: to stay here, to set off or to rest. */
  predicate Chosen(s: Car, d: Car, now: int) {
    var e := Direction(s.inertia, s.requests, s.state.floor);
    var departs := e.moving.Moving? && !s.state.obstruction && !s.state.stopped;
    && d.state.doorOpen == (if e.moving.DoorOpen? then s.state.doorOpen || s.state.movingState.Idle?
                            else s.state.doorOpen && s.state.obstruction)
    && (d.state.movingState.Moving? <==> departs)
    && (if departs then d.floorTimer == Timer(true, now + FAULT_TIMEOUT)
        else if s.state.stopped || (s.state.obstruction && !e.moving.DoorOpen?) then d.floorTimer == s.floorTimer
        else !d.floorTimer.active)
    && d.state.stopped == s.state.stopped && d.state.fault == s.state.fault
    && (e.moving.DoorOpen? ==> d.doorTimer == Timer(true, now + DOOR_OPEN_TIME))
    && (!e.moving.DoorOpen? ==>
          d.doorTimer ==
            if s.state.movingState.DoorOpen? then s.doorTimer.Stop()
            else if s.state.obstruction && s.doorTimer.Expired(now) then Timer(true, now + DOOR_OPEN_TIME)
            else s.doorTimer)
  }

  /** Nothing but the door timer changes. */
  predicate Waits(s: Car, d: Car) {
    && d.state.doorOpen == s.state.doorOpen && d.state.movingState == s.state.movingState
    && d.state.stopped == s.state.stopped && d.state.fault == s.state.fault && d.floorTimer == s.floorTimer
  }

  lemma EmergencyStopTimes(s: Car, i: Inputs)
    requires Safe(s)
    ensures var d := s.FsmEmergencyStop(i).0; Halted(s, d, i) && Untouched(s, d)
  {
  }

  lemma ResetTimes(s: Car, now: int)
    requires Safe(s) && s.state.stopped
    ensures var d := s.FsmEmergencyStopReset(now).0; Restarted(s, d, now) && Untouched(s, d)
  {
  }

  lemma ArrivalTimes(s: Car, now: int)
    requires Safe(s)
    ensures Arrived(s, s.FsmFloorArrival(now).0, now)
  {
  }

  lemma ArrivalTouches(s: Car, now: int)
    requires Safe(s)
    ensures Untouched(s, s.FsmFloorArrival(now).0)
  {
    FloorArrivalKeepsReport(s, now);
    ArrivalKeepsMemory(s, now);
  }

  lemma IdleTimes(s: Car, now: int)
    requires Safe(s) && s.state.movingState.Idle?
    ensures var d := s.FsmTableUpdate(now).0; Chosen(s, d, now) && Untouched(s, d)
  {
    ChooseDirectionFits(s, s.state.floor);
  }

  lemma DoorTimeoutTimes(s: Car, now: int)
    requires Safe(s) && s.state.movingState.DoorOpen? && !s.state.obstruction
    ensures var d := s.FsmDoorTimeout(now).0; Chosen(s, d, now) && Untouched(s, d)
  {
    ChooseDirectionFits(s, s.state.floor);
  }

  lemma BusyTimes(s: Car, now: int)
    requires Safe(s) && !s.state.movingState.Idle?
    ensures var d := s.FsmTableUpdate(now).0;
      var serves := s.state.movingState.DoorOpen? && StopsAt(s.inertia, s.requests, s.state.floor);
      && Waits(s, d) && Untouched(s, d)
      && d.doorTimer == if serves then Timer(true, now + DOOR_OPEN_TIME) else s.doorTimer
  {
  }

  lemma HeldTimes(s: Car, now: int)
    requires Safe(s) && (s.state.obstruction || !s.state.movingState.DoorOpen?)
    ensures var d := s.FsmDoorTimeout(now).0;
      && Waits(s, d) && Untouched(s, d)
      && d.doorTimer == if s.state.obstruction then Timer(true, now + DOOR_OPEN_TIME) else s.doorTimer.Stop()
  {
  }

  /** A car that is late reports a fault, once. */
  predicate Late(s: Car, d: Car) {
    && d.state.doorOpen == s.state.doorOpen && d.state.movingState == s.state.movingState
    && d.doorTimer == s.doorTimer && d.floorTimer == s.floorTimer.Stop() && d.state.stopped == s.state.stopped
    && d.state.fault == (s.state.fault || s.state.movingState.Moving?)
  }

  lemma FloorTimeoutTimes(s: Car)
    ensures var d := s.FsmFloorTimeout().0; Late(s, d) && Untouched(s, d)
  {
  }

  // Event by event

  /** What a round does to door, timers, fault and report. */
  ghost predicate Fits(c: Car, i: Inputs, t: BoolTable, d: Car) {
    DoorFits(c, i, t, d) && TripFits(c, i, t, d) && ReportFits(c, i, t, d)
  }

  lemma EmergencyStopFits(c: Car, i: Inputs, t: BoolTable, s: Car, d: Car)
    requires Safe(c) && i.stop && !c.state.stopped && s == c.Sense(i).Sync(t)
    requires Halted(s, d, i) && Untouched(s, d)
    ensures Fits(c, i, t, d)
  {
  }

  lemma ResetFits(c: Car, i: Inputs, t: BoolTable, s: Car, d: Car)
    requires Safe(c) && i.stop && c.state.stopped && s == c.Sense(i).Sync(t)
    requires Restarted(s, d, i.now) && Untouched(s, d)
    ensures Fits(c, i, t, d)
  {
  }

  lemma ArrivalFits(c: Car, i: Inputs, t: BoolTable, a: Car, d: Car)
    requires Safe(c) && Arrives(c, i) && a == c.Sense(i).Sync(t).(prevFloor := FloorOf(c, i))
    requires Arrived(a, d, i.now) && Untouched(a, d)
    ensures Fits(c, i, t, d)
  {
    WantedIs(t, FloorOf(c, i), c.inertia);
  }

  function Remembering(c: Car, i: Inputs, t: BoolTable): Car {
    c.Sense(i).Sync(t).(prevFloor := FloorOf(c, i)).(prevRequests := t)
  }

  lemma ChoiceFits(c: Car, i: Inputs, t: BoolTable, a: Car, d: Car)
    requires Safe(c) && Chooses(c, i, t) && a == Remembering(c, i, t)
    requires Chosen(a, d, i.now) && Untouched(a, d)
    ensures Fits(c, i, t, d)
  {
    DirectionIs(t, FloorOf(c, i), c.inertia);
  }

  lemma NoticeFits(c: Car, i: Inputs, t: BoolTable, a: Car, d: Car)
    requires Safe(c) && Notices(c, i, t) && !Chooses(c, i, t) && a == Remembering(c, i, t)
    requires Waits(a, d) && Untouched(a, d)
    requires var serves := a.state.movingState.DoorOpen? && StopsAt(a.inertia, a.requests, a.state.floor);
      d.doorTimer == if serves then Timer(true, i.now + DOOR_OPEN_TIME) else a.doorTimer
    ensures Fits(c, i, t, d)
  {
    WantedIs(t, FloorOf(c, i), c.inertia);
  }

  lemma HeldFits(c: Car, i: Inputs, t: BoolTable, a: Car, d: Car)
    requires Safe(c) && DoorTimesOut(c, i, t) && !Chooses(c, i, t) && a == Remembering(c, i, t)
    requires Waits(a, d) && Untouched(a, d)
    requires d.doorTimer == if a.state.obstruction then Timer(true, i.now + DOOR_OPEN_TIME) else a.doorTimer.Stop()
    ensures Fits(c, i, t, d)
  {
  }

  lemma LateFits(c: Car, i: Inputs, t: BoolTable, a: Car, d: Car)
    requires Safe(c) && FloorTimesOut(c, i, t) && a == Remembering(c, i, t)
    requires Late(a, d) && Untouched(a, d)
    ensures Fits(c, i, t, d)
  {
  }

  lemma NothingFits(c: Car, i: Inputs, t: BoolTable)
    requires Safe(c) && Undisturbed(c, i, t) && !RunOut(c.doorTimer, i.now) && !RunOut(c.floorTimer, i.now)
    ensures Fits(c, i, t, Remembering(c, i, t))
  {
  }

  // Rounds

  lemma StopRoundFits(c: Car, i: Inputs, t: BoolTable)
    requires Safe(c) && i.stop
    ensures Fits(c, i, t, BeginRound(c, i, t).0)
  {
    var s := c.Sense(i).Sync(t);
    if c.state.stopped {
      ResetTimes(s, i.now);
      ResetFits(c, i, t, s, s.FsmEmergencyStopReset(i.now).0);
    } else {
      EmergencyStopTimes(s, i);
      EmergencyStopFits(c, i, t, s, s.FsmEmergencyStop(i).0);
    }
  }

  lemma ArrivalRoundFits(c: Car, i: Inputs, t: BoolTable)
    requires Safe(c) && Arrives(c, i)
    ensures Fits(c, i, t, BeginRound(c, i, t).0)
  {
    var a := c.Sense(i).Sync(t).(prevFloor := FloorOf(c, i));
    ArrivalTimes(a, i.now);
    ArrivalTouches(a, i.now);
    ArrivalFits(c, i, t, a, a.FsmFloorArrival(i.now).0);
  }

  lemma NoticeRoundFits(c: Car, i: Inputs, t: BoolTable)
    requires Safe(c) && Notices(c, i, t)
    ensures Fits(c, i, t, BeginRound(c, i, t).0)
  {
    var a := Remembering(c, i, t);
    if c.state.movingState.Idle? {
      IdleTimes(a, i.now);
      ChoiceFits(c, i, t, a, a.FsmTableUpdate(i.now).0);
    } else {
      BusyTimes(a, i.now);
      NoticeFits(c, i, t, a, a.FsmTableUpdate(i.now).0);
    }
  }

  lemma TimeoutRoundFits(c: Car, i: Inputs, t: BoolTable)
    requires Safe(c) && DoorTimesOut(c, i, t)
    ensures Fits(c, i, t, BeginRound(c, i, t).0)
  {
    var a := Remembering(c, i, t);
    if Chooses(c, i, t) {
      DoorTimeoutTimes(a, i.now);
      ChoiceFits(c, i, t, a, a.FsmDoorTimeout(i.now).0);
    } else {
      HeldTimes(a, i.now);
      HeldFits(c, i, t, a, a.FsmDoorTimeout(i.now).0);
    }
  }

  lemma QuietRoundFits(c: Car, i: Inputs, t: BoolTable)
    requires Safe(c) && Undisturbed(c, i, t) && !RunOut(c.doorTimer, i.now)
    ensures Fits(c, i, t, BeginRound(c, i, t).0)
  {
    var a := Remembering(c, i, t);
    if RunOut(c.floorTimer, i.now) {
      FloorTimeoutTimes(a);
      LateFits(c, i, t, a, a.FsmFloorTimeout().0);
    } else {
      NothingFits(c, i, t);
    }
  }

  /** Door, timers, fault and report, exactly, after every round of every safe car. */
  lemma RoundFits(c: Car, i: Inputs, t: BoolTable)
    requires Safe(c)
    ensures Fits(c, i, t, BeginRound(c, i, t).0)
  {
    if i.stop {
      StopRoundFits(c, i, t);
    } else if Arrives(c, i) {
      ArrivalRoundFits(c, i, t);
    } else if Notices(c, i, t) {
      NoticeRoundFits(c, i, t);
    } else if RunOut(c.doorTimer, i.now) {
      TimeoutRoundFits(c, i, t);
    } else {
      QuietRoundFits(c, i, t);
    }
  }
}
