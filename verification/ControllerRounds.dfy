/** What one round of the control loop keeps, and exactly when it does not. */
module ControllerRounds {
  import opened Config
  import opened Control
  import opened ControllerSafety
  import opened Orders
  import opened Requests

  /** The car and its event after one round on `table`. */
  function BeginRound(c: Car, i: Inputs, table: BoolTable): (Car, Option<Flags>) {
    c.Sense(i).Sync(table).Dispatch(i)
  }

  lemma SensingIsSafe(c: Car, i: Inputs, table: BoolTable)
    requires Safe(c)
    ensures Safe(c.Sense(i).Sync(table))
  {
  }

  lemma RoundIsSafe(c: Car, i: Inputs, table: BoolTable)
    requires Safe(c)
    ensures Safe(BeginRound(c, i, table).0)
  {
    SensingIsSafe(c, i, table);
    DispatchIsSafe(c.Sense(i).Sync(table), i);
  }

  // Shaft bounds

  /** The motor does not pull against an end of the shaft. */
  predicate ClearOfEnds(c: Car) {
    && (c.motorOut.Up? ==> c.state.floor < FLOORS - 1)
    && (c.motorOut.Down? ==> 0 < c.state.floor)
  }

  /** An emergency stop is reset behind a closed door, at the end of the shaft that the inertia points
      at. */
  predicate ResetsIntoEnd(s: Car) {
    && s.stopPressed && s.state.stopped && !s.state.doorOpen
    && ((s.inertia.Up? && s.state.floor == FLOORS - 1) || (s.inertia.Down? && s.state.floor == 0))
  }

  /** A moving car is at the end of the shaft, and the floor does not count as new: it is the one that
      was last remembered, before an emergency stop left out that it had changed. */
  predicate MissesEnd(s: Car) {
    && !s.stopPressed && s.state.floor == s.prevFloor
    && ((s.motorOut.Up? && s.state.floor == FLOORS - 1) || (s.motorOut.Down? && s.state.floor == 0))
  }

  predicate Overruns(s: Car) { ResetsIntoEnd(s) || MissesEnd(s) }

  lemma ArrivalClears(c: Car, now: int)
    requires Safe(c)
    ensures ClearOfEnds(c.FsmFloorArrival(now).0)
  {
    assert c.motorOut.Up? && c.state.floor == FLOORS - 1 ==> c.ShouldStop(c.state.floor);
  }

  lemma StopClears(c: Car, i: Inputs)
    requires Safe(c) && c.stopPressed
    ensures !c.state.stopped ==> ClearOfEnds(c.FsmEmergencyStop(i).0)
    ensures c.state.stopped ==> (ClearOfEnds(c.FsmEmergencyStopReset(i.now).0) <==> !ResetsIntoEnd(c))
  {
  }

  lemma TableUpdateClears(c: Car, now: int)
    requires Safe(c)
    ensures ClearOfEnds(c.FsmTableUpdate(now).0) <==> ClearOfEnds(c)
  {
    ChooseDirectionFits(c, c.state.floor);
  }

  lemma DoorTimeoutClears(c: Car, now: int)
    requires Safe(c)
    ensures ClearOfEnds(c.FsmDoorTimeout(now).0) <==> ClearOfEnds(c)
  {
    ChooseDirectionFits(c, c.state.floor);
  }

  lemma DispatchClears(s: Car, i: Inputs)
    requires Safe(s)
    ensures ClearOfEnds(s.Dispatch(i).0) <==> !Overruns(s)
  {
    var a := s.(prevFloor := s.state.floor);
    var t := a.(prevRequests := s.requests);
    if s.stopPressed {
      StopClears(s, i);
    } else if s.state.floor != s.prevFloor {
      ArrivalClears(a, i.now);
    } else if s.requests != s.prevRequests {
      TableUpdateClears(t, i.now);
    } else if s.doorTimer.Expired(i.now) {
      DoorTimeoutClears(t, i.now);
    }
  }

  /** Shaft bounds, exactly: whatever the sensors, buttons and tables do, a round leaves a safe car
      with its motor pulling against an end of the shaft if and only if it overruns. */
  lemma RoundClears(c: Car, i: Inputs, table: BoolTable)
    requires Safe(c)
    ensures ClearOfEnds(BeginRound(c, i, table).0) <==> !Overruns(c.Sense(i).Sync(table))
  {
    SensingIsSafe(c, i, table);
    DispatchClears(c.Sense(i).Sync(table), i);
  }

  predicate InShaft(c: Car) {
    ClearOfEnds(c) && c.prevFloor == c.state.floor
  }

  // What has been remembered is left alone by the events themselves

  predicate SameMemory(c: Car, d: Car) { d.prevFloor == c.prevFloor && d.prevRequests == c.prevRequests }

  lemma ArrivalKeepsMemory(c: Car, now: int)
    ensures SameMemory(c, c.FsmFloorArrival(now).0)
  {
  }

  lemma TableUpdateKeepsMemory(c: Car, now: int)
    ensures SameMemory(c, c.FsmTableUpdate(now).0)
  {
  }

  lemma DoorTimeoutKeepsMemory(c: Car, now: int)
    ensures SameMemory(c, c.FsmDoorTimeout(now).0)
  {
  }

  lemma DispatchRemembers(s: Car, i: Inputs)
    requires Safe(s) && !s.stopPressed
    ensures s.Dispatch(i).0.prevFloor == s.state.floor
  {
    var a := s.(prevFloor := s.state.floor);
    var t := a.(prevRequests := s.requests);
    if s.state.floor != s.prevFloor {
      ArrivalKeepsMemory(a, i.now);
    } else if s.requests != s.prevRequests {
      TableUpdateKeepsMemory(t, i.now);
    } else if s.doorTimer.Expired(i.now) {
      DoorTimeoutKeepsMemory(t, i.now);
    }
  }

  /** Without the stop button a round remembers its floor, and so does not overrun. */
  lemma RoundStaysInShaft(c: Car, i: Inputs, table: BoolTable)
    requires Safe(c) && InShaft(c) && !i.stop
    ensures InShaft(BeginRound(c, i, table).0)
  {
    var s := c.Sense(i).Sync(table);
    RoundClears(c, i, table);
    DispatchRemembers(s, i);
    DispatchKeepsReport(s, i);
  }

  // Wake-ups

  /** An idle car has compared its table with an empty one, so the next request will differ. */
  predicate Awake(c: Car) {
    c.state.movingState.Idle? ==> !NonEmpty(c.prevRequests)
  }

  /** The car cannot go where it has chosen to. */
  predicate Held(s: Car) {
    (s.state.obstruction || s.state.stopped) && s.ChooseDirection(s.state.floor).moving.Moving?
  }

  /** The car goes or stays idle although it has taken note of requests: an emergency stop, its reset
      without a direction to go on in, or a change of the table while the car is held. */
  predicate Sleeps(s: Car) {
    if s.stopPressed then
      NonEmpty(s.prevRequests) && (s.state.stopped ==> !s.state.doorOpen && s.inertia.NoInertia?)
    else
      && s.state.movingState.Idle? && s.state.floor == s.prevFloor && s.requests != s.prevRequests
      && Held(s)
  }

  lemma StopWakes(c: Car, i: Inputs)
    requires Safe(c) && c.stopPressed
    ensures !c.state.stopped ==> (Awake(c.FsmEmergencyStop(i).0) <==> !Sleeps(c))
    ensures c.state.stopped ==> (Awake(c.FsmEmergencyStopReset(i.now).0) <==> !Sleeps(c))
  {
  }

  lemma ArrivalWakes(c: Car, now: int)
    requires Safe(c) && Awake(c)
    ensures Awake(c.FsmFloorArrival(now).0)
  {
  }

  lemma TableUpdateWakes(c: Car, now: int)
    requires Safe(c) && c.prevRequests == c.requests
    ensures Awake(c.FsmTableUpdate(now).0) <==> !(c.state.movingState.Idle? && Held(c))
  {
    ChooseDirectionFits(c, c.state.floor);
  }

  lemma DoorTimeoutWakes(c: Car, now: int)
    requires Safe(c) && Awake(c) && c.prevRequests == c.requests
    ensures Awake(c.FsmDoorTimeout(now).0)
  {
    ChooseDirectionFits(c, c.state.floor);
  }

  lemma DispatchWakes(s: Car, i: Inputs)
    requires Safe(s) && Awake(s)
    ensures Awake(s.Dispatch(i).0) <==> !Sleeps(s)
  {
    var a := s.(prevFloor := s.state.floor);
    var t := a.(prevRequests := s.requests);
    if s.stopPressed {
      StopWakes(s, i);
    } else if s.state.floor != s.prevFloor {
      ArrivalWakes(a, i.now);
    } else if s.requests != s.prevRequests {
      TableUpdateWakes(t, i.now);
    } else if s.doorTimer.Expired(i.now) {
      assert t == a;
      DoorTimeoutWakes(t, i.now);
    }
  }

  /** No lost wake-up, exactly: a round leaves an idle car that has taken note of requests if and only
      if it sleeps. */
  lemma RoundWakes(c: Car, i: Inputs, table: BoolTable)
    requires Safe(c) && Awake(c)
    ensures Awake(BeginRound(c, i, table).0) <==> !Sleeps(c.Sense(i).Sync(table))
  {
    SensingIsSafe(c, i, table);
    DispatchWakes(c.Sense(i).Sync(table), i);
  }

  // Reactions

  /** The car opens its door or sets off. */
  predicate Reacts(d: Car) {
    d.state.movingState.DoorOpen? || (d.state.movingState.Moving? && !d.motorOut.Stop?)
  }

  /** Nothing comes before the table, and nothing holds the car; or a reset sets it going. */
  predicate Heeds(s: Car) {
    if s.stopPressed then s.state.stopped && (s.state.doorOpen || !s.inertia.NoInertia?)
    else s.state.floor == s.prevFloor && !Held(s)
  }

  lemma StopReacts(c: Car, i: Inputs)
    requires Safe(c) && c.stopPressed
    ensures !c.state.stopped ==> !Reacts(c.FsmEmergencyStop(i).0)
    ensures c.state.stopped ==>
      (Reacts(c.FsmEmergencyStopReset(i.now).0) <==> c.state.doorOpen || !c.inertia.NoInertia?)
  {
  }

  lemma TableUpdateReacts(c: Car, now: int)
    requires Safe(c) && c.state.movingState.Idle? && NonEmpty(c.requests)
    ensures Reacts(c.FsmTableUpdate(now).0) <==> !Held(c)
  {
    ChooseDirectionFits(c, c.state.floor);
  }

  lemma IdleArrival(c: Car, now: int)
    requires c.state.movingState.Idle?
    ensures !Reacts(c.FsmFloorArrival(now).0)
  {
  }

  /** An idle car that is awake reacts to outstanding requests in the very next round, wherever they
      are, if and only if it heeds them. */
  lemma IdleCarReacts(c: Car, i: Inputs, table: BoolTable)
    requires Safe(c) && Awake(c) && c.state.movingState.Idle? && NonEmpty(table)
    ensures Reacts(BeginRound(c, i, table).0) <==> Heeds(c.Sense(i).Sync(table))
  {
    var s := c.Sense(i).Sync(table);
    SensingIsSafe(c, i, table);
    if s.stopPressed {
      StopReacts(s, i);
    } else if s.state.floor != s.prevFloor {
      IdleArrival(s.(prevFloor := s.state.floor), i.now);
    } else {
      assert s.requests != s.prevRequests;
      TableUpdateReacts(s.(prevFloor := s.state.floor).(prevRequests := s.requests), i.now);
    }
  }
}
