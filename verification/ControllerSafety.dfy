/** Invariants of one car that hold whatever the sensors, buttons and tables do. */
module ControllerSafety {
  import opened Config
  import opened Control
  import opened ElevatorStates
  import opened Requests
  import opened Timers

  /** The joint invariant of motor, door, emergency stop and timers. */
  predicate Safe(c: Car) {
    // the hardware has what the state says
    && c.motorOut == c.state.motorDir
    && c.doorOut == c.state.doorOpen
    && c.inertia == c.state.inertia
    // a running motor
    && (!c.motorOut.Stop? ==>
          c.state.movingState.Moving? && !c.doorOut && !c.state.stopped && Agrees(c.inertia, c.motorOut))
    // an open door closes again: its timer is running
    && (!c.state.stopped ==> (c.doorOut <==> c.state.movingState.DoorOpen?) && (c.doorOut ==> c.doorTimer.active))
    // a car on its way arrives or reports a fault
    && (c.state.movingState.Moving? ==> c.floorTimer.active || c.state.fault)
    && !c.state.movingState.Err?
    && IsFloor(c.state.floor)
  }

  /** Events leave alone what identifies the report, and the table: only sensing and synchronizing
      change them. */
  predicate SameReport(c: Car, d: Car) {
    && d.state.id == c.state.id
    && d.state.active == c.state.active
    && d.state.version == c.state.version
    && d.state.floor == c.state.floor
    && d.requests == c.requests
  }

  lemma StartIsSafe(id: int, floor: int, stopped: bool, obstruction: bool)
    requires IsFloor(floor)
    ensures Safe(StartCar(id, floor, stopped, obstruction))
  {
  }

  /** What safe cars report are exactly the consistent states. */
  lemma SafeCarsReport(s: ElevatorState)
    ensures s.Consistent() <==> exists c: Car :: Safe(c) && c.state == s
  {
    if s.Consistent() {
      var c := Car(s, s.floor, false, s.motorDir, s.doorOpen, s.requests, s.requests, OFF.Start(0, DOOR_OPEN_TIME),
                   OFF.Start(0, FAULT_TIMEOUT), s.inertia);
      assert Safe(c);
    }
  }

  lemma EmergencyStopIsSafe(c: Car, i: Inputs)
    requires Safe(c)
    ensures Safe(c.FsmEmergencyStop(i).0)
  {
  }

  lemma ResetIsSafe(c: Car, now: int)
    requires Safe(c) && c.state.stopped
    ensures Safe(c.FsmEmergencyStopReset(now).0)
  {
  }

  lemma FloorTimeoutIsSafe(c: Car)
    requires Safe(c)
    ensures Safe(c.FsmFloorTimeout().0)
  {
  }

  lemma ChooseDirectionFits(c: Car, f: int)
    ensures var d := c.ChooseDirection(f);
      || (d.moving.Moving? && (d.dir.Up? || d.dir.Down?))
      || (!d.moving.Moving? && !d.moving.Err? && d.dir.Stop?)
    ensures c.ChooseDirection(f).dir.Up? ==> RequestAbove(c.requests, f)
    ensures c.ChooseDirection(f).moving.DoorOpen? ==> RequestHere(c.requests, f)
    ensures c.ChooseDirection(f).dir.Down? ==> RequestBelow(c.requests, f)
    ensures c.ChooseDirection(f).moving.Idle? <==> !NonEmpty(c.requests)
  {
  }

  lemma ExecuteIsSafe(c: Car, d: Decision, now: int)
    requires c.motorOut == c.state.motorDir && c.doorOut == c.state.doorOpen && c.inertia == c.state.inertia
    requires IsFloor(c.state.floor)
    requires (d.moving.Moving? && (d.dir.Up? || d.dir.Down?)) || (!d.moving.Moving? && !d.moving.Err? && d.dir.Stop?)
    requires c.state.stopped ==> Safe(c)
    requires c.doorOut <==> d.moving.DoorOpen?
    requires d.moving.DoorOpen? ==> c.doorTimer.active
    ensures Safe(c.Execute(d, now))
  {
  }

  lemma TableUpdateIsSafe(c: Car, now: int)
    requires Safe(c)
    ensures Safe(c.FsmTableUpdate(now).0)
  {
    var f := c.state.floor;
    if c.state.movingState.Idle? {
      var d := c.ChooseDirection(f);
      ChooseDirectionFits(c, f);
      if d.moving.DoorOpen? {
        ExecuteIsSafe(c.OpenDoor().StartDoorTimer(now), d, now);
      } else if !c.state.obstruction {
        if c.state.stopped {
          assert Safe(c.CloseDoor());
        }
        ExecuteIsSafe(c.CloseDoor(), d, now);
      }
    }
  }

  lemma FloorArrivalIsSafe(c: Car, now: int)
    requires Safe(c)
    ensures Safe(c.FsmFloorArrival(now).0)
  {
    var held := if c.state.floor == 0 then c.SetMotorDir(MotorDir.Stop) else c;
    assert Safe(held);
    var d := held.(state := held.state.(fault := false), floorTimer := held.floorTimer.Start(now, FAULT_TIMEOUT));
    assert Safe(d);
    assert Safe(d.StopAndOpenDoor(now)) || c.state.stopped;
  }

  lemma DoorTimeoutIsSafe(c: Car, now: int)
    requires Safe(c)
    ensures Safe(c.FsmDoorTimeout(now).0)
  {
    var f := c.state.floor;
    var off := c.(doorTimer := c.doorTimer.Stop());
    if !c.state.obstruction && c.state.movingState.DoorOpen? {
      var d := c.ChooseDirection(f);
      ChooseDirectionFits(c, f);
      if !d.moving.DoorOpen? {
        ExecuteIsSafe(off.CloseDoor(), d, now);
      }
    }
  }

  /** Every event keeps the invariant, emergency stop and reset included. */
  lemma DispatchIsSafe(c: Car, i: Inputs)
    requires Safe(c)
    ensures Safe(c.Dispatch(i).0)
  {
    var a := c.(prevFloor := c.state.floor);
    var t := a.(prevRequests := c.requests);
    if c.stopPressed && !c.state.stopped {
      EmergencyStopIsSafe(c, i);
    } else if c.stopPressed {
      ResetIsSafe(c, i.now);
    } else if c.state.floor != c.prevFloor {
      FloorArrivalIsSafe(a, i.now);
    } else if c.requests != c.prevRequests {
      TableUpdateIsSafe(t, i.now);
    } else if c.doorTimer.Expired(i.now) {
      DoorTimeoutIsSafe(t, i.now);
    } else {
      FloorTimeoutIsSafe(t);
    }
  }

  /** Whatever the car was doing, an emergency stop leaves the motor off, nothing pending, and at a
      floor the door open with its timer running. */
  lemma EmergencyStopHalts(c: Car, i: Inputs)
    requires Safe(c) && c.stopPressed && !c.state.stopped
    ensures var d := c.Dispatch(i).0;
      && d.state.stopped && d.motorOut.Stop? && d.state.movingState.Idle? && !d.floorTimer.active
      && (i.sensorAgain != BETWEEN_FLOORS ==> d.doorOut && d.doorTimer == Timer(true, i.now + DOOR_OPEN_TIME))
      && (i.sensorAgain == BETWEEN_FLOORS ==> d.doorOut == c.doorOut && d.doorTimer == c.doorTimer)
      && c.Dispatch(i).1 == Some(NO_CLEAR)
  {
  }

  // Nothing but the car's own fields changes

  lemma EmergencyStopKeepsReport(c: Car, i: Inputs)
    ensures SameReport(c, c.FsmEmergencyStop(i).0)
  {
  }

  lemma ResetKeepsReport(c: Car, now: int)
    ensures SameReport(c, c.FsmEmergencyStopReset(now).0)
  {
  }

  lemma ExecuteKeepsReport(c: Car, d: Decision, now: int)
    ensures SameReport(c, c.Execute(d, now)) && c.Execute(d, now).state.stopped == c.state.stopped
  {
  }

  lemma CloseKeepsReport(c: Car, d: Decision, now: int)
    ensures SameReport(c, c.CloseAndExecute(d, now)) && c.CloseAndExecute(d, now).state.stopped == c.state.stopped
  {
  }

  lemma TableUpdateKeepsReport(c: Car, now: int)
    ensures SameReport(c, c.FsmTableUpdate(now).0) && c.FsmTableUpdate(now).0.state.stopped == c.state.stopped
  {
    if c.state.movingState.Idle? {
      var d := c.ChooseDirection(c.state.floor);
      if d.moving.DoorOpen? {
        ExecuteKeepsReport((if c.state.floor != BETWEEN_FLOORS then c.OpenDoor() else c).StartDoorTimer(now), d, now);
      } else {
        CloseKeepsReport(c, d, now);
      }
    }
  }

  lemma ReachFloorKeepsReport(c: Car, now: int)
    ensures SameReport(c, c.ReachFloor(now)) && c.ReachFloor(now).state.stopped == c.state.stopped
  {
  }

  lemma StopKeepsReport(c: Car, now: int)
    ensures SameReport(c, c.StopAndOpenDoor(now)) && c.StopAndOpenDoor(now).state.stopped == c.state.stopped
  {
  }

  lemma FloorArrivalKeepsReport(c: Car, now: int)
    ensures SameReport(c, c.FsmFloorArrival(now).0) && c.FsmFloorArrival(now).0.state.stopped == c.state.stopped
  {
    ReachFloorKeepsReport(c, now);
    StopKeepsReport(c.ReachFloor(now), now);
  }

  lemma DoorTimeoutKeepsReport(c: Car, now: int)
    ensures SameReport(c, c.FsmDoorTimeout(now).0) && c.FsmDoorTimeout(now).0.state.stopped == c.state.stopped
  {
    var d := c.ChooseDirection(c.state.floor);
    ExecuteKeepsReport(c.(doorTimer := c.doorTimer.Stop()), d, now);
    CloseKeepsReport(c.(doorTimer := c.doorTimer.Stop()), d, now);
  }

  lemma DispatchKeepsReport(c: Car, i: Inputs)
    ensures SameReport(c, c.Dispatch(i).0)
    ensures !c.stopPressed ==> c.Dispatch(i).0.state.stopped == c.state.stopped
  {
    var a := c.(prevFloor := c.state.floor);
    var t := a.(prevRequests := c.requests);
    if c.stopPressed && !c.state.stopped {
      EmergencyStopKeepsReport(c, i);
    } else if c.stopPressed {
      ResetKeepsReport(c, i.now);
    } else if c.state.floor != c.prevFloor && c.state.floor != BETWEEN_FLOORS {
      FloorArrivalKeepsReport(a, i.now);
    } else if c.requests != c.prevRequests {
      TableUpdateKeepsReport(t, i.now);
    } else if c.doorTimer.Expired(i.now) {
      DoorTimeoutKeepsReport(t, i.now);
    }
  }

  /** A stopped car stays stopped, and its motor off, until the button is pressed again. */
  lemma StoppedStaysStopped(c: Car, i: Inputs)
    requires Safe(c) && c.state.stopped && !c.stopPressed
    ensures c.Dispatch(i).0.state.stopped && c.Dispatch(i).0.motorOut.Stop?
  {
    DispatchIsSafe(c, i);
    DispatchKeepsReport(c, i);
  }
}
