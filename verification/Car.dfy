/** One elevator and its controller as the objects that handle the events in place
    (libs/elevator/src/elevator.cpp, libs/control/src/controller.cpp). */
module Cars {
  import opened Config
  import opened Control
  import opened ElevatorStates
  import opened RequestTables
  import opened Timers

  class Elevator {
    var state: ElevatorState
    var prevFloor: int
    var stopPressed: bool
    // what has been written to the hardware last
    ghost var motorOut: MotorDir
    ghost var doorOut: bool

    constructor (id: int)
      ensures state == Unknown().(id := id)
      ensures prevFloor == 0 && !stopPressed && motorOut.Stop? && !doorOut
    {
      state := Unknown().(id := id);
      prevFloor := 0;
      stopPressed := false;
      motorOut := MotorDir.Stop;
      doorOut := false;
    }

    method SetMotorDir(dir: MotorDir)
      modifies `state, `motorOut
      ensures state == old(state).(motorDir := motorOut)
      ensures motorOut == if state.stopped then MotorDir.Stop else dir
    {
      var newDir;
      if state.stopped {
        newDir := MotorDir.Stop;
      } else {
        newDir := dir;
      }
      motorOut := newDir;
      state := state.(motorDir := newDir);
    }

    /** Drive down until the sensor, polled again and again, finds a floor. */
    method InitToFloor(readings: seq<int>) returns (polls: nat)
      requires !state.stopped && exists k :: 0 <= k < |readings| && readings[k] != BETWEEN_FLOORS
      modifies `state, `motorOut
      ensures polls < |readings| && readings[polls] != BETWEEN_FLOORS
      ensures forall k :: 0 <= k < polls ==> readings[k] == BETWEEN_FLOORS
      ensures state == old(state).(motorDir := MotorDir.Stop) && motorOut.Stop?
    {
      SetMotorDir(MotorDir.Down);
      polls := 0;
      while readings[polls] == BETWEEN_FLOORS
        invariant polls < |readings| && forall k :: 0 <= k < polls ==> readings[k] == BETWEEN_FLOORS
        invariant motorOut.Down? && state == old(state).(motorDir := MotorDir.Down)
        decreases |readings| - polls
      {
        polls := polls + 1;
      }
      SetMotorDir(MotorDir.Stop);
    }

    method InitState()
      modifies `state
      ensures state == old(state).(active := true, fault := false, stopped := false, doorOpen := false,
                motorDir := MotorDir.Stop, movingState := MovingState.Idle, inertia := NoInertia, version := 1)
    {
      state := state.(active := true, fault := false, stopped := false);
      state := state.(doorOpen := false);
      state := state.(motorDir := MotorDir.Stop, movingState := MovingState.Idle, inertia := NoInertia);
      state := state.(version := 1);
    }

    /** The sensor is read once more after the drive, and remembered if it still shows a floor. */
    method Init(readings: seq<int>, sensor: int, stopped: bool, obstruction: bool)
      requires state == Unknown().(id := state.id) && !stopPressed && !doorOut
      requires exists k :: 0 <= k < |readings| && readings[k] != BETWEEN_FLOORS
      modifies this
      ensures var floor := if IsFloor(sensor) then sensor else BETWEEN_FLOORS;
        var c := StartCar(old(state).id, floor, stopped, obstruction);
        && state == c.state && prevFloor == c.prevFloor && motorOut == c.motorOut
        && !stopPressed && !doorOut
    {
      var polls := InitToFloor(readings);
      InitState();
      if 0 <= sensor < FLOORS {
        state := state.(floor := sensor);
      }
      state := state.(stopped := stopped);
      state := state.(obstruction := obstruction);
      prevFloor := state.floor;
    }

    method Step(i: Inputs)
      modifies this
      ensures state == old(state).SetFloor(i.sensor).(obstruction := i.obstruction) && stopPressed == i.stop
      ensures unchanged(`prevFloor) && unchanged(`motorOut) && unchanged(`doorOut)
    {
      if 0 <= i.sensor < FLOORS {
        state := state.(floor := i.sensor);
      }
      state := state.(obstruction := i.obstruction);
      stopPressed := i.stop;
    }

    /** Has the car reached another floor? The floor is remembered. */
    method HitNewFloor() returns (res: bool)
      modifies `prevFloor
      ensures res <==> state.floor != old(prevFloor) && state.floor != BETWEEN_FLOORS
      ensures prevFloor == state.floor
    {
      res := false;
      if state.floor != prevFloor && state.floor != BETWEEN_FLOORS {
        res := true;
      }
      prevFloor := state.floor;
    }

    method OpenDoor()
      modifies `state, `doorOut
      ensures state == old(state).(doorOpen := true, movingState := MovingState.DoorOpen) && doorOut
    {
      doorOut := true;
      state := state.(doorOpen := true);
      state := state.(movingState := MovingState.DoorOpen);
    }

    method CloseDoor()
      modifies `state, `doorOut
      ensures state == old(state).(doorOpen := false) && !doorOut
    {
      doorOut := false;
      state := state.(doorOpen := false);
    }
  }

  class Controller {
    const requests: RequestTable
    const prevRequests: RequestTable
    var doorTimer: Timer
    var floorTimer: Timer
    var inertia: Inertia

    ghost predicate Valid() {
      requests.Valid() && prevRequests.Valid() && requests.table != prevRequests.table
    }

    constructor ()
      ensures Valid() && fresh(requests) && fresh(requests.table) && fresh(prevRequests) && fresh(prevRequests.table)
      ensures doorTimer == OFF && floorTimer == OFF && inertia.NoInertia?
      ensures requests.Contents() == NoRequests() && prevRequests.Contents() == NoRequests()
    {
      requests := new RequestTable();
      prevRequests := new RequestTable();
      doorTimer := OFF;
      floorTimer := OFF;
      inertia := NoInertia;
    }

    /** The car that this controller and its elevator make. */
    ghost function View(elev: Elevator): Car
      requires Valid()
      reads this, elev, requests.table, prevRequests.table
    {
      Car(elev.state, elev.prevFloor, elev.stopPressed, elev.motorOut, elev.doorOut,
          requests.Contents(), prevRequests.Contents(), doorTimer, floorTimer, inertia)
    }

    method SetInertia(elev: Elevator, dir: MotorDir)
      requires Valid()
      modifies `inertia, elev`state
      ensures View(elev) == old(View(elev)).SetInertia(dir)
    {
      if dir.Up? { inertia := Inertia.Up; }
      if dir.Down? { inertia := Inertia.Down; }
      elev.state := elev.state.(inertia := inertia);
    }

    method StopAndOpenDoor(elev: Elevator, now: int)
      requires Valid()
      modifies this, elev`state, elev`motorOut, elev`doorOut
      ensures View(elev) == old(View(elev)).StopAndOpenDoor(now)
    {
      elev.SetMotorDir(MotorDir.Stop);
      elev.OpenDoor();
      doorTimer := doorTimer.Start(now, DOOR_OPEN_TIME);
      floorTimer := floorTimer.Stop();
    }

    method ExecuteDecision(elev: Elevator, d: Decision, now: int)
      requires Valid()
      modifies this, elev`state, elev`motorOut
      ensures View(elev) == old(View(elev)).Execute(d, now)
    {
      if elev.state.stopped { return; }
      elev.SetMotorDir(d.dir);
      elev.state := elev.state.(movingState := d.moving);
      if d.moving.Moving? {
        floorTimer := floorTimer.Start(now, FAULT_TIMEOUT);
      } else {
        floorTimer := floorTimer.Stop();
      }
      SetInertia(elev, d.dir);
    }

    /** Close the door unless it is obstructed. */
    method TryCloseDoor(elev: Elevator, now: int) returns (closed: bool)
      requires Valid()
      modifies `doorTimer, elev`state, elev`doorOut
      ensures closed <==> !old(elev.state).obstruction
      ensures View(elev) ==
        if closed then old(View(elev)).CloseDoor()
        else if old(doorTimer).Expired(now) then old(View(elev)).StartDoorTimer(now)
        else old(View(elev))
    {
      if elev.state.obstruction {
        if doorTimer.Expired(now) { doorTimer := doorTimer.Start(now, DOOR_OPEN_TIME); }
        return false;
      } else {
        elev.CloseDoor();
        return true;
      }
    }

    method CloseAndExecute(elev: Elevator, d: Decision, now: int)
      requires Valid()
      modifies this, elev
      ensures View(elev) == old(View(elev)).CloseAndExecute(d, now)
    {
      var closed := TryCloseDoor(elev, now);
      if closed { ExecuteDecision(elev, d, now); }
    }

    // Decisions

    method ChooseDirection(floor: int) returns (d: Decision)
      requires Valid()
      ensures d == Direction(inertia, requests.Contents(), floor)
    {
      match inertia
      case Up =>
        var above := requests.IsRequestAbove(floor);
        if above { return Decision(MotorDir.Up, MovingState.Moving); }
        var here := requests.IsRequestHere(floor);
        if here { return Decision(MotorDir.Stop, MovingState.DoorOpen); }
        var below := requests.IsRequestBelow(floor);
        if below { return Decision(MotorDir.Down, MovingState.Moving); }
        return Decision(MotorDir.Stop, MovingState.Idle);
      case Down =>
        var below := requests.IsRequestBelow(floor);
        if below { return Decision(MotorDir.Down, MovingState.Moving); }
        var here := requests.IsRequestHere(floor);
        if here { return Decision(MotorDir.Stop, MovingState.DoorOpen); }
        var above := requests.IsRequestAbove(floor);
        if above { return Decision(MotorDir.Up, MovingState.Moving); }
        return Decision(MotorDir.Stop, MovingState.Idle);
      case NoInertia =>
        var here := requests.IsRequestHere(floor);
        if here { return Decision(MotorDir.Stop, MovingState.DoorOpen); }
        var above := requests.IsRequestAbove(floor);
        if above { return Decision(MotorDir.Up, MovingState.Moving); }
        var below := requests.IsRequestBelow(floor);
        if below { return Decision(MotorDir.Down, MovingState.Moving); }
        return Decision(MotorDir.Stop, MovingState.Idle);
    }

    method ShouldStop(floor: int) returns (r: bool)
      requires Valid()
      ensures r == StopsAt(inertia, requests.Contents(), floor)
    {
      match inertia
      case Down =>
        var hall := requests.Value(floor, HALL_DOWN);
        var cab := requests.Value(floor, CAB);
        var below := requests.IsRequestBelow(floor);
        return hall || cab || !below;
      case Up =>
        var hall := requests.Value(floor, HALL_UP);
        var cab := requests.Value(floor, CAB);
        var above := requests.IsRequestAbove(floor);
        return hall || cab || !above;
      case NoInertia =>
        return true;
    }

    method ClearCurrentFloor(floor: int) returns (b2c: Flags)
      requires Valid()
      ensures b2c == ClearedAt(inertia, requests.Contents(), floor)
    {
      var up, down := false, false;
      match inertia {
        case Up =>
          var above := requests.IsRequestAbove(floor);
          var hall := requests.Value(floor, HALL_UP);
          if !above && !hall { down := true; }
          up := true;
        case Down =>
          var below := requests.IsRequestBelow(floor);
          var hall := requests.Value(floor, HALL_DOWN);
          if !below && !hall { up := true; }
          down := true;
        case NoInertia =>
          up := true;
          down := true;
      }
      return [up, down, true];
    }

    /** Has the table changed since the last call? It is remembered. */
    method RequestTableUpdated() returns (res: bool)
      requires Valid()
      modifies prevRequests.table
      ensures res <==> requests.Contents() != old(prevRequests.Contents())
      ensures requests.Contents() == old(requests.Contents()) == prevRequests.Contents()
    {
      res := false;
      if requests.Contents() != prevRequests.Contents() { res := true; }
      prevRequests.SetAll(requests.Contents());
    }

    // Events

    method FsmEmergencyStop(elev: Elevator, i: Inputs) returns (b2c: Flags)
      requires Valid()
      modifies this, elev
      ensures (View(elev), b2c) == old(View(elev)).FsmEmergencyStop(i)
    {
      elev.state := elev.state.(stopped := true);
      elev.SetMotorDir(MotorDir.Stop);
      if i.sensorAgain != BETWEEN_FLOORS {
        if !elev.state.doorOpen { elev.OpenDoor(); }
        doorTimer := doorTimer.Start(i.now, DOOR_OPEN_TIME);
      }
      elev.state := elev.state.(movingState := MovingState.Idle);
      floorTimer := floorTimer.Stop();
      return NO_CLEAR;
    }

    method FsmEmergencyStopReset(elev: Elevator, now: int) returns (b2c: Flags)
      requires Valid()
      modifies this, elev
      ensures (View(elev), b2c) == old(View(elev)).FsmEmergencyStopReset(now)
    {
      elev.state := elev.state.(stopped := false);
      if elev.state.doorOpen {
        elev.state := elev.state.(movingState := MovingState.DoorOpen);
        doorTimer := doorTimer.Start(now, DOOR_OPEN_TIME);
        b2c := ClearCurrentFloor(elev.state.floor);
        return;
      }
      var d := Decision(MotorDir.Stop, MovingState.Idle);
      if inertia.Up? { d := Decision(MotorDir.Up, MovingState.Moving); }
      if inertia.Down? { d := Decision(MotorDir.Down, MovingState.Moving); }
      ExecuteDecision(elev, d, now);
      return NO_CLEAR;
    }

    method FsmTableUpdate(elev: Elevator, now: int) returns (b2c: Flags)
      requires Valid()
      modifies this, elev
      ensures (View(elev), b2c) == old(View(elev)).FsmTableUpdate(now)
    {
      var floor, mov := elev.state.floor, elev.state.movingState;
      if mov.DoorOpen? {
        var stop := ShouldStop(floor);
        if !stop { return NO_CLEAR; }
        doorTimer := doorTimer.Start(now, DOOR_OPEN_TIME);
        b2c := ClearCurrentFloor(floor);
        return;
      }
      if mov.Moving? || mov.Err? { return NO_CLEAR; }
      var d := ChooseDirection(floor);
      if d.moving.DoorOpen? {
        if elev.state.floor != BETWEEN_FLOORS { elev.OpenDoor(); }
        doorTimer := doorTimer.Start(now, DOOR_OPEN_TIME);
        ExecuteDecision(elev, d, now);
        b2c := ClearCurrentFloor(floor);
        return;
      }
      CloseAndExecute(elev, d, now);
      return NO_CLEAR;
    }

    method ReachFloor(elev: Elevator, now: int)
      requires Valid()
      modifies `floorTimer, elev`state, elev`motorOut
      ensures View(elev) == old(View(elev)).ReachFloor(now)
    {
      if elev.state.floor == 0 || elev.state.floor == FLOORS { elev.SetMotorDir(MotorDir.Stop); }
      elev.state := elev.state.(fault := false);
      floorTimer := floorTimer.Start(now, FAULT_TIMEOUT);
    }

    method FsmFloorArrival(elev: Elevator, now: int) returns (b2c: Flags)
      requires Valid()
      modifies this, elev
      ensures (View(elev), b2c) == old(View(elev)).FsmFloorArrival(now)
    {
      var floor, mov := elev.state.floor, elev.state.movingState;
      ReachFloor(elev, now);
      if !mov.Moving? { return NO_CLEAR; }
      var stop := ShouldStop(floor);
      if !stop { return NO_CLEAR; }
      StopAndOpenDoor(elev, now);
      b2c := ClearCurrentFloor(floor);
    }

    method StayOpen(elev: Elevator, d: Decision, now: int)
      requires Valid()
      modifies this, elev`state, elev`motorOut
      ensures View(elev) == old(View(elev)).Execute(d, now).StartDoorTimer(now)
    {
      ExecuteDecision(elev, d, now);
      doorTimer := doorTimer.Start(now, DOOR_OPEN_TIME);
    }

    method FsmDoorTimeout(elev: Elevator, now: int) returns (b2c: Flags)
      requires Valid()
      modifies this, elev
      ensures (View(elev), b2c) == old(View(elev)).FsmDoorTimeout(now)
    {
      var floor := elev.state.floor;
      doorTimer := doorTimer.Stop();
      if elev.state.obstruction {
        doorTimer := doorTimer.Start(now, DOOR_OPEN_TIME);
        return NO_CLEAR;
      }
      if !elev.state.movingState.DoorOpen? { return NO_CLEAR; }
      var d := ChooseDirection(floor);
      if d.moving.DoorOpen? {
        StayOpen(elev, d, now);
        b2c := ClearCurrentFloor(elev.state.floor);
        return;
      }
      CloseAndExecute(elev, d, now);
      return NO_CLEAR;
    }

    method FsmFloorTimeout(elev: Elevator) returns (b2c: Flags)
      requires Valid()
      modifies this, elev
      ensures (View(elev), b2c) == old(View(elev)).FsmFloorTimeout()
    {
      floorTimer := floorTimer.Stop();
      if elev.state.movingState.Moving? {
        elev.state := elev.state.(fault := true);
      }
      return NO_CLEAR;
    }
  }
}
