/** What the controller decides and what its event handlers leave behind (libs/control/src/controller.cpp
    together with the state changes of libs/elevator/src/elevator.cpp), as functions of one car. */
module Control {
  import opened Config
  import opened ElevatorStates
  import opened Orders
  import opened Requests
  import opened Timers

  /** One flag for each button column of a floor: what to clear there. */
  type Flags = s: seq<bool> | |s| == BUTTONS witness [false, false, false]

  const NO_CLEAR: Flags := [false, false, false]

  datatype Option<+T> = None | Some(value: T)

  datatype Decision = Decision(dir: MotorDir, moving: MovingState)

  /** What one round of the control loop reads from the hardware. `sensorAgain` is the second
      reading of the floor sensor that an emergency stop takes; `stop` is the edge of its button. */
  datatype Inputs = Inputs(sensor: int, sensorAgain: int, obstruction: bool, stop: bool, now: int)

  // Decisions

  /** Go on in the direction of travel while there are requests that way. */
  function Direction(inertia: Inertia, requests: BoolTable, f: int): Decision {
    var up, down := Decision(MotorDir.Up, MovingState.Moving), Decision(MotorDir.Down, MovingState.Moving);
    var here, idle := Decision(MotorDir.Stop, MovingState.DoorOpen), Decision(MotorDir.Stop, MovingState.Idle);
    match inertia
    case Up =>
      if RequestAbove(requests, f) then up
      else if RequestHere(requests, f) then here
      else if RequestBelow(requests, f) then down
      else idle
    case Down =>
      if RequestBelow(requests, f) then down
      else if RequestHere(requests, f) then here
      else if RequestAbove(requests, f) then up
      else idle
    case NoInertia =>
      if RequestHere(requests, f) then here
      else if RequestAbove(requests, f) then up
      else if RequestBelow(requests, f) then down
      else idle
  }

  predicate StopsAt(inertia: Inertia, requests: BoolTable, f: int) {
    match inertia
    case Up => Value(requests, f, HALL_UP) || Value(requests, f, CAB) || !RequestAbove(requests, f)
    case Down => Value(requests, f, HALL_DOWN) || Value(requests, f, CAB) || !RequestBelow(requests, f)
    case NoInertia => true
  }

  /** The calls at floor `f` that a stop there serves: the cab, and a hall call against the travel
      direction only when nothing else keeps the car going. */
  function ClearedAt(inertia: Inertia, requests: BoolTable, f: int): Flags {
    match inertia
    case Up => [true, !RequestAbove(requests, f) && !Value(requests, f, HALL_UP), true]
    case Down => [!RequestBelow(requests, f) && !Value(requests, f, HALL_DOWN), true, true]
    case NoInertia => [true, true, true]
  }

  /** An elevator and its controller. `motorOut` and `doorOut` are the last values written to the
      motor and to the door. */
  datatype Car = Car(
    state: ElevatorState,
    prevFloor: int,
    stopPressed: bool,
    motorOut: MotorDir,
    doorOut: bool,
    requests: BoolTable,
    prevRequests: BoolTable,
    doorTimer: Timer,
    floorTimer: Timer,
    inertia: Inertia)
  {
    // Elevator

    function Sense(i: Inputs): Car {
      this.(state := state.SetFloor(i.sensor).(obstruction := i.obstruction), stopPressed := i.stop)
    }

    function SetMotorDir(dir: MotorDir): Car {
      var d := if state.stopped then MotorDir.Stop else dir;
      this.(state := state.(motorDir := d), motorOut := d)
    }

    function OpenDoor(): Car {
      this.(state := state.(doorOpen := true, movingState := MovingState.DoorOpen), doorOut := true)
    }

    function CloseDoor(): Car { this.(state := state.(doorOpen := false), doorOut := false) }

    // Controller

    function StartDoorTimer(now: int): Car { this.(doorTimer := doorTimer.Start(now, DOOR_OPEN_TIME)) }

    function SetMoving(mov: MovingState): Car { this.(state := state.(movingState := mov)) }

    function SetInertia(dir: MotorDir): Car {
      var i := match dir
        case Up => Inertia.Up
        case Down => Inertia.Down
        case Stop => inertia
        case Err => inertia;
      this.(inertia := i, state := state.(inertia := i))
    }

    function StopAndOpenDoor(now: int): Car {
      var c := SetMotorDir(MotorDir.Stop).OpenDoor().StartDoorTimer(now);
      c.(floorTimer := c.floorTimer.Stop())
    }

    function Execute(d: Decision, now: int): Car {
      if state.stopped then this
      else
        var c := SetMotorDir(d.dir).SetMoving(d.moving);
        var t := if d.moving.Moving? then c.floorTimer.Start(now, FAULT_TIMEOUT) else c.floorTimer.Stop();
        c.(floorTimer := t).SetInertia(d.dir)
    }

    /** The car after `TryCloseDoor`, followed by `d` when the door did close. */
    function CloseAndExecute(d: Decision, now: int): Car {
      if state.obstruction then
        if doorTimer.Expired(now) then StartDoorTimer(now) else this
      else
        CloseDoor().Execute(d, now)
    }

    function ChooseDirection(f: int): Decision { Direction(inertia, requests, f) }

    predicate ShouldStop(f: int) { StopsAt(inertia, requests, f) }

    function ClearCurrentFloor(f: int): Flags { ClearedAt(inertia, requests, f) }

    // Events: the car afterwards, and the calls to clear

    function FsmEmergencyStop(i: Inputs): (Car, Flags) {
      var c := this.(state := state.(stopped := true)).SetMotorDir(MotorDir.Stop);
      var d := if i.sensorAgain == BETWEEN_FLOORS then c
               else (if c.state.doorOpen then c else c.OpenDoor()).StartDoorTimer(i.now);
      (d.SetMoving(MovingState.Idle).(floorTimer := d.floorTimer.Stop()), NO_CLEAR)
    }

    function FsmEmergencyStopReset(now: int): (Car, Flags) {
      var c := this.(state := state.(stopped := false));
      if state.doorOpen then
        (c.SetMoving(MovingState.DoorOpen).StartDoorTimer(now), c.ClearCurrentFloor(state.floor))
      else
        var d := match inertia
          case Up => Decision(MotorDir.Up, MovingState.Moving)
          case Down => Decision(MotorDir.Down, MovingState.Moving)
          case NoInertia => Decision(MotorDir.Stop, MovingState.Idle);
        (c.Execute(d, now), NO_CLEAR)
    }

    function FsmTableUpdate(now: int): (Car, Flags) {
      var f := state.floor;
      match state.movingState
      case DoorOpen =>
        if ShouldStop(f) then (StartDoorTimer(now), ClearCurrentFloor(f)) else (this, NO_CLEAR)
      case Moving => (this, NO_CLEAR)
      case Err => (this, NO_CLEAR)
      case Idle =>
        var d := ChooseDirection(f);
        if d.moving.DoorOpen? then
          var c := (if f != BETWEEN_FLOORS then OpenDoor() else this).StartDoorTimer(now).Execute(d, now);
          (c, c.ClearCurrentFloor(f))
        else
          (CloseAndExecute(d, now), NO_CLEAR)
    }

    /** The car is at a floor: the motor stops at the bottom, and a fault is over. */
    function ReachFloor(now: int): Car {
      var c := if state.floor == 0 || state.floor == FLOORS then SetMotorDir(MotorDir.Stop) else this;
      c.(state := c.state.(fault := false), floorTimer := c.floorTimer.Start(now, FAULT_TIMEOUT))
    }

    function FsmFloorArrival(now: int): (Car, Flags) {
      var f := state.floor;
      var d := ReachFloor(now);
      if !state.movingState.Moving? || !ShouldStop(f) then (d, NO_CLEAR)
      else (d.StopAndOpenDoor(now), d.ClearCurrentFloor(f))
    }

    function FsmDoorTimeout(now: int): (Car, Flags) {
      var f := state.floor;
      var c := this.(doorTimer := doorTimer.Stop());
      if state.obstruction then (c.StartDoorTimer(now), NO_CLEAR)
      else if !state.movingState.DoorOpen? then (c, NO_CLEAR)
      else
        var d := ChooseDirection(f);
        if d.moving.DoorOpen? then
          var e := c.Execute(d, now).StartDoorTimer(now);
          (e, e.ClearCurrentFloor(f))
        else
          (c.CloseAndExecute(d, now), NO_CLEAR)
    }

    function FsmFloorTimeout(): (Car, Flags) {
      var c := this.(floorTimer := floorTimer.Stop());
      (if state.movingState.Moving? then c.(state := c.state.(fault := true)) else c, NO_CLEAR)
    }

    /** The event of one round, by priority. The floor and the table are compared, and remembered,
        only when nothing before them has fired. */
    function Dispatch(i: Inputs): (Car, Option<Flags>) {
      if stopPressed && !state.stopped then
        var (c, k) := FsmEmergencyStop(i); (c, Some(k))
      else if stopPressed then
        var (c, k) := FsmEmergencyStopReset(i.now); (c, Some(k))
      else
        var a := this.(prevFloor := state.floor);
        if state.floor != prevFloor && state.floor != BETWEEN_FLOORS then
          var (c, k) := a.FsmFloorArrival(i.now); (c, Some(k))
        else
          var t := a.(prevRequests := requests);
          if requests != prevRequests then
            var (c, k) := t.FsmTableUpdate(i.now); (c, Some(k))
          else if doorTimer.Expired(i.now) then
            var (c, k) := t.FsmDoorTimeout(i.now); (c, Some(k))
          else if floorTimer.Expired(i.now) then
            var (c, k) := t.FsmFloorTimeout(); (c, Some(k))
          else
            (t, None)
    }

    /** Take over the table that the shared orders give, before the event of the round. */
    function Sync(table: BoolTable): Car {
      this.(requests := table, state := state.IncrementVersion())
    }

    /** Take over the table after the event has cleared what it served. */
    function Finish(table: BoolTable): Car {
      this.(requests := table, state := state.IncrementVersion().(requests := table))
    }
  }

  /** A car after `Init`, standing still at `floor`. */
  function StartCar(id: int, floor: int, stopped: bool, obstruction: bool): Car {
    var s := ElevatorState(id, floor, true, obstruction, false, false, stopped, MotorDir.Stop,
                           MovingState.Idle, 1, NoRequests(), NoInertia);
    Car(s, floor, false, MotorDir.Stop, false, NoRequests(), NoRequests(), OFF, OFF, NoInertia)
  }
}
