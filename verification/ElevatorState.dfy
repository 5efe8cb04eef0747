/** The versioned view of one elevator that nodes keep and exchange
    (libs/elevator/src/elevator_state.cpp). */
module ElevatorStates {
  import opened Config
  import opened Orders

  datatype Inertia = Up | Down | NoInertia

  datatype MotorDir = Up | Down | Stop | Err

  datatype MovingState = Idle | DoorOpen | Moving | Err

  predicate Agrees(inertia: Inertia, dir: MotorDir) {
    match dir
    case Up => inertia.Up?
    case Down => inertia.Down?
    case Stop => true
    case Err => false
  }

  datatype ElevatorState = ElevatorState(
    id: int,
    floor: int,
    active: bool,
    obstruction: bool,
    fault: bool,
    doorOpen: bool,
    stopped: bool,
    motorDir: MotorDir,
    movingState: MovingState,
    version: nat,
    requests: BoolTable,
    inertia: Inertia)
  {
    /** Readings outside the shaft, such as `BETWEEN_FLOORS`, leave the last floor in place. */
    function SetFloor(f: int): ElevatorState {
      if IsFloor(f) then this.(floor := f) else this
    }

    function IncrementVersion(): ElevatorState { this.(version := version + 1) }

    /** Keep whichever is newer: restarted peers count from 1 again and are ignored until their
        watchdog has reset the version here to 0. */
    function Merge(rcv: ElevatorState): ElevatorState {
      if rcv.version <= version then this else rcv
    }

    function AfterWatchdogTimeout(): ElevatorState { this.(active := false, version := 0) }

    predicate Usable() { active && !obstruction && !stopped && !fault }

    /** A state that a car can be in: it does not run with its door open, and so on. */
    predicate Consistent() {
      && IsFloor(floor)
      && (!motorDir.Stop? ==> movingState.Moving? && !doorOpen && !stopped && Agrees(inertia, motorDir))
      && (!stopped ==> (doorOpen <==> movingState.DoorOpen?))
      && !movingState.Err?
    }

    predicate Valid() {
      && IsElev(id)
      && IsFloor(floor)
    }
  }

  function NoRequests(): BoolTable { seq(FLOORS, _ => seq(BUTTONS, _ => false)) }

  /** A state nobody has reported yet. */
  function Unknown(): ElevatorState {
    ElevatorState(-1, -1, false, true, false, false, false, MotorDir.Stop, MovingState.Idle, 0,
                  NoRequests(), NoInertia)
  }

  type StateSeq = s: seq<ElevatorState> | |s| == ELEVS witness seq(ELEVS, _ => Unknown())
}
