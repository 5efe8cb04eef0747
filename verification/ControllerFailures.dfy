/** Two histories of a car, from its start on, that show the shaft bounds and the wake-ups fail where
    they are said to. */
module ControllerFailures {
  import opened Config
  import opened Control
  import opened ControllerLiveness
  import opened ControllerRounds
  import opened ControllerSafety
  import opened ElevatorStates
  import opened Orders
  import opened Requests
  import opened Timers

  /** One whole round on `table`, from which the car clears what it serves. */
  function Live(c: Car, i: Inputs, table: BoolTable): Car {
    var (d, k) := BeginRound(c, i, table);
    AfterEvent(d, k)
  }

  /** A car call to floor `g`, and nothing else. */
  function CallTo(g: int): BoolTable {
    var t := seq(FLOORS, f requires IsFloor(f) => [false, false, f == g]);
    assert forall f :: IsFloor(f) ==> |t[f]| == BUTTONS;
    t
  }

  lemma CallRequests(g: Floor, f: int)
    ensures RequestHere(CallTo(g), f) <==> f == g
    ensures RequestAbove(CallTo(g), f) <==> f < g
    ensures RequestBelow(CallTo(g), f) <==> g < f
    ensures CallTo(g) != NoRequests()
  {
    assert RequestHere(CallTo(g), g);
    assert CallTo(g)[g][CAB] && !NoRequests()[g][CAB];
  }

  lemma NothingRequested(f: int)
    ensures !RequestHere(NoRequests(), f) && !RequestAbove(NoRequests(), f) && !RequestBelow(NoRequests(), f)
  {
  }

  /** What the sensor reads at floor `f`, with nobody near the buttons. */
  function Reading(f: int, now: int): Inputs { Inputs(f, f, false, false, now) }

  function StopPressed(f: int, now: int): Inputs { Inputs(f, f, false, true, now) }

  const TOP := FLOORS - 1

  // An emergency stop at the top

  function CarAtStart(): Car { StartCar(0, 0, false, false) }

  /** It is called to the top. */
  function CarOnItsWay(): Car { Live(CarAtStart(), Reading(0, 0), CallTo(TOP)) }

  function CarArrived(): Car { Live(CarOnItsWay(), Reading(TOP, 1000), CallTo(TOP)) }

  /** The served call is missed, which keeps the door open a little longer; then it closes. */
  function CarWaiting(): Car { Live(CarArrived(), Reading(TOP, 2000), NoRequests()) }

  function CarAtRest(): Car { Live(CarWaiting(), Reading(TOP, 6000), NoRequests()) }

  function CarStopped(): Car { Live(CarAtRest(), StopPressed(TOP, 7000), NoRequests()) }

  /** A call from below closes its door, but does not move it. */
  function CarCalled(): Car { Live(CarStopped(), Reading(TOP, 8000), CallTo(0)) }

  function CarReset(): Car { Live(CarCalled(), StopPressed(TOP, 9000), CallTo(0)) }

  /** The car stands at the top, where it has gone up to. */
  predicate AtTop(c: Car) {
    c.state.floor == c.prevFloor == TOP && c.inertia.Up? && c.motorOut.Stop?
  }

  /** Its door is open until `deadline`. */
  predicate OpenUntil(c: Car, deadline: int) {
    && AtTop(c) && c.state.movingState.DoorOpen? && !c.state.stopped
    && c.doorTimer == Timer(true, deadline) && !c.floorTimer.active
  }

  /** It is idle behind its closed door. */
  predicate AtRest(c: Car) {
    AtTop(c) && c.state.movingState.Idle? && !c.state.stopped && !c.state.doorOpen && c.prevRequests == NoRequests()
  }

  predicate StoppedThere(c: Car) {
    AtTop(c) && c.state.movingState.Idle? && c.state.stopped && c.prevRequests == NoRequests()
  }

  lemma GoesToTheTop()
    requires FLOORS > 1
    ensures OpenUntil(CarArrived(), 4000) && CarArrived().prevRequests == CallTo(TOP)
  {
    CallRequests(TOP, 0);
    CallRequests(TOP, TOP);
    var d := CarOnItsWay();
    assert d.state.movingState.Moving? && d.motorOut.Up? && d.inertia.Up? && d.prevFloor == 0 && !d.state.stopped;
  }

  lemma WaitsThere(c: Car)
    requires OpenUntil(c, 4000) && c.prevRequests == CallTo(TOP)
    ensures var d := Live(c, Reading(TOP, 2000), NoRequests());
      OpenUntil(d, 5000) && d.prevRequests == NoRequests()
  {
    CallRequests(TOP, 0);
    NothingRequested(TOP);
  }

  lemma RestsThere(c: Car)
    requires OpenUntil(c, 5000) && c.prevRequests == NoRequests()
    ensures AtRest(Live(c, Reading(TOP, 6000), NoRequests()))
  {
    NothingRequested(TOP);
  }

  lemma IsStoppedThere(c: Car)
    requires AtRest(c)
    ensures StoppedThere(Live(c, StopPressed(TOP, 7000), NoRequests()))
  {
  }

  lemma ClosesItsDoor(c: Car)
    requires FLOORS > 1 && StoppedThere(c)
    ensures var d := Live(c, Reading(TOP, 8000), CallTo(0));
      d.state.floor == TOP && d.inertia.Up? && d.state.stopped && !d.state.doorOpen
  {
    CallRequests(0, TOP);
  }

  lemma RunsOn(c: Car)
    requires c.state.floor == TOP && c.inertia.Up? && c.state.stopped && !c.state.doorOpen
    ensures var d := Live(c, StopPressed(TOP, 9000), CallTo(0));
      d.state.floor == TOP && d.motorOut.Up?
  {
  }

  lemma LiveIsSafe(c: Car, i: Inputs, table: BoolTable)
    requires Safe(c)
    ensures Safe(Live(c, i, table))
  {
    RoundIsSafe(c, i, table);
  }

  lemma HistoryIsSafe()
    ensures Safe(CarReset())
  {
    StartIsSafe(0, 0, false, false);
    LiveIsSafe(CarAtStart(), Reading(0, 0), CallTo(TOP));
    LiveIsSafe(CarOnItsWay(), Reading(TOP, 1000), CallTo(TOP));
    LiveIsSafe(CarArrived(), Reading(TOP, 2000), NoRequests());
    LiveIsSafe(CarWaiting(), Reading(TOP, 6000), NoRequests());
    LiveIsSafe(CarAtRest(), StopPressed(TOP, 7000), NoRequests());
    LiveIsSafe(CarStopped(), Reading(TOP, 8000), CallTo(0));
    LiveIsSafe(CarCalled(), StopPressed(TOP, 9000), CallTo(0));
  }

  /** The reset sets it going upwards, at the top: it follows the inertia alone. */
  lemma ResetRunsIntoTheTop()
    requires FLOORS > 1
    ensures CarReset().motorOut.Up? && CarReset().state.floor == TOP && Safe(CarReset())
  {
    HistoryIsSafe();
    GoesToTheTop();
    WaitsThere(CarArrived());
    RestsThere(CarWaiting());
    IsStoppedThere(CarAtRest());
    ClosesItsDoor(CarStopped());
    RunsOn(CarCalled());
  }

  // A floor that was not remembered

  /** The resting car is found one floor lower just when it is stopped, between two readings. */
  function CarMoved(): Car { Live(CarAtRest(), Inputs(TOP - 1, BETWEEN_FLOORS, false, true, 7000), NoRequests()) }

  function CarSentBack(): Car { Live(CarMoved(), StopPressed(TOP - 1, 8000), NoRequests()) }

  function CarBack(): Car { Live(CarSentBack(), Reading(TOP, 9000), NoRequests()) }

  lemma IsStoppedBelow(c: Car)
    requires FLOORS > 1 && AtRest(c)
    ensures var d := Live(c, Inputs(TOP - 1, BETWEEN_FLOORS, false, true, 7000), NoRequests());
      && d.state.floor == TOP - 1 && d.prevFloor == TOP && d.inertia.Up?
      && d.state.stopped && !d.state.doorOpen && d.prevRequests == NoRequests()
  {
  }

  lemma GoesUpAgain(c: Car)
    requires FLOORS > 1 && c.state.floor == TOP - 1 && c.prevFloor == TOP && c.inertia.Up?
    requires c.state.stopped && !c.state.doorOpen && c.prevRequests == NoRequests()
    ensures var d := Live(c, StopPressed(TOP - 1, 8000), NoRequests());
      && d.prevFloor == TOP && d.motorOut.Up? && d.state.movingState.Moving? && d.prevRequests == NoRequests()
      && d.inertia.Up? && d.floorTimer == Timer(true, 13000)
  {
  }

  lemma ArrivesUnnoticed(c: Car)
    requires c.prevFloor == TOP && c.motorOut.Up? && c.state.movingState.Moving? && c.prevRequests == NoRequests()
    requires c.floorTimer == Timer(true, 13000)
    ensures var d := Live(c, Reading(TOP, 9000), NoRequests());
      d.state.floor == TOP && d.motorOut.Up?
  {
  }

  /** Back at the top it is on a floor that it still remembers, and does not stop. */
  lemma ForgottenFloorRunsIntoTheTop()
    requires FLOORS > 1
    ensures CarBack().motorOut.Up? && CarBack().state.floor == TOP
  {
    GoesToTheTop();
    WaitsThere(CarArrived());
    RestsThere(CarWaiting());
    IsStoppedBelow(CarAtRest());
    GoesUpAgain(CarMoved());
    ArrivesUnnoticed(CarSentBack());
  }

  // A call behind an obstructed door

  function Obstructed(f: int, now: int): Inputs { Inputs(f, f, true, false, now) }

  /** A car that has just started at the bottom and is called to the top while its door is obstructed. */
  function CarHeld(): Car { Live(CarAtStart(), Obstructed(0, 0), CallTo(TOP)) }

  /** A car that has nothing left to notice. */
  predicate Asleep(c: Car, table: BoolTable) {
    && c.state.movingState.Idle? && c.motorOut.Stop? && !c.state.stopped
    && c.prevRequests == table && c.prevFloor == c.state.floor
    && !c.doorTimer.active && !c.floorTimer.active
  }

  lemma HeldCarSleeps()
    requires FLOORS > 1
    ensures Asleep(CarHeld(), CallTo(TOP)) && CarHeld().state.floor == 0
  {
    CallRequests(TOP, 0);
  }

  /** The rounds with inputs `ins` on one and the same table. */
  function LiveOn(c: Car, ins: seq<Inputs>, table: BoolTable): Car {
    if ins == [] then c else Live(LiveOn(c, ins[..|ins| - 1], table), ins[|ins| - 1], table)
  }

  lemma SleepsOnce(c: Car, i: Inputs, table: BoolTable)
    requires Asleep(c, table) && !i.stop && (IsFloor(i.sensor) ==> i.sensor == c.state.floor)
    ensures Asleep(Live(c, i, table), table) && Live(c, i, table).state.floor == c.state.floor
  {
  }

  /** However long it lasts and however often the door is free again: it stays idle at the bottom with
      the call to the top outstanding, unless the table changes or somebody presses the stop button. */
  lemma {:induction false} ObstructionLosesTheCall(ins: seq<Inputs>)
    requires FLOORS > 1
    requires forall i :: 0 <= i < |ins| ==> !ins[i].stop && (IsFloor(ins[i].sensor) ==> ins[i].sensor == 0)
    ensures var c := LiveOn(CarHeld(), ins, CallTo(TOP));
      c.state.movingState.Idle? && c.state.floor == 0 && Asleep(c, CallTo(TOP))
  {
    HeldCarSleeps();
    if ins != [] {
      ObstructionLosesTheCall(ins[..|ins| - 1]);
      SleepsOnce(LiveOn(CarHeld(), ins[..|ins| - 1], CallTo(TOP)), ins[|ins| - 1], CallTo(TOP));
    }
  }
}
