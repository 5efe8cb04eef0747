/** The sweep in whole runs: cars do not turn round while there are calls ahead, clear nothing that it is
    not fair to clear, and keep their doors open long enough. */
module RunSweep {
  import opened Config
  import opened Control
  import opened ControllerRounds
  import opened ControllerSafety
  import opened Doors
  import opened ElevatorStates
  import opened Nodes
  import opened Orders
  import opened RunInvariants
  import opened RunSafety
  import opened Sweep
  import opened Systems

  function CarOf(r: Run, k: nat, n: Elev): Car
    requires k <= |r.actions|
  {
    r.trace[k].nodes[n].car
  }

  /** The table of node `n` in its step `i`: its orders after the presses of this step. */
  function TableAt(r: Run, i: nat, n: Elev): BoolTable
    requires BeginsAt(r, i, n)
  {
    ToBoolTable(r.trace[i].nodes[n].peers.SyncButtons(r.actions[i].buttons).orders, n)
  }

  // From one moment to the next

  lemma StepIsRound(r: Run, k: nat, n: Elev)
    requires 0 < k <= |r.actions| && BeginsAt(r, k - 1, n)
    ensures var (d, e) := BeginRound(CarOf(r, k - 1, n), r.actions[k - 1].inputs, TableAt(r, k - 1, n));
      CarOf(r, k, n) == d && r.trace[k].nodes[n].pending == e
  {
    NodeNext(r, k, n);
  }

  /** Other actions leave the car as it is, but for the table that it takes over at the end of a step. */
  predicate SameCar(c: Car, d: Car) {
    && d.inertia == c.inertia && d.motorOut == c.motorOut && d.doorTimer == c.doorTimer
    && d.state.floor == c.state.floor && d.state.doorOpen == c.state.doorOpen && d.state.stopped == c.state.stopped
  }

  lemma OthersKeepCar(r: Run, k: nat, n: Elev)
    requires 0 < k <= |r.actions| && !BeginsAt(r, k - 1, n) && NotRestarted(r, k - 1, n)
    ensures SameCar(CarOf(r, k - 1, n), CarOf(r, k, n))
    ensures var p, q := r.trace[k - 1].nodes[n].pending, r.trace[k].nodes[n].pending; q == p || q.None?
  {
    NodeNext(r, k, n);
  }

  // Turning round

  /** In action `i` the car of `n` sets off in direction `dir`. */
  ghost predicate SetsOffAt(r: Run, i: nat, n: Elev, dir: Inertia) {
    BeginsAt(r, i, n) && SetsOff(r.trace[i].nodes[n].car, r.actions[i].inputs, TableAt(r, i, n), dir)
  }

  /** In every run the direction of travel is that in which the car has set off last. */
  lemma DirectionNext(r: Run, k: nat, n: Elev)
    requires 0 < k <= |r.actions| && NotRestarted(r, k - 1, n)
    ensures CarOf(r, k, n).inertia ==
      if SetsOffAt(r, k - 1, n, Inertia.Up) then Inertia.Up
      else if SetsOffAt(r, k - 1, n, Inertia.Down) then Inertia.Down
      else CarOf(r, k - 1, n).inertia
  {
    if BeginsAt(r, k - 1, n) {
      CarsAreSafe(r, k - 1, n);
      StepIsRound(r, k, n);
      RoundSweeps(CarOf(r, k - 1, n), r.actions[k - 1].inputs, TableAt(r, k - 1, n));
    } else {
      OthersKeepCar(r, k, n);
    }
  }

  /** Action `i` does not restart `n`, and if it is a step of `n`, that finds a call at the floor of the
      car or ahead of it in direction `dir`. */
  ghost predicate CalledOn(r: Run, i: nat, n: Elev, dir: Inertia) {
    && NotRestarted(r, i, n)
    && (BeginsAt(r, i, n) ==>
          var t, f := TableAt(r, i, n), FloorOf(r.trace[i].nodes[n].car, r.actions[i].inputs);
          CallAt(t, f) || CallAhead(t, f, dir))
  }

  lemma CalledOnNext(r: Run, k: nat, n: Elev, dir: Inertia)
    requires 0 < k <= |r.actions| && CalledOn(r, k - 1, n, dir) && !dir.NoInertia?
    requires CarOf(r, k - 1, n).inertia == dir
    ensures CarOf(r, k, n).inertia == dir
  {
    DirectionNext(r, k, n);
  }

  /** The sweep: a car never turns round while there are calls at its floor or ahead of it. */
  lemma {:induction false} RunsDoNotReverse(r: Run, j: nat, k: nat, n: Elev, dir: Inertia)
    requires j <= k <= |r.actions| && !dir.NoInertia? && CarOf(r, j, n).inertia == dir
    requires forall i: nat {:trigger CalledOn(r, i, n, dir)} :: j <= i < k ==> CalledOn(r, i, n, dir)
    ensures CarOf(r, k, n).inertia == dir
  {
    if j < k {
      RunsDoNotReverse(r, j, k - 1, n, dir);
      assert CalledOn(r, k - 1, n, dir);
      CalledOnNext(r, k, n, dir);
    }
  }

  // Serving

  lemma RestartsClean(r: Run, k: nat, n: Elev)
    requires 0 < k <= |r.actions| && r.trace[k].nodes[n].pending.Some? && !BeginsAt(r, k - 1, n)
    ensures r.trace[k].nodes[n] == r.trace[k - 1].nodes[n] || NotRestarted(r, k - 1, n)
  {
    NodeNext(r, k, n);
  }

  lemma FloorAfterStep(r: Run, k: nat, n: Elev)
    requires 0 < k <= |r.actions| && BeginsAt(r, k - 1, n)
    ensures CarOf(r, k, n).state.floor == FloorOf(CarOf(r, k - 1, n), r.actions[k - 1].inputs)
  {
    CarsAreSafe(r, k - 1, n);
    StepIsRound(r, k, n);
    RoundFits(CarOf(r, k - 1, n), r.actions[k - 1].inputs, TableAt(r, k - 1, n));
  }

  lemma StartsWithoutEvent(r: Run, n: Elev)
    ensures r.trace[0].nodes[n].pending.None?
  {
    assert Started(r.trace[0], n);
  }

  /** The step that an event of `n` belongs to. */
  lemma {:induction false} EventComesFrom(r: Run, k: nat, n: Elev) returns (j: nat)
    requires k <= |r.actions| && r.trace[k].nodes[n].pending.Some?
    ensures j < k && BeginsAt(r, j, n)
    ensures r.trace[k].nodes[n].pending == BeginRound(CarOf(r, j, n), r.actions[j].inputs, TableAt(r, j, n)).1
    ensures CarOf(r, k, n).state.floor == FloorOf(CarOf(r, j, n), r.actions[j].inputs)
  {
    StartsWithoutEvent(r, n);
    if BeginsAt(r, k - 1, n) {
      j := k - 1;
      StepIsRound(r, k, n);
      FloorAfterStep(r, k, n);
    } else {
      RestartsClean(r, k, n);
      if NotRestarted(r, k - 1, n) {
        OthersKeepCar(r, k, n);
      }
      j := EventComesFrom(r, k - 1, n);
    }
  }

  /** The second section of a step clears the calls that its event has flagged, in a new version. */
  lemma FinishServes(m: NodeData, f: Floor, b: int)
    requires IsElev(m.peers.id) && m.pending.Some? && 0 <= b < BUTTONS
    requires m.peers.orders[f][b].AssignedTo(m.peers.id)
    ensures var o, q := m.peers.orders[f][b], m.Finish().peers.orders[f][b];
      if f == m.car.state.floor && m.pending.value[b] then
        if b == CAB then q == Order(o.version + 2, NoOrder, o.assignee, o.mask)
        else q == Order(o.version + 1, Clear, o.assignee, o.mask) && !m.Finish().peers.timers[f][b].active
      else
        q == o && m.Finish().peers.timers[f][b] == m.peers.timers[f][b]
  {
    var p, floor, k := m.peers, m.car.state.floor, m.pending.value;
    assert p.ClearedOrders(floor, k)[f][b] ==
      if !p.Clears(floor, k, f, b) then p.orders[f][b]
      else if b == CAB then p.orders[f][b].AfterClear().AfterReset()
      else p.orders[f][b].AfterClear();
    assert p.ClearedTimers(floor, k)[f][b] ==
      if b != CAB && p.Clears(floor, k, f, b) then p.timers[f][b].Stop() else p.timers[f][b];
  }

  /** Hall orders of others are left alone, also those that have been this node's when it stopped. */
  lemma FinishLeavesOthers(m: NodeData, f: Floor, b: HallButton)
    requires IsElev(m.peers.id) && m.pending.Some? && !m.peers.orders[f][b].AssignedTo(m.peers.id)
    ensures m.Finish().peers.orders[f][b] == m.peers.orders[f][b]
  {
    var p, floor, k := m.peers, m.car.state.floor, m.pending.value;
    assert p.ClearedOrders(floor, k)[f][b] ==
      if p.Clears(floor, k, f, b) then p.orders[f][b].AfterClear() else p.orders[f][b];
  }

  /** In the step `i` the car of `n` stops at floor `f`, where it is fair to serve the call `b`. */
  ghost predicate FairStop(r: Run, i: nat, n: Elev, f: Floor, b: int) {
    && BeginsAt(r, i, n)
    && var c, ins, t := r.trace[i].nodes[n].car, r.actions[i].inputs, TableAt(r, i, n);
      f == FloorOf(c, ins) && StopsHere(c, ins, t) && Fair(t, f, c.inertia, b)
  }

  lemma FlagsAreFair(r: Run, j: nat, n: Elev, k: Option<Flags>, f: Floor, b: int)
    requires BeginsAt(r, j, n) && 0 <= b < BUTTONS
    requires k == BeginRound(CarOf(r, j, n), r.actions[j].inputs, TableAt(r, j, n)).1 && k.Some?
    ensures f == FloorOf(CarOf(r, j, n), r.actions[j].inputs) && k.value[b] <==> FairStop(r, j, n, f, b)
  {
    CarsAreSafe(r, j, n);
    RoundSweeps(CarOf(r, j, n), r.actions[j].inputs, TableAt(r, j, n));
  }

  lemma FinishIs(r: Run, k: nat, n: Elev)
    requires k < |r.actions| && r.actions[k] == Action.Finish(n) && r.trace[k].nodes[n].pending.Some?
    ensures r.trace[k + 1].nodes[n] == r.trace[k].nodes[n].Finish()
  {
    NodeAlwaysOk(r, k, n);
    NodeNext(r, k + 1, n);
  }

  /** Fairness in every run: the end of a step takes an order of the node out of its table if and only
      if in that step the car stopped at the floor and it was fair to serve the call there. */
  lemma RunsServeFairly(r: Run, k: nat, n: Elev, f: Floor, b: int) returns (j: nat)
    requires k < |r.actions| && r.actions[k] == Action.Finish(n) && r.trace[k].nodes[n].pending.Some?
    requires 0 <= b < BUTTONS && r.trace[k].nodes[n].peers.orders[f][b].AssignedTo(n)
    ensures j < k && BeginsAt(r, j, n)
    ensures !r.trace[k + 1].nodes[n].peers.orders[f][b].AssignedTo(n) <==> FairStop(r, j, n, f, b)
  {
    j := EventComesFrom(r, k, n);
    FlagsAreFair(r, j, n, r.trace[k].nodes[n].pending, f, b);
    FinishServes(r.trace[k].nodes[n], f, b);
    FinishIs(r, k, n);
  }

  /** And hall orders of other elevators never leave their place through it. */
  lemma RunsServeOwn(r: Run, k: nat, n: Elev, f: Floor, b: HallButton)
    requires k < |r.actions| && r.actions[k] == Action.Finish(n) && r.trace[k].nodes[n].pending.Some?
    requires !r.trace[k].nodes[n].peers.orders[f][b].AssignedTo(n)
    ensures r.trace[k + 1].nodes[n].peers.orders[f][b] == r.trace[k].nodes[n].peers.orders[f][b]
  {
    FinishIs(r, k, n);
    FinishLeavesOthers(r.trace[k].nodes[n], f, b);
  }

  /** After a step with an event a node reports, and its car works on, exactly its own orders. */
  lemma RunsReportOrders(r: Run, k: nat, n: Elev)
    requires k < |r.actions| && r.actions[k] == Action.Finish(n) && r.trace[k].nodes[n].pending.Some?
    ensures var m := r.trace[k + 1].nodes[n];
      m.peers.states[n].requests == m.car.requests == ToBoolTable(m.peers.orders, n)
  {
    NodeAlwaysOk(r, k, n);
    FinishIs(r, k, n);
  }

  // Doors

  /** The car stands with its door open, at least until `until`. */
  predicate DoorHeld(c: Car, until: int) {
    c.state.doorOpen && !c.state.stopped && c.doorTimer.active && until <= c.doorTimer.deadline
  }

  lemma RoundHoldsDoor(c: Car, i: Inputs, t: BoolTable, until: int)
    requires Safe(c) && DoorHeld(c, until) && !i.stop && i.now < until <= i.now + DOOR_OPEN_TIME
    ensures DoorHeld(BeginRound(c, i, t).0, until)
  {
    RoundFits(c, i, t);
  }

  lemma StopHoldsDoor(c: Car, i: Inputs, t: BoolTable)
    requires Safe(c) && StopsHere(c, i, t) && (i.stop || !c.state.stopped)
    ensures DoorHeld(BeginRound(c, i, t).0, i.now + DOOR_OPEN_TIME) && BeginRound(c, i, t).0.motorOut.Stop?
  {
    RoundFits(c, i, t);
    RoundIsSafe(c, i, t);
  }

  /** Action `i` does not restart `n`, and if it is a step of `n`, nobody presses its stop button and the
      step comes in time. */
  predicate InDoorTime(r: Run, i: nat, n: Elev, until: int) {
    && NotRestarted(r, i, n)
    && (BeginsAt(r, i, n) ==>
          !r.actions[i].inputs.stop && r.actions[i].inputs.now < until <= r.actions[i].inputs.now + DOOR_OPEN_TIME)
  }

  lemma StepHoldsDoor(r: Run, j: nat, k: nat, n: Elev, until: int)
    requires k == j + 1 && BeginsAt(r, j, n) && InDoorTime(r, j, n, until) && DoorHeld(CarOf(r, j, n), until)
    ensures DoorHeld(CarOf(r, k, n), until)
  {
    var c, i, t := CarOf(r, j, n), r.actions[j].inputs, TableAt(r, j, n);
    CarsAreSafe(r, j, n);
    RoundHoldsDoor(c, i, t, until);
    StepIsRound(r, k, n);
  }

  lemma OthersHoldDoor(r: Run, k: nat, n: Elev, until: int)
    requires 0 < k <= |r.actions| && !BeginsAt(r, k - 1, n) && NotRestarted(r, k - 1, n)
    requires DoorHeld(CarOf(r, k - 1, n), until)
    ensures DoorHeld(CarOf(r, k, n), until)
  {
    OthersKeepCar(r, k, n);
  }

  lemma DoorHeldNext(r: Run, j: nat, k: nat, n: Elev, until: int)
    requires k == j + 1 <= |r.actions| && InDoorTime(r, j, n, until) && DoorHeld(CarOf(r, j, n), until)
    ensures DoorHeld(CarOf(r, k, n), until)
  {
    if BeginsAt(r, j, n) {
      StepHoldsDoor(r, j, k, n, until);
    } else {
      OthersHoldDoor(r, k, n, until);
    }
  }

  lemma {:induction false} DoorHeldOn(r: Run, j: nat, k: nat, n: Elev, until: int)
    requires j <= k <= |r.actions| && DoorHeld(CarOf(r, j, n), until)
    requires forall i: nat {:trigger InDoorTime(r, i, n, until)} :: j <= i < k ==> InDoorTime(r, i, n, until)
    ensures DoorHeld(CarOf(r, k, n), until)
  {
    if j < k {
      DoorHeldOn(r, j, k - 1, n, until);
      assert InDoorTime(r, k - 1, n, until);
      DoorHeldNext(r, k - 1, k, n, until);
    }
  }

  lemma StopAt(r: Run, j: nat, n: Elev)
    requires BeginsAt(r, j, n)
    requires var c, ins := CarOf(r, j, n), r.actions[j].inputs;
      StopsHere(c, ins, TableAt(r, j, n)) && (ins.stop || !c.state.stopped)
    ensures DoorHeld(CarOf(r, j + 1, n), r.actions[j].inputs.now + DOOR_OPEN_TIME)
  {
    CarsAreSafe(r, j, n);
    StepIsRound(r, j + 1, n);
    StopHoldsDoor(CarOf(r, j, n), r.actions[j].inputs, TableAt(r, j, n));
  }

  /** A door that opens for a stop stays open for its three seconds, in every run in which nobody presses
      the stop button or restarts the node; and the car stands still meanwhile. */
  lemma DoorsStayOpen(r: Run, j: nat, k: nat, n: Elev)
    requires j < k <= |r.actions| && BeginsAt(r, j, n)
    requires var c, ins := CarOf(r, j, n), r.actions[j].inputs;
      StopsHere(c, ins, TableAt(r, j, n)) && (ins.stop || !c.state.stopped)
    requires var until := r.actions[j].inputs.now + DOOR_OPEN_TIME;
      forall i: nat {:trigger InDoorTime(r, i, n, until)} :: j < i < k ==> InDoorTime(r, i, n, until)
    ensures CarOf(r, k, n).state.doorOpen && CarOf(r, k, n).motorOut.Stop?
  {
    var until := r.actions[j].inputs.now + DOOR_OPEN_TIME;
    StopAt(r, j, n);
    DoorHeldOn(r, j + 1, k, n, until);
    CarsAreSafe(r, k, n);
  }
}
