/** Safety of whole runs: what no interleaving of steps, packets, losses and restarts can break. */
module RunSafety {
  import opened Allocator
  import opened AllocatorProperties
  import opened Config
  import opened Control
  import opened ControllerRounds
  import opened ControllerSafety
  import opened ElevatorStates
  import opened Faults
  import opened Nodes
  import opened Orders
  import opened Requests
  import opened RunInvariants
  import opened Systems

  lemma PacketIsValid(p: Packet)
    requires PacketOk(p)
    ensures p.Valid()
  {
    forall f, b | IsButton(f, b) ensures p.orders[f][b].Valid() { assert Sound(p.orders[f][b]); }
    forall e, f | IsElev(e) && IsFloor(f) ensures p.cab[e][f].Valid() { assert Sound(p.cab[e][f]); }
  }

  /** No process ever fails its assertion on the previous assignee or aborts a reassignment, and
      every packet in flight passes the receiver's check. */
  lemma NothingHalts(r: Run, k: nat)
    requires k <= |r.actions|
    ensures forall n :: IsElev(n) ==> !r.trace[k].nodes[n].peers.halted
    ensures forall p :: p in r.trace[k].net ==> p.Valid()
  {
    forall n | IsElev(n)
      ensures !r.trace[k].nodes[n].peers.halted
    {
      NodeAlwaysOk(r, k, n);
    }
    AlwaysOk(r, k);
    forall p | p in r.trace[k].net
      ensures p.Valid()
    {
      PacketIsValid(p);
    }
  }

  /** Motor, door, emergency stop and timers of every car stay in the joint invariant. */
  lemma CarsAreSafe(r: Run, k: nat, n: int)
    requires k <= |r.actions| && IsElev(n)
    ensures Safe(r.trace[k].nodes[n].car)
  {
    NodeAlwaysOk(r, k, n);
  }

  /** The peers as the allocator finds them in a step of node `n`. */
  function BeforeStep(n: NodeData, i: Inputs, buttons: BoolTable): PeersData
    requires IsElev(n.peers.id)
  {
    var p := n.peers.SyncButtons(buttons);
    p.SetState(n.car.Sense(i).Sync(ToBoolTable(p.orders, p.id)).state)
  }

  lemma BeforeStepOk(n: NodeData, i: Inputs, buttons: BoolTable)
    requires NodeOk(n)
    ensures PeersOk(BeforeStep(n, i, buttons))
    ensures BeforeStep(n, i, buttons).states[n.peers.id].active
    ensures BeforeStep(n, i, buttons).watchdogs == n.peers.watchdogs
  {
    ButtonsOk(n.peers, buttons);
  }

  lemma StepHandsOver(p: PeersData, now: int, e: int, f: int, b: int)
    requires PeersOk(p) && p.states[p.id].active && IsElev(e) && IsHall(f, b)
    requires p.watchdogs[e].Expired(now)
    ensures !p.Step(now).orders[f][b].AssignedTo(e)
  {
    StepCellOk(p, now, f, b);
    assert p.Step(now).orders[f][b] == p.StepCell(now, f, b).order;
  }

  lemma StepRelieves(p: PeersData, now: int, e: int, f: int, b: int)
    requires PeersOk(p) && p.states[p.id].active && IsHall(f, b)
    requires Spared(p.Step(now).states, f) && e in Faulty(p.Step(now).states)
    ensures !p.Step(now).orders[f][b].AssignedTo(e)
  {
    StepIsReady(p);
    assert Sound(p.orders[f][b]);
    FaultyHoldNoWork(p.StepView(), p.watchdogs, f, now, Cell(p.orders[f][b], p.timers[f][b], true));
    assert p.Step(now).orders[f][b] == p.StepCell(now, f, b).order;
  }

  lemma BeginStepsPeers(m: NodeData, i: Inputs, buttons: BoolTable)
    requires NodeOk(m)
    ensures var p := BeforeStep(m, i, buttons);
      && PeersOk(p) && p.states[p.id].active && p.id == m.peers.id
      && p.watchdogs == m.peers.watchdogs
      && m.Begin(i, buttons).peers == p.Step(i.now)
  {
    BeforeStepOk(m, i, buttons);
  }

  /** Hand-over in every run: after a step of `n`, no confirmed hall order in its copy is assigned to
      an elevator whose watchdog fired in that step. */
  lemma RunsHandOver(r: Run, k: nat, e: int, f: int, b: int)
    requires k < |r.actions| && r.actions[k].Begin? && Enabled(r.trace[k], r.actions[k])
    requires IsElev(e) && IsHall(f, b)
    requires r.trace[k].nodes[r.actions[k].n].peers.watchdogs[e].Expired(r.actions[k].inputs.now)
    ensures !r.trace[k + 1].nodes[r.actions[k].n].peers.orders[f][b].AssignedTo(e)
  {
    var m, i, buttons := r.trace[k].nodes[r.actions[k].n], r.actions[k].inputs, r.actions[k].buttons;
    NodeAlwaysOk(r, k, r.actions[k].n);
    assert r.Step(k);
    BeginStepsPeers(m, i, buttons);
    StepHandsOver(BeforeStep(m, i, buttons), i.now, e, f, b);
  }

  /** Faulty elevators hold no work in any run and any building: if after a step of `n` the working ones
      come first at a floor as `Spared` says, then no confirmed hall order there is assigned to an
      active faulty elevator in the copy of `n`. */
  lemma RunsRelieveFaulty(r: Run, k: nat, e: int, f: int, b: int)
    requires k < |r.actions| && r.actions[k].Begin? && Enabled(r.trace[k], r.actions[k]) && IsHall(f, b)
    requires var states := r.trace[k + 1].nodes[r.actions[k].n].peers.states;
      Spared(states, f) && e in Faulty(states)
    ensures !r.trace[k + 1].nodes[r.actions[k].n].peers.orders[f][b].AssignedTo(e)
  {
    var m, i, buttons := r.trace[k].nodes[r.actions[k].n], r.actions[k].inputs, r.actions[k].buttons;
    NodeAlwaysOk(r, k, r.actions[k].n);
    assert r.Step(k);
    BeginStepsPeers(m, i, buttons);
    StepRelieves(BeforeStep(m, i, buttons), i.now, e, f, b);
  }

  /** What a node knows about active elevators is what a car can report. */
  lemma NodeReports(r: Run, k: nat, n: int)
    requires k <= |r.actions| && IsElev(n)
    ensures Reporting(r.trace[k].nodes[n].peers.states)
  {
    NodeAlwaysOk(r, k, n);
    PeersReport(r.trace[k].nodes[n].peers);
  }

  /** In buildings of at most 55 floors it is enough that there is a usable one. */
  lemma RunsRelieveInLowBuildings(r: Run, k: nat, e: int, f: int, b: int)
    requires k < |r.actions| && r.actions[k].Begin? && Enabled(r.trace[k], r.actions[k]) && IsHall(f, b)
    requires FLOORS <= 55
    requires var states := r.trace[k + 1].nodes[r.actions[k].n].peers.states;
      SomeUsable(states) && e in Faulty(states)
    ensures !r.trace[k + 1].nodes[r.actions[k].n].peers.orders[f][b].AssignedTo(e)
  {
    NodeReports(r, k + 1, r.actions[k].n);
    LowBuilding(r.trace[k + 1].nodes[r.actions[k].n].peers.states, f);
    RunsRelieveFaulty(r, k, e, f, b);
  }

  // Shaft bounds and wake-ups

  /** The car of a node as its controller finds it in a step. */
  function SensedBy(m: NodeData, i: Inputs, buttons: BoolTable): Car {
    m.car.Sense(i).Sync(ToBoolTable(m.peers.SyncButtons(buttons).orders, m.peers.id))
  }

  predicate OverrunsAt(r: Run, i: nat, n: Elev) {
    BeginsAt(r, i, n) && Overruns(SensedBy(r.trace[i].nodes[n], r.actions[i].inputs, r.actions[i].buttons))
  }

  predicate SleepsAt(r: Run, i: nat, n: Elev) {
    BeginsAt(r, i, n) && Sleeps(SensedBy(r.trace[i].nodes[n], r.actions[i].inputs, r.actions[i].buttons))
  }

  lemma BeginClears(m: NodeData, i: Inputs, buttons: BoolTable)
    requires IsElev(m.peers.id) && Safe(m.car)
    ensures ClearOfEnds(m.Begin(i, buttons).car) <==> !Overruns(SensedBy(m, i, buttons))
  {
    RoundClears(m.car, i, ToBoolTable(m.peers.SyncButtons(buttons).orders, m.peers.id));
  }

  lemma BeginWakes(m: NodeData, i: Inputs, buttons: BoolTable)
    requires IsElev(m.peers.id) && Safe(m.car) && Awake(m.car)
    ensures Awake(m.Begin(i, buttons).car) <==> !Sleeps(SensedBy(m, i, buttons))
  {
    RoundWakes(m.car, i, ToBoolTable(m.peers.SyncButtons(buttons).orders, m.peers.id));
  }

  lemma StartClears(id: int, floor: int, stopped: bool, obstruction: bool)
    ensures InShaft(StartCar(id, floor, stopped, obstruction)) && Awake(StartCar(id, floor, stopped, obstruction))
  {
    assert forall f :: IsFloor(f) ==> !RequestHere(NoRequests(), f);
  }

  lemma FinishClears(m: NodeData)
    requires IsElev(m.peers.id) && m.pending.Some?
    ensures ClearOfEnds(m.Finish().car) == ClearOfEnds(m.car) && Awake(m.Finish().car) == Awake(m.car)
    ensures InShaft(m.Finish().car) == InShaft(m.car)
  {
  }

  lemma OthersLeaveCar(s: System, a: Action, n: Elev)
    requires (a.Begin? || a.Finish? || a.Restart?) && Enabled(s, a) ==> a.n != n
    ensures Apply(s, a).nodes[n].car == s.nodes[n].car
  {
  }

  /** What an action other than a step of `n` does to its car. */
  lemma OthersClear(s: System, a: Action, n: Elev)
    requires a.Begin? && a.n == n ==> !Enabled(s, a)
    ensures ClearOfEnds(s.nodes[n].car) ==> ClearOfEnds(Apply(s, a).nodes[n].car)
    ensures Awake(s.nodes[n].car) ==> Awake(Apply(s, a).nodes[n].car)
    ensures InShaft(s.nodes[n].car) ==> InShaft(Apply(s, a).nodes[n].car)
  {
    if !Enabled(s, a) || !(a.Finish? || a.Restart?) || a.n != n {
      OthersLeaveCar(s, a, n);
    } else {
      match a
      case Finish(_) => FinishClears(s.nodes[n]);
      case Restart(_, floor, stopped, obstruction) => StartClears(n, floor, stopped, obstruction);
    }
  }

  lemma ClearAt(r: Run, k: nat, n: Elev)
    requires 0 < k <= |r.actions| && ClearOfEnds(r.trace[k - 1].nodes[n].car)
    ensures ClearOfEnds(r.trace[k].nodes[n].car) <==> !OverrunsAt(r, k - 1, n)
  {
    CarsAreSafe(r, k - 1, n);
    StepTo(r, k);
    if BeginsAt(r, k - 1, n) {
      BeginClears(r.trace[k - 1].nodes[n], r.actions[k - 1].inputs, r.actions[k - 1].buttons);
    } else {
      OthersClear(r.trace[k - 1], r.actions[k - 1], n);
    }
  }

  lemma AwakeAt(r: Run, k: nat, n: Elev)
    requires 0 < k <= |r.actions| && Awake(r.trace[k - 1].nodes[n].car)
    ensures Awake(r.trace[k].nodes[n].car) <==> !SleepsAt(r, k - 1, n)
  {
    CarsAreSafe(r, k - 1, n);
    StepTo(r, k);
    if BeginsAt(r, k - 1, n) {
      BeginWakes(r.trace[k - 1].nodes[n], r.actions[k - 1].inputs, r.actions[k - 1].buttons);
    } else {
      OthersClear(r.trace[k - 1], r.actions[k - 1], n);
    }
  }

  lemma StartsClear(r: Run, n: Elev)
    ensures InShaft(r.trace[0].nodes[n].car) && Awake(r.trace[0].nodes[n].car)
  {
    assert Started(r.trace[0], n);
    var c := r.trace[0].nodes[n].car.state;
    StartClears(n, c.floor, c.stopped, c.obstruction);
  }

  /** At every moment up to `k` the motor of `n` has pulled free of the ends of the shaft. */
  predicate ClearUpTo(r: Run, k: nat, n: Elev)
    requires k <= |r.actions|
  {
    ClearOfEnds(r.trace[k].nodes[n].car) && (k > 0 ==> ClearUpTo(r, k - 1, n))
  }

  predicate AwakeUpTo(r: Run, k: nat, n: Elev)
    requires k <= |r.actions|
  {
    Awake(r.trace[k].nodes[n].car) && (k > 0 ==> AwakeUpTo(r, k - 1, n))
  }

  /** None of the first `k` actions is a step of `n` that overruns. */
  predicate NoneOverruns(r: Run, k: nat, n: Elev) {
    k > 0 ==> !OverrunsAt(r, k - 1, n) && NoneOverruns(r, k - 1, n)
  }

  predicate NoneSleeps(r: Run, k: nat, n: Elev) {
    k > 0 ==> !SleepsAt(r, k - 1, n) && NoneSleeps(r, k - 1, n)
  }

  /** Shaft bounds, exactly, in all runs: the motor of `n` has never pulled against an end of the shaft
      if and only if no step of `n` has overrun, whatever its sensor has read. */
  lemma {:induction false} RunsStayInShaft(r: Run, k: nat, n: Elev)
    requires k <= |r.actions|
    ensures ClearUpTo(r, k, n) <==> NoneOverruns(r, k, n)
  {
    if k == 0 {
      StartsClear(r, n);
    } else {
      RunsStayInShaft(r, k - 1, n);
      if ClearOfEnds(r.trace[k - 1].nodes[n].car) {
        ClearAt(r, k, n);
      }
    }
  }

  /** No lost wake-up, exactly, in all runs: the car of `n` has never been idle with requests it had
      taken note of if and only if no step of `n` has slept. */
  lemma {:induction false} RunsStayAwake(r: Run, k: nat, n: Elev)
    requires k <= |r.actions|
    ensures AwakeUpTo(r, k, n) <==> NoneSleeps(r, k, n)
  {
    if k == 0 {
      StartsClear(r, n);
    } else {
      RunsStayAwake(r, k - 1, n);
      if Awake(r.trace[k - 1].nodes[n].car) {
        AwakeAt(r, k, n);
      }
    }
  }

  lemma BeginReacts(m: NodeData, i: Inputs, buttons: BoolTable, f: Floor, b: int)
    requires IsElev(m.peers.id) && Safe(m.car) && Awake(m.car) && m.car.state.movingState.Idle?
    requires 0 <= b < BUTTONS && m.peers.SyncButtons(buttons).orders[f][b].AssignedTo(m.peers.id)
    ensures Reacts(m.Begin(i, buttons).car) <==> Heeds(SensedBy(m, i, buttons))
  {
    var table := ToBoolTable(m.peers.SyncButtons(buttons).orders, m.peers.id);
    assert table[f][b];
    assert RequestHere(table, f);
    IdleCarReacts(m.car, i, table);
  }

  /** So in every run an idle car that is awake opens its door or sets off for an order in its next
      step if and only if it heeds it. */
  lemma RunsReact(r: Run, k: nat, n: Elev, f: Floor, b: int)
    requires BeginsAt(r, k, n) && 0 <= b < BUTTONS
    requires var m := r.trace[k].nodes[n];
      && m.car.state.movingState.Idle? && Awake(m.car)
      && m.peers.SyncButtons(r.actions[k].buttons).orders[f][b].AssignedTo(n)
    ensures Reacts(r.trace[k + 1].nodes[n].car) <==>
      Heeds(SensedBy(r.trace[k].nodes[n], r.actions[k].inputs, r.actions[k].buttons))
  {
    CarsAreSafe(r, k, n);
    assert r.Step(k);
    BeginReacts(r.trace[k].nodes[n], r.actions[k].inputs, r.actions[k].buttons, f, b);
  }

  // Cars that nobody stops

  /** Nobody touches the emergency stop of `n`. */
  predicate NoStop(a: Action, n: int) {
    a.Begin? && a.n == n ==> !a.inputs.stop
  }

  lemma UnstoppedAt(r: Run, k: nat, n: Elev)
    requires 0 < k <= |r.actions| && NoStop(r.actions[k - 1], n) && InShaft(r.trace[k - 1].nodes[n].car)
    ensures InShaft(r.trace[k].nodes[n].car)
  {
    CarsAreSafe(r, k - 1, n);
    StepTo(r, k);
    if BeginsAt(r, k - 1, n) {
      var m, i, buttons := r.trace[k - 1].nodes[n], r.actions[k - 1].inputs, r.actions[k - 1].buttons;
      RoundStaysInShaft(m.car, i, ToBoolTable(m.peers.SyncButtons(buttons).orders, m.peers.id));
    } else {
      OthersClear(r.trace[k - 1], r.actions[k - 1], n);
    }
  }

  /** In particular, as long as nobody touches its emergency stop, no step of `n` overruns. */
  lemma {:induction false} UnstoppedStaysInShaft(r: Run, k: nat, n: Elev)
    requires k <= |r.actions| && forall i :: 0 <= i < k ==> NoStop(r.actions[i], n)
    ensures InShaft(r.trace[k].nodes[n].car)
  {
    if k == 0 {
      StartsClear(r, n);
    } else {
      UnstoppedStaysInShaft(r, k - 1, n);
      UnstoppedAt(r, k, n);
    }
  }
}
