/** The world object of a node in place: its order table, timers, watchdogs, the states of all
    elevators and the backup of cab orders (libs/network/src/peers.cpp). */
module Network {
  import opened Allocator
  import opened AllocatorProperties
  import opened Config
  import opened Control
  import opened Costs
  import opened ElevatorStates
  import opened Nodes
  import opened Orders
  import opened OrderTables
  import opened Requests
  import opened Timers

  lemma CellPromises(v: View, watchdogs: seq<Timer>, floor: Floor, now: int, c: Cell)
    requires ReadyToCheck(v, watchdogs) && Avoids(c, {})
    ensures var d := CellStep(v, watchdogs, floor, now, c);
      Avoids(d, Fired(watchdogs, now)) && (d.timer.active <==> d.order.AssignedTo(v.self))
  {
    HandOver(v, watchdogs, floor, now, c);
    TimerAgrees(v, watchdogs, floor, now, c);
  }

  /** The states and the view after one more watchdog has been checked. */
  lemma OneMoreChecked(v: View, w: seq<Timer>, now: int, e: Elev)
    requires ReadyToCheck(v, w)
    ensures var s := StatesAfter(v.states, w, now, e);
      && StatesAfter(v.states, w, now, e + 1) == (if w[e].Expired(now) then s[e := s[e].AfterWatchdogTimeout()] else s)
      && WatchdogsAfter(w, now, e)[e] == w[e]
      && WatchdogsAfter(w, now, e + 1) ==
           WatchdogsAfter(w, now, e)[e := if w[e].Expired(now) then w[e].Stop() else w[e]]
      && (w[e].Expired(now) ==> Ready(v.(states := s[e := s[e].AfterWatchdogTimeout()])))
  {
  }

  lemma SameTable<T>(t: seq<seq<T>>, u: seq<seq<T>>, width: nat)
    requires |t| == |u|
    requires forall i :: 0 <= i < |t| ==> |t[i]| == width && |u[i]| == width
    requires forall i, j :: 0 <= i < |t| && 0 <= j < width ==> t[i][j] == u[i][j]
    ensures t == u
  {
    forall i | 0 <= i < |t|
      ensures t[i] == u[i]
    {
    }
  }

  /** The data after a step, cell by cell. */
  lemma StepOf(p: PeersData, now: int, q: PeersData)
    requires IsElev(p.id) && !p.halted
    requires forall f: Floor, b: HallButton {:trigger q.orders[f][b]} ::
      Cell(q.orders[f][b], q.timers[f][b], true) == p.StepCell(now, f, b)
    requires forall f: Floor {:trigger q.orders[f][CAB]} :: q.orders[f][CAB] == p.orders[f][CAB]
    requires forall f: Floor {:trigger q.timers[f][CAB]} :: q.timers[f][CAB] == p.timers[f][CAB]
    requires q == p.(numElevs := ActiveCount(p.states), orders := q.orders, timers := q.timers,
                     watchdogs := WatchdogsAfter(p.watchdogs, now, ELEVS),
                     states := StatesAfter(p.states, p.watchdogs, now, ELEVS))
    ensures q == p.Step(now)
  {
    forall f, b | IsButton(f, b)
      ensures q.orders[f][b] == p.StepOrders(now)[f][b] && q.timers[f][b] == p.StepTimers(now)[f][b]
    {
    }
    SameTable(q.orders, p.StepOrders(now), BUTTONS);
    SameTable(q.timers, p.StepTimers(now), BUTTONS);
    forall f, b | IsHall(f, b)
      ensures p.StepCell(now, f, b).live
    {
      assert Cell(q.orders[f][b], q.timers[f][b], true) == p.StepCell(now, f, b);
    }
  }

  /** The requests in the first `n` columns of a row. */
  function CountBelow(t: BoolTable, f: int, n: nat): nat
    requires IsFloor(f) && n <= BUTTONS
  {
    if n == 0 then 0 else CountBelow(t, f, n - 1) + if t[f][n - 1] then 1 else 0
  }

  class Peers {
    const id: int
    var numElevs: nat
    const orders: OrderTable
    const timers: array2<Timer>
    const watchdogs: array<Timer>
    const states: array<ElevatorState>
    const cab: array2<Order>

    ghost predicate Valid() {
      && IsElev(id)
      && orders.Valid()
      && timers.Length0 == FLOORS && timers.Length1 == BUTTONS
      && watchdogs.Length == ELEVS
      && states.Length == ELEVS
      && cab.Length0 == ELEVS && cab.Length1 == FLOORS
      && cab != orders.table
    }

    ghost function Timetable(): TimerGrid
      requires Valid()
      reads timers
    {
      var t := seq(FLOORS, f requires IsFloor(f) reads timers =>
        seq(BUTTONS, b requires IsButton(f, b) reads timers => timers[f, b]));
      assert forall f :: IsFloor(f) ==> |t[f]| == BUTTONS;
      t
    }

    /** The cab orders by value, as packets carry them. */
    function Backup(): CabGrid
      requires Valid()
      reads cab
    {
      var t := seq(ELEVS, e requires IsElev(e) reads cab => seq(FLOORS, f requires IsFloor(f) reads cab => cab[e, f]));
      assert forall e :: IsElev(e) ==> |t[e]| == FLOORS;
      t
    }

    /** All of it by value. */
    ghost function Data(): PeersData
      requires Valid()
      reads this, orders.table, timers, watchdogs, states, cab
    {
      PeersData(id, numElevs, orders.Contents(), Timetable(), watchdogs[..], states[..], Backup(), false)
    }

    constructor (nodeId: int)
      requires IsElev(nodeId)
      ensures Valid() && Data() == FreshPeers(nodeId)
      ensures fresh(orders) && fresh(orders.table) && fresh(timers) && fresh(watchdogs) && fresh(states) && fresh(cab)
    {
      id := nodeId;
      numElevs := 0;
      orders := new OrderTable();
      timers := new Timer[FLOORS, BUTTONS]((f, b) => OFF);
      watchdogs := new Timer[ELEVS](e => OFF);
      states := new ElevatorState[ELEVS](e => Unknown());
      cab := new Order[ELEVS, FLOORS]((e, f) => BLANK);
      new;
      ghost var p := FreshPeers(nodeId);
      SameTable(orders.Contents(), p.orders, BUTTONS);
      SameTable(Timetable(), p.timers, BUTTONS);
      SameTable(Backup(), p.cab, FLOORS);
      assert watchdogs[..] == p.watchdogs && states[..] == p.states;
    }

    /** What the allocator goes by. */
    ghost function Seen(): View
      requires Valid()
      reads this, states
    {
      View(id, numElevs, states[..])
    }

    /** One hall order and its timer. */
    ghost function At(f: Floor, b: HallButton): Cell
      requires Valid()
      reads orders.table, timers
    {
      Cell(orders.table[f, b], timers[f, b], true)
    }

    // Costs

    method UpdateNumElevs()
      requires Valid()
      modifies `numElevs
      ensures numElevs == ActiveCount(states[..])
    {
      var count := 0;
      for e := 0 to ELEVS
        invariant count == ActiveCount(states[..e])
      {
        assert states[..e + 1][..e] == states[..e];
        count := count + if states[e].active then 1 else 0;
      }
      assert states[..ELEVS] == states[..];
      numElevs := count;
    }

    method ObservedByAll(floor: Floor, btn: HallButton) returns (r: bool)
      requires Valid()
      ensures r == Allocator.ObservedByAll(states[..], orders.table[floor, btn])
    {
      for e := 0 to ELEVS
        invariant forall d :: 0 <= d < e && states[d].active ==> d in orders.table[floor, btn].mask
      {
        if !states[e].active { continue; }
        if e !in orders.table[floor, btn].mask {
          assert states[..][e].active;
          return false;
        }
      }
      return true;
    }

    method CountRequests(t: BoolTable, start: int) returns (cost: int)
      ensures cost == start + Pending(t) * PENALTY_PER_ORDER
    {
      cost := start;
      for f := 0 to FLOORS
        invariant cost == start + Count(t, f) * PENALTY_PER_ORDER
      {
        for b := 0 to BUTTONS
          invariant cost == start + (Count(t, f) + CountBelow(t, f, b)) * PENALTY_PER_ORDER
        {
          if t[f][b] {
            cost := cost + PENALTY_PER_ORDER;
          }
        }
        assert CountBelow(t, f, 3) == CountBelow(t, f, 2) + if t[f][CAB] then 1 else 0;
        assert CountBelow(t, f, 2) == CountBelow(t, f, 1) + if t[f][HALL_DOWN] then 1 else 0;
      }
    }

    method ElevatorCost(state: ElevatorState, floor: int) returns (cost: int)
      requires state.active
      ensures cost == Cost(state, floor)
    {
      cost := Abs(state.floor - floor) * PENALTY_FLOOR_DIFF;
      if state.obstruction { cost := cost + PENALTY_OBSTRUCTION; }
      if state.fault { cost := cost + PENALTY_FAULT; }
      if state.stopped { cost := cost + PENALTY_STOPPED; }
      cost := CountRequests(state.requests, cost);
      if state.doorOpen { cost := cost + PENALTY_DOOR_OPEN; }
      var moving := !state.motorDir.Stop?;
      var orderBelow, orderAbove, orderHere := floor < state.floor, floor > state.floor, floor == state.floor;
      var goingUp, goingDown := state.inertia.Up?, state.inertia.Down?;
      if (moving && orderBelow && goingUp) || (moving && orderAbove && goingDown) {
        cost := cost + PENALTY_WRONG_DIR;
      }
      if orderHere && moving { cost := cost + PENALTY_WRONG_DIR; }
    }

    /** The elevators with their costs, cheapest first. */
    method CalculateElevatorCosts(floor: int) returns (costs: seq<(int, int)>)
      requires Valid()
      ensures costs == SortedCosts(states[..], floor)
    {
      var pairs := new (int, int)[ELEVS](_ => (0, 0));
      for e := 0 to ELEVS
        invariant forall d :: 0 <= d < e ==> pairs[d] == (Cost(states[d], floor), d)
      {
        var state := states[e];
        if !state.active {
          pairs[e] := (MAX_COST, e);
          continue;
        }
        var cost := ElevatorCost(state, floor);
        pairs[e] := (cost, e);
      }
      assert pairs[..] == CostPairs(states[..], floor);
      return Sort(pairs[..]);
    }

    // Reassignment

    /** The first elevator in the table that may take over from `prev`, or -1. */
    method FirstInTable(costs: seq<(int, int)>, prev: int, usable: bool) returns (found: int)
      requires Valid()
      requires forall p :: p in costs ==> IsElev(p.1)
      ensures found == FirstCandidate(costs, states[..], prev, usable)
    {
      found := -1;
      for i := 0 to |costs|
        invariant found == -1
        invariant
          FirstCandidate(costs, states[..], prev, usable) == FirstCandidate(costs[i..], states[..], prev, usable)
      {
        var cost, e := costs[i].0, costs[i].1;
        assert costs[i] in costs;
        assert costs[i..][1..] == costs[i + 1..];
        if e != prev && cost != MAX_COST && (usable ==> states[e].Usable()) {
          found := e;
          return;
        }
      }
    }

    /** Gives the order to its target. Fails where the program would: for an assignee out of range, and
        if no elevator is active. */
    method ReassignHallOrder(floor: Floor, btn: HallButton) returns (ok: bool)
      requires Valid()
      modifies orders.table
      ensures ok <==> Target(Seen(), floor, old(At(floor, btn))) != -1
      ensures forall f, b :: IsButton(f, b) ==>
        orders.table[f, b] ==
          if ok && f == floor && b == btn then
            old(orders.table[f, b]).AfterReassignment(Target(Seen(), floor, old(At(floor, btn))))
          else
            old(orders.table[f, b])
    {
      var prev := orders.table[floor, btn].assignee;
      if !(0 <= prev < ELEVS) { return false; }
      if numElevs == 1 {
        OnReassignment(orders.table, floor, btn, prev);
        return true;
      }
      var prevUsable := states[prev].Usable();
      var newAssignee := -1;
      var costs := CalculateElevatorCosts(floor);
      forall p | p in costs
        ensures IsElev(p.1)
      {
        SortedCostsMembers(states[..], floor, p);
      }
      if !prevUsable {
        newAssignee := FirstInTable(costs, prev, false);
      } else {
        var bestOtherUsable := FirstInTable(costs, prev, true);
        if bestOtherUsable != -1 {
          newAssignee := bestOtherUsable;
        } else {
          newAssignee := prev;
        }
      }
      if newAssignee == -1 {
        if states[prev].active {
          newAssignee := prev;
        } else {
          return false;
        }
      }
      OnReassignment(orders.table, floor, btn, newAssignee);
      return true;
    }

    /** Hall orders that a reassignment can start from. */
    ghost predicate AllSound()
      requires Valid()
      reads orders.table
    {
      forall f: Floor, b: HallButton {:trigger orders.table[f, b]} :: Sound(orders.table[f, b])
    }

    lemma AllSoundIn(p: PeersData)
      requires Valid() && p == Data()
      requires forall f: Floor, b: HallButton {:trigger p.orders[f][b]} :: Sound(p.orders[f][b])
      ensures AllSound()
    {
      forall f: Floor, b: HallButton
        ensures Sound(orders.table[f, b])
      {
        assert p.orders[f][b] == orders.table[f, b];
      }
    }

    /** The allocator deals with hall orders only. */
    twostate predicate CabsKept()
      requires Valid()
      reads orders.table, timers
    {
      forall f: Floor :: orders.table[f, CAB] == old(orders.table[f, CAB]) && timers[f, CAB] == old(timers[f, CAB])
    }

    /** Every cell but one is as it was. */
    twostate predicate OnlyAt(f: Floor, b: HallButton)
      requires Valid()
      reads orders.table, timers
    {
      forall g, c :: IsButton(g, c) && !(g == f && c == b) ==>
        orders.table[g, c] == old(orders.table[g, c]) && timers[g, c] == old(timers[g, c])
    }

    method ReassignIfHeldBy(f: Floor, b: HallButton, e: int, now: int)
      requires Valid() && Ready(Seen()) && Sound(orders.table[f, b])
      modifies orders.table, timers
      ensures At(f, b) == Move(Seen(), f, now, old(At(f, b)), e) && Sound(orders.table[f, b])
      ensures OnlyAt(f, b)
    {
      if !orders.table[f, b].status.Confirmed? { return; }
      if orders.table[f, b].assignee != e { return; }
      TargetIsActive(Seen(), f, e);
      var ok := ReassignHallOrder(f, b);
      assert ok;
      if orders.table[f, b].assignee == id {
        timers[f, b] := timers[f, b].Start(now, REASSIGN_TIME);
      }
    }

    method ReassignHallOrders(e: int, now: int)
      requires Valid() && Ready(Seen()) && AllSound()
      modifies orders.table, timers
      ensures AllSound()
      ensures forall f: Floor, b: HallButton {:trigger At(f, b)} {:trigger orders.table[f, b]} ::
        At(f, b) == Move(Seen(), f, now, old(At(f, b)), e)
      ensures CabsKept()
    {
      for f := 0 to FLOORS
        invariant AllSound()
        invariant forall g: Floor, c: HallButton {:trigger At(g, c)} {:trigger orders.table[g, c]} ::
          At(g, c) == if g < f then Move(Seen(), g, now, old(At(g, c)), e) else old(At(g, c))
        invariant CabsKept()
      {
        for b := 0 to BUTTONS
          invariant AllSound()
          invariant forall g: Floor, c: HallButton {:trigger At(g, c)} {:trigger orders.table[g, c]} ::
            At(g, c) == if g < f || (g == f && c < b) then Move(Seen(), g, now, old(At(g, c)), e) else old(At(g, c))
          invariant CabsKept()
        {
          if b == CAB { continue; }
          ReassignIfHeldBy(f, b, e, now);
        }
      }
    }

    // The watchdog pass

    method UpdateWatchdogTimer(e: Elev, now: int)
      requires Valid()
      modifies watchdogs
      ensures watchdogs[..] == old(watchdogs[..])[e := old(watchdogs[e]).Start(now, WATCHDOG_TIME)]
    {
      watchdogs[e] := watchdogs[e].Start(now, WATCHDOG_TIME);
    }

    method OnWatchdogTimeout(e: Elev)
      requires Valid()
      modifies states
      ensures states[..] == old(states[..])[e := old(states[e]).AfterWatchdogTimeout()]
    {
      states[e] := states[e].(active := false);
      states[e] := states[e].(version := 0);
    }

    /** An elevator whose watchdog has run out is no longer active and loses its orders. */
    method CheckWatchdog(e: Elev, now: int)
      requires Valid() && AllSound()
      requires watchdogs[e].Expired(now) ==> Ready(Seen().(states := states[..][e := states[e].AfterWatchdogTimeout()]))
      modifies orders.table, timers, watchdogs, states
      ensures AllSound()
      ensures forall f: Floor, b: HallButton {:trigger At(f, b)} {:trigger orders.table[f, b]} ::
        At(f, b) == if old(watchdogs[e]).Expired(now) then Move(Seen(), f, now, old(At(f, b)), e) else old(At(f, b))
      ensures CabsKept()
      ensures states[..] ==
        if old(watchdogs[e]).Expired(now) then old(states[..])[e := old(states[e]).AfterWatchdogTimeout()]
        else old(states[..])
      ensures watchdogs[..] ==
        if old(watchdogs[e]).Expired(now) then old(watchdogs[..])[e := old(watchdogs[e]).Stop()] else old(watchdogs[..])
    {
      if watchdogs[e].Expired(now) {
        watchdogs[e] := watchdogs[e].Stop();
        OnWatchdogTimeout(e);
        ReassignHallOrders(e, now);
      }
    }

    method MonitorWatchdogTimers(now: int)
      requires Valid() && ReadyToCheck(Seen(), watchdogs[..]) && AllSound()
      modifies orders.table, timers, watchdogs, states
      ensures AllSound()
      ensures forall f: Floor, b: HallButton {:trigger At(f, b)} {:trigger orders.table[f, b]} ::
        At(f, b) == WatchdogPhase(old(Seen()), old(watchdogs[..]), f, now, old(At(f, b)), ELEVS)
      ensures CabsKept()
      ensures states[..] == StatesAfter(old(states[..]), old(watchdogs[..]), now, ELEVS)
      ensures watchdogs[..] == WatchdogsAfter(old(watchdogs[..]), now, ELEVS)
    {
      ghost var v, w := Seen(), watchdogs[..];
      for e := 0 to ELEVS
        invariant AllSound()
        invariant forall g: Floor, c: HallButton {:trigger At(g, c)} {:trigger orders.table[g, c]} ::
          At(g, c) == WatchdogPhase(v, w, g, now, old(At(g, c)), e)
        invariant CabsKept()
        invariant states[..] == StatesAfter(v.states, w, now, e)
        invariant watchdogs[..] == WatchdogsAfter(w, now, e)
      {
        OneMoreChecked(v, w, now, e);
        CheckWatchdog(e, now);
      }
    }

    // The other phases

    method MonitorFault(now: int)
      requires Valid() && Ready(Seen()) && AllSound()
      modifies orders.table, timers
      ensures AllSound()
      ensures forall f: Floor, b: HallButton {:trigger At(f, b)} {:trigger orders.table[f, b]} ::
        At(f, b) == FaultPhase(Seen(), f, now, old(At(f, b)), ELEVS)
      ensures CabsKept()
    {
      for e := 0 to ELEVS
        invariant AllSound()
        invariant forall g: Floor, c: HallButton {:trigger At(g, c)} {:trigger orders.table[g, c]} ::
          At(g, c) == FaultPhase(Seen(), g, now, old(At(g, c)), e)
        invariant CabsKept()
      {
        if !states[e].active { continue; }
        if states[e].fault {
          ReassignHallOrders(e, now);
        }
      }
    }

    method ObserveOrder(f: Floor, b: HallButton)
      requires Valid() && Sound(orders.table[f, b])
      modifies orders.table
      ensures At(f, b) == ObservePhase(Seen(), old(At(f, b))) && Sound(orders.table[f, b])
      ensures OnlyAt(f, b)
    {
      if id in orders.table[f, b].mask { return; }
      if orders.table[f, b].status.Requested? {
        Observe(orders.table, f, b, id);
      }
    }

    /** Mark this node as having seen a hall order. */
    method ObserveOrders()
      requires Valid() && AllSound()
      modifies orders.table
      ensures AllSound()
      ensures forall f: Floor, b: HallButton {:trigger At(f, b)} {:trigger orders.table[f, b]} ::
        At(f, b) == ObservePhase(Seen(), old(At(f, b)))
      ensures CabsKept()
    {
      for f := 0 to FLOORS
        invariant AllSound()
        invariant forall g: Floor, c: HallButton {:trigger At(g, c)} {:trigger orders.table[g, c]} ::
          At(g, c) == if g < f then ObservePhase(Seen(), old(At(g, c))) else old(At(g, c))
        invariant CabsKept()
      {
        for b := 0 to BUTTONS
          invariant AllSound()
          invariant forall g: Floor, c: HallButton {:trigger At(g, c)} {:trigger orders.table[g, c]} ::
            At(g, c) == if g < f || (g == f && c < b) then ObservePhase(Seen(), old(At(g, c))) else old(At(g, c))
          invariant CabsKept()
        {
          if b == CAB { continue; }
          ObserveOrder(f, b);
        }
      }
    }

    method ConfirmHallOrder(f: Floor, b: HallButton, now: int)
      requires Valid() && Sound(orders.table[f, b])
      modifies orders.table, timers
      ensures At(f, b) == ConfirmPhase(Seen(), f, now, old(At(f, b))) && Sound(orders.table[f, b])
      ensures OnlyAt(f, b)
    {
      var observed := ObservedByAll(f, b);
      if !observed || !orders.table[f, b].status.Requested? { return; }
      var costs := CalculateElevatorCosts(f);
      var best := costs[0].1;
      SortedCostsMembers(states[..], f, costs[0]);
      if costs[0].0 == MAX_COST { return; }
      OnConfirm(orders.table, f, b, best);
      if best == id {
        timers[f, b] := timers[f, b].Start(now, REASSIGN_TIME);
      }
    }

    /** Confirm requests that all active elevators have seen to the cheapest elevator. */
    method ConfirmHallOrders(now: int)
      requires Valid() && AllSound()
      modifies orders.table, timers
      ensures AllSound()
      ensures forall f: Floor, b: HallButton {:trigger At(f, b)} {:trigger orders.table[f, b]} ::
        At(f, b) == ConfirmPhase(Seen(), f, now, old(At(f, b)))
      ensures CabsKept()
    {
      for f := 0 to FLOORS
        invariant AllSound()
        invariant forall g: Floor, c: HallButton {:trigger At(g, c)} {:trigger orders.table[g, c]} ::
          At(g, c) == if g < f then ConfirmPhase(Seen(), g, now, old(At(g, c))) else old(At(g, c))
        invariant CabsKept()
      {
        for b := 0 to BUTTONS
          invariant AllSound()
          invariant forall g: Floor, c: HallButton {:trigger At(g, c)} {:trigger orders.table[g, c]} ::
            At(g, c) ==
              if g < f || (g == f && c < b) then ConfirmPhase(Seen(), g, now, old(At(g, c))) else old(At(g, c))
          invariant CabsKept()
        {
          if b == CAB { continue; }
          ConfirmHallOrder(f, b, now);
        }
      }
    }

    method ResetHallOrders()
      requires Valid() && AllSound()
      modifies orders.table
      ensures AllSound()
      ensures forall f: Floor, b: HallButton {:trigger At(f, b)} {:trigger orders.table[f, b]} ::
        At(f, b) == ResetPhase(old(At(f, b)))
      ensures CabsKept()
    {
      for f := 0 to FLOORS
        invariant AllSound()
        invariant forall g: Floor, c: HallButton {:trigger At(g, c)} {:trigger orders.table[g, c]} ::
          At(g, c) == if g < f then ResetPhase(old(At(g, c))) else old(At(g, c))
        invariant CabsKept()
      {
        for b := 0 to BUTTONS
          invariant AllSound()
          invariant forall g: Floor, c: HallButton {:trigger At(g, c)} {:trigger orders.table[g, c]} ::
            At(g, c) == if g < f || (g == f && c < b) then ResetPhase(old(At(g, c))) else old(At(g, c))
          invariant CabsKept()
        {
          if b == CAB { continue; }
          OnReset(orders.table, f, b);
        }
      }
    }

    method MonitorHallOrderTimer(f: Floor, b: HallButton, now: int)
      requires Valid() && Ready(Seen()) && Sound(orders.table[f, b])
      modifies orders.table, timers
      ensures At(f, b) == TimeoutPhase(Seen(), f, now, old(At(f, b))) && Sound(orders.table[f, b])
      ensures OnlyAt(f, b)
    {
      if !timers[f, b].Expired(now) { return; }
      timers[f, b] := timers[f, b].Stop();
      if !orders.table[f, b].status.Confirmed? { return; }
      TargetIsActive(Seen(), f, orders.table[f, b].assignee);
      var ok := ReassignHallOrder(f, b);
      assert ok;
      if orders.table[f, b].assignee == id {
        timers[f, b] := timers[f, b].Start(now, REASSIGN_TIME);
      }
    }

    /** Take orders away whose timer has run out. */
    method MonitorHallOrderTimers(now: int)
      requires Valid() && Ready(Seen()) && AllSound()
      modifies orders.table, timers
      ensures AllSound()
      ensures forall f: Floor, b: HallButton {:trigger At(f, b)} {:trigger orders.table[f, b]} ::
        At(f, b) == TimeoutPhase(Seen(), f, now, old(At(f, b)))
      ensures CabsKept()
    {
      for f := 0 to FLOORS
        invariant AllSound()
        invariant forall g: Floor, c: HallButton {:trigger At(g, c)} {:trigger orders.table[g, c]} ::
          At(g, c) == if g < f then TimeoutPhase(Seen(), g, now, old(At(g, c))) else old(At(g, c))
        invariant CabsKept()
      {
        for b := 0 to BUTTONS
          invariant AllSound()
          invariant forall g: Floor, c: HallButton {:trigger At(g, c)} {:trigger orders.table[g, c]} ::
            At(g, c) ==
              if g < f || (g == f && c < b) then TimeoutPhase(Seen(), g, now, old(At(g, c))) else old(At(g, c))
          invariant CabsKept()
        {
          if b == CAB { continue; }
          MonitorHallOrderTimer(f, b, now);
        }
      }
    }

    method ControlHallOrderTimer(f: Floor, b: HallButton, now: int)
      requires Valid()
      modifies timers
      ensures At(f, b) == ControlPhase(Seen(), now, old(At(f, b)))
      ensures OnlyAt(f, b)
    {
      var timer, order := timers[f, b], orders.table[f, b];
      if order.status.Confirmed? && !timer.active && order.assignee == id {
        timers[f, b] := timer.Start(now, REASSIGN_TIME);
        return;
      }
      if timer.active && (!order.status.Confirmed? || order.assignee != id) {
        timers[f, b] := timer.Stop();
        return;
      }
      var timeLeft := timer.TimeLeft(now);
      if states[id].obstruction && order.status.Confirmed? && timer.active && order.assignee == id
         && timeLeft > OBSTRUCTION_REASSIGN_TIME + 5 * SAMPLE_TIME {
        timers[f, b] := timer.Start(now, OBSTRUCTION_REASSIGN_TIME);
      }
    }

    /** Start, stop or shorten the timers of hall orders. */
    method ControlHallOrderTimers(now: int)
      requires Valid()
      modifies timers
      ensures forall f: Floor, b: HallButton {:trigger At(f, b)} {:trigger orders.table[f, b]} ::
        At(f, b) == ControlPhase(Seen(), now, old(At(f, b)))
      ensures CabsKept()
    {
      for f := 0 to FLOORS
        invariant forall g: Floor, c: HallButton {:trigger At(g, c)} {:trigger orders.table[g, c]} ::
          At(g, c) == if g < f then ControlPhase(Seen(), now, old(At(g, c))) else old(At(g, c))
        invariant CabsKept()
      {
        for b := 0 to BUTTONS
          invariant forall g: Floor, c: HallButton {:trigger At(g, c)} {:trigger orders.table[g, c]} ::
            At(g, c) == if g < f || (g == f && c < b) then ControlPhase(Seen(), now, old(At(g, c))) else old(At(g, c))
          invariant CabsKept()
        {
          if b == CAB { continue; }
          ControlHallOrderTimer(f, b, now);
        }
      }
    }

    // The whole step

    method RunPhases(now: int)
      requires Valid() && AllSound()
      requires ReadyToCheck(View(id, ActiveCount(states[..]), states[..]), watchdogs[..])
      modifies `numElevs, orders.table, timers, watchdogs, states
      ensures numElevs == ActiveCount(old(states[..]))
      ensures forall f: Floor, b: HallButton {:trigger At(f, b)} {:trigger orders.table[f, b]} ::
        At(f, b) == CellStep(View(id, numElevs, old(states[..])), old(watchdogs[..]), f, now, old(At(f, b)))
      ensures CabsKept()
      ensures states[..] == StatesAfter(old(states[..]), old(watchdogs[..]), now, ELEVS)
      ensures watchdogs[..] == WatchdogsAfter(old(watchdogs[..]), now, ELEVS)
    {
      UpdateNumElevs();
      ghost var v := Seen();
      MonitorWatchdogTimers(now);
      CheckedIsReady(v, old(watchdogs[..]), now, ELEVS);
      assert Seen() == Checked(v, old(watchdogs[..]), now);
      MonitorFault(now);
      ObserveOrders();
      ConfirmHallOrders(now);
      ResetHallOrders();
      MonitorHallOrderTimers(now);
      ControlHallOrderTimers(now);
    }

    /** The step as a whole. Where it starts from, the program cannot abort. It leaves no hall order
        with an elevator whose watchdog has run out, and times exactly this node's own. */
    method Step(now: int)
      requires Valid() && AllSound() && ReadyToCheck(Data().StepView(), watchdogs[..])
      modifies `numElevs, orders.table, timers, watchdogs, states
      ensures Data() == old(Data()).Step(now)
      ensures AllSound()
      ensures forall e: Elev, f: Floor, b: HallButton ::
        old(watchdogs[e]).Expired(now) ==> !orders.table[f, b].AssignedTo(e)
      ensures forall f: Floor, b: HallButton :: timers[f, b].active <==> orders.table[f, b].AssignedTo(id)
    {
      ghost var p := Data();
      RunPhases(now);
      forall f: Floor, b: HallButton
        ensures Avoids(At(f, b), Fired(p.watchdogs, now))
        ensures timers[f, b].active <==> orders.table[f, b].AssignedTo(id)
      {
        CellPromises(p.StepView(), p.watchdogs, f, now, Cell(p.orders[f][b], p.timers[f][b], true));
      }
      StepOf(p, now, Data());
    }

    // What the node does with it

    /** Clear one button's order; a hall order only if it is still this node's. */
    method ClearOrder(floor: Floor, b: int)
      requires Valid() && 0 <= b < BUTTONS
      modifies orders.table, timers, cab
      ensures forall g, c :: IsButton(g, c) ==>
        orders.table[g, c] ==
          if g == floor && c == b && b == CAB then old(orders.table[g, c]).AfterClear().AfterReset()
          else if g == floor && c == b && old(orders.table[g, c].assignee) == id then
            old(orders.table[g, c]).AfterClear()
          else old(orders.table[g, c])
      ensures forall g, c :: IsButton(g, c) ==>
        timers[g, c] ==
          if g == floor && c == b && b != CAB && old(orders.table[g, c].assignee) == id then old(timers[g, c]).Stop()
          else old(timers[g, c])
      ensures forall e: Elev, g: Floor ::
        cab[e, g] ==
          if b == CAB && e == id && g == floor then old(cab[e, g]).AfterClear().AfterReset() else old(cab[e, g])
    {
      if b == CAB {
        OnClear(orders.table, floor, b);
        OnReset(orders.table, floor, b);
        OnClear(cab, id, floor);
        OnReset(cab, id, floor);
        return;
      }
      if orders.table[floor, b].assignee == id {
        OnClear(orders.table, floor, b);
        timers[floor, b] := timers[floor, b].Stop();
      }
    }

    method ClearButtons(floor: Floor, b2c: Flags)
      requires Valid()
      modifies orders.table, timers, cab
      ensures forall f, b :: IsButton(f, b) ==> orders.table[f, b] == old(Data()).ClearedOrders(floor, b2c)[f][b]
      ensures forall f, b :: IsButton(f, b) ==> timers[f, b] == old(Data()).ClearedTimers(floor, b2c)[f][b]
      ensures forall e: Elev, f: Floor :: cab[e, f] == old(Data()).ClearedCab(floor, b2c)[e][f]
    {
      ghost var p := Data();
      ghost var q := p.ClearOrders(floor, b2c);
      for b := 0 to BUTTONS
        invariant forall g, c :: IsButton(g, c) ==>
          orders.table[g, c] == if c < b then q.orders[g][c] else p.orders[g][c]
        invariant forall g, c :: IsButton(g, c) ==>
          timers[g, c] == if c < b then q.timers[g][c] else p.timers[g][c]
        invariant forall e: Elev, g: Floor ::
          cab[e, g] == if CAB < b then q.cab[e][g] else p.cab[e][g]
      {
        if !b2c[b] { continue; }
        ClearOrder(floor, b);
      }
    }

    /** Clear what has been served at `floor`. */
    method ClearOrders(floor: Floor, b2c: Flags)
      requires Valid()
      modifies orders.table, timers, cab
      ensures Data() == old(Data()).ClearOrders(floor, b2c)
    {
      ghost var p := Data();
      ClearButtons(floor, b2c);
      SameTable(orders.Contents(), p.ClearedOrders(floor, b2c), BUTTONS);
      SameTable(Timetable(), p.ClearedTimers(floor, b2c), BUTTONS);
      SameTable(Backup(), p.ClearedCab(floor, b2c), FLOORS);
    }

    /** Take over the state of the node's own elevator. */
    method CopyFrom(e: Elev, state: ElevatorState)
      requires Valid()
      modifies states
      ensures Data() == old(Data()).(states := old(states[..])[e := state])
    {
      states[e] := state;
    }

    method OnStateUpdate(e: Elev, rcv: ElevatorState)
      requires Valid()
      modifies states
      ensures Data() == old(Data()).(states := old(states[..])[e := old(states[e]).Merge(rcv)])
    {
      if rcv.version <= states[e].version { return; }
      CopyFrom(e, rcv);
    }
  }
}
