/** One node: its copy of the shared orders, its view of the others, its car, and the steps it takes
    while it holds its lock (services/elevator-node/src/elevator_node.cpp, libs/network/src/peers.cpp). */
module Nodes {
  import opened Allocator
  import opened Config
  import opened Control
  import opened ElevatorStates
  import opened Orders
  import opened Timers

  type TimerSeq = s: seq<Timer> | |s| == ELEVS witness seq(ELEVS, _ => OFF)

  datatype Packet = Packet(id: int, orders: OrderGrid, state: ElevatorState, cab: CabGrid)
  {
    /** What a receiver lets through. */
    ghost predicate Valid() {
      && IsElev(id)
      && state.Valid()
      && (forall f, b {:trigger orders[f][b].Valid()} :: IsButton(f, b) ==> orders[f][b].Valid())
      && (forall e, f {:trigger cab[e][f].Valid()} :: IsElev(e) && IsFloor(f) ==> cab[e][f].Valid())
    }
  }

  /** The world as one node sees it. `halted` records a failed assertion or an abort. */
  datatype PeersData = PeersData(
    id: int,
    numElevs: nat,
    orders: OrderGrid,
    timers: TimerGrid,
    watchdogs: TimerSeq,
    states: StateSeq,
    cab: CabGrid,
    halted: bool)
  {
    // The step

    function StepView(): View { View(id, ActiveCount(states), states) }

    function StepCell(now: int, f: int, b: int): Cell
      requires IsElev(id) && IsHall(f, b)
    {
      CellStep(StepView(), watchdogs, f, now, Cell(orders[f][b], timers[f][b], true))
    }

    function StepOrders(now: int): OrderGrid
      requires IsElev(id)
    {
      var t := seq(FLOORS, f requires IsFloor(f) => seq(BUTTONS, b requires IsButton(f, b) =>
        if b == CAB then orders[f][b] else StepCell(now, f, b).order));
      assert forall f :: IsFloor(f) ==> |t[f]| == BUTTONS;
      t
    }

    function StepTimers(now: int): TimerGrid
      requires IsElev(id)
    {
      var t := seq(FLOORS, f requires IsFloor(f) => seq(BUTTONS, b requires IsButton(f, b) =>
        if b == CAB then timers[f][b] else StepCell(now, f, b).timer));
      assert forall f :: IsFloor(f) ==> |t[f]| == BUTTONS;
      t
    }

    ghost function Step(now: int): PeersData
      requires IsElev(id)
    {
      this.(
        numElevs := ActiveCount(states),
        orders := StepOrders(now),
        timers := StepTimers(now),
        watchdogs := WatchdogsAfter(watchdogs, now, ELEVS),
        states := StatesAfter(states, watchdogs, now, ELEVS),
        halted := halted || exists f, b :: IsHall(f, b) && !StepCell(now, f, b).live)
    }

    // Button presses

    function Pressed(f: int, b: int): Order
      requires IsButton(f, b)
    {
      if b == CAB then orders[f][b].AfterRequest(id).AfterConfirm(id) else orders[f][b].AfterRequest(id)
    }

    function PressedOrders(buttons: BoolTable): OrderGrid {
      var t := seq(FLOORS, f requires IsFloor(f) => seq(BUTTONS, b requires IsButton(f, b) =>
        if buttons[f][b] then Pressed(f, b) else orders[f][b]));
      assert forall f :: IsFloor(f) ==> |t[f]| == BUTTONS;
      t
    }

    function PressedCab(buttons: BoolTable): CabGrid {
      var t := seq(ELEVS, e requires IsElev(e) => seq(FLOORS, f requires IsFloor(f) =>
        if e == id && buttons[f][CAB] then cab[e][f].AfterRequest(id).AfterConfirm(id) else cab[e][f]));
      assert forall e :: IsElev(e) ==> |t[e]| == FLOORS;
      t
    }

    function SyncButtons(buttons: BoolTable): PeersData {
      this.(orders := PressedOrders(buttons), cab := PressedCab(buttons))
    }

    // Clearing

    /** Is the order at `f`, `b` cleared by flags `k` given for floor `floor`? Hall orders are left
        alone when they have meanwhile gone to someone else. */
    predicate Clears(floor: int, k: Flags, f: int, b: int)
      requires IsButton(f, b)
    {
      f == floor && k[b] && (b == CAB || orders[f][b].assignee == id)
    }

    function ClearedOrders(floor: int, k: Flags): OrderGrid {
      var t := seq(FLOORS, f requires IsFloor(f) => seq(BUTTONS, b requires IsButton(f, b) =>
        if !Clears(floor, k, f, b) then orders[f][b]
        else if b == CAB then orders[f][b].AfterClear().AfterReset()
        else orders[f][b].AfterClear()));
      assert forall f :: IsFloor(f) ==> |t[f]| == BUTTONS;
      t
    }

    function ClearedTimers(floor: int, k: Flags): TimerGrid {
      var t := seq(FLOORS, f requires IsFloor(f) => seq(BUTTONS, b requires IsButton(f, b) =>
        if b != CAB && Clears(floor, k, f, b) then timers[f][b].Stop() else timers[f][b]));
      assert forall f :: IsFloor(f) ==> |t[f]| == BUTTONS;
      t
    }

    function ClearedCab(floor: int, k: Flags): CabGrid {
      var t := seq(ELEVS, e requires IsElev(e) => seq(FLOORS, f requires IsFloor(f) =>
        if e == id && f == floor && k[CAB] then cab[e][f].AfterClear().AfterReset() else cab[e][f]));
      assert forall e :: IsElev(e) ==> |t[e]| == FLOORS;
      t
    }

    function ClearOrders(floor: int, k: Flags): PeersData {
      this.(orders := ClearedOrders(floor, k), timers := ClearedTimers(floor, k), cab := ClearedCab(floor, k))
    }

    // Packets

    /** Hall orders are joined; the node's own cab orders are joined with the sender's backup. */
    function JoinedOrders(pkt: Packet): OrderGrid
      requires IsElev(id)
    {
      var t := seq(FLOORS, f requires IsFloor(f) => seq(BUTTONS, b requires IsButton(f, b) =>
        orders[f][b].Merge(if b == CAB then pkt.cab[id][f] else pkt.orders[f][b])));
      assert forall f :: IsFloor(f) ==> |t[f]| == BUTTONS;
      t
    }

    /** The sender's cab orders are backed up; the node's own backup is joined with the sender's. */
    function JoinedCab(pkt: Packet): CabGrid {
      var t := seq(ELEVS, e requires IsElev(e) => seq(FLOORS, f requires IsFloor(f) =>
        if e == pkt.id then cab[e][f].Merge(pkt.orders[f][CAB])
        else if e == id then cab[e][f].Merge(pkt.cab[id][f])
        else cab[e][f]));
      assert forall e :: IsElev(e) ==> |t[e]| == FLOORS;
      t
    }

    function Receive(pkt: Packet, now: int): PeersData
      requires IsElev(id) && IsElev(pkt.id)
    {
      if pkt.id == id then this
      else
        this.(
          orders := JoinedOrders(pkt),
          watchdogs := watchdogs[pkt.id := watchdogs[pkt.id].Start(now, WATCHDOG_TIME)],
          states := states[pkt.id := states[pkt.id].Merge(pkt.state)],
          cab := JoinedCab(pkt))
    }

    function Send(): Packet
      requires IsElev(id)
    {
      Packet(states[id].id, orders, states[id], cab)
    }

    function SetState(s: ElevatorState): PeersData
      requires IsElev(id)
    {
      this.(states := states[id := s])
    }
  }

  function FreshPeers(id: int): PeersData {
    PeersData(id, 0,
              seq(FLOORS, _ => seq(BUTTONS, _ => BLANK)),
              seq(FLOORS, _ => seq(BUTTONS, _ => OFF)),
              seq(ELEVS, _ => OFF),
              seq(ELEVS, _ => Unknown()),
              seq(ELEVS, _ => seq(FLOORS, _ => BLANK)),
              false)
  }

  /** `booted` is set by the first step, before which no packet is sent or received. `pending` is the
      event of the current step, whose effect on the orders waits for the lock. */
  datatype NodeData = NodeData(booted: bool, peers: PeersData, car: Car, pending: Option<Flags>)
  {
    /** The first locked section of a step and the event that follows it. */
    ghost function Begin(i: Inputs, buttons: BoolTable): NodeData
      requires IsElev(peers.id)
    {
      var p := peers.SyncButtons(buttons);
      var c := car.Sense(i).Sync(ToBoolTable(p.orders, p.id));
      var (d, k) := c.Dispatch(i);
      NodeData(true, p.SetState(c.state).Step(i.now), d, k)
    }

    /** The second locked section, after an event. */
    function Finish(): NodeData
      requires IsElev(peers.id) && pending.Some?
    {
      var p := if pending.value == NO_CLEAR then peers else peers.ClearOrders(car.state.floor, pending.value);
      var c := car.Finish(ToBoolTable(p.orders, p.id));
      NodeData(booted, p.SetState(c.state), c, None)
    }

    function Receive(pkt: Packet, now: int): NodeData
      requires IsElev(peers.id) && IsElev(pkt.id)
    {
      this.(peers := peers.Receive(pkt, now))
    }
  }

  function FreshNode(id: int, floor: int, stopped: bool, obstruction: bool): NodeData {
    NodeData(false, FreshPeers(id), StartCar(id, floor, stopped, obstruction), None)
  }
}
