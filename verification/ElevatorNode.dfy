/** A node in place: what it does while it holds the lock on its peers, and the events in between
    (services/elevator-node/src/elevator_node.cpp). */
module ElevatorNodes {
  import opened AllocatorProperties
  import opened Cars
  import opened Config
  import opened Control
  import opened ElevatorStates
  import opened Network
  import opened Nodes
  import opened Orders
  import opened OrderTables
  import opened RunInvariants

  /** Where the allocator starts from in a step. */
  lemma CanStep(p: PeersData, buttons: BoolTable, s: ElevatorState)
    requires PeersOk(p) && Report(s, p.id)
    ensures var q := p.SyncButtons(buttons).SetState(s);
      && ReadyToCheck(q.StepView(), q.watchdogs)
      && forall f: Floor, b: HallButton {:trigger q.orders[f][b]} :: Sound(q.orders[f][b])
  {
    ButtonsOk(p, buttons);
    StepIsReady(p.SyncButtons(buttons).SetState(s));
  }

  lemma BeginIs(n: NodeData, i: Inputs, buttons: BoolTable, s: Car, d: Car, event: Option<Flags>)
    requires IsElev(n.peers.id)
    requires s == n.car.Sense(i).Sync(ToBoolTable(n.peers.SyncButtons(buttons).orders, n.peers.id))
    requires (d, event) == s.Dispatch(i)
    ensures n.Begin(i, buttons) == NodeData(true, n.peers.SyncButtons(buttons).SetState(s.state).Step(i.now), d, event)
  {
  }

  class ElevatorNode {
    const id: int
    const peers: Peers
    const elev: Elevator
    const controller: Controller
    // how far the control loop has come
    ghost var booted: bool
    ghost var pending: Option<Flags>

    ghost predicate Valid() { peers.Valid() && peers.id == id && controller.Valid() }

    ghost function View(): NodeData
      requires Valid()
      reads this, peers, peers.orders.table, peers.timers, peers.watchdogs, peers.states, peers.cab,
            controller, elev, controller.requests.table, controller.prevRequests.table
    {
      NodeData(booted, peers.Data(), controller.View(elev), pending)
    }

    /** Created and initialized; `readings` are those of the drive to a floor, and `sensor` the one after it. */
    constructor (nodeId: int, readings: seq<int>, sensor: int, stopped: bool, obstruction: bool)
      requires IsElev(nodeId) && exists k :: 0 <= k < |readings| && readings[k] != BETWEEN_FLOORS
      ensures Valid() && id == nodeId
      ensures View() == FreshNode(nodeId, if IsFloor(sensor) then sensor else BETWEEN_FLOORS, stopped, obstruction)
    {
      id := nodeId;
      peers := new Peers(nodeId);
      elev := new Elevator(nodeId);
      controller := new Controller();
      booted := false;
      pending := None;
      new;
      elev.Init(readings, sensor, stopped, obstruction);
    }

    // Button presses

    method PressButton(f: Floor, b: int)
      requires Valid() && 0 <= b < BUTTONS
      modifies peers.orders.table, peers.cab
      ensures forall g, c :: IsButton(g, c) ==>
        peers.orders.table[g, c] ==
          if g == f && c == b then old(peers.Data()).Pressed(g, c) else old(peers.orders.table[g, c])
      ensures forall e: Elev, g: Floor ::
        peers.cab[e, g] ==
          if b == CAB && e == id && g == f then old(peers.cab[e, g]).AfterRequest(id).AfterConfirm(id)
          else old(peers.cab[e, g])
    {
      if b == CAB {
        OnRequest(peers.orders.table, f, b, id);
        OnConfirm(peers.orders.table, f, b, id);
        OnRequest(peers.cab, id, f, id);
        OnConfirm(peers.cab, id, f, id);
      } else {
        OnRequest(peers.orders.table, f, b, id);
      }
    }

    method PressButtons(buttons: BoolTable)
      requires Valid()
      modifies peers.orders.table, peers.cab
      ensures forall f, b :: IsButton(f, b) ==>
        peers.orders.table[f, b] == old(peers.Data()).PressedOrders(buttons)[f][b]
      ensures forall e: Elev, f: Floor :: peers.cab[e, f] == old(peers.Data()).PressedCab(buttons)[e][f]
    {
      ghost var p := peers.Data();
      for f := 0 to FLOORS
        invariant forall g, c :: IsButton(g, c) ==>
          peers.orders.table[g, c] == if g < f then p.PressedOrders(buttons)[g][c] else p.orders[g][c]
        invariant forall e: Elev, g: Floor ::
          peers.cab[e, g] == if g < f then p.PressedCab(buttons)[e][g] else p.cab[e][g]
      {
        for b := 0 to BUTTONS
          invariant forall g, c :: IsButton(g, c) ==>
            peers.orders.table[g, c] ==
              if g < f || (g == f && c < b) then p.PressedOrders(buttons)[g][c] else p.orders[g][c]
          invariant forall e: Elev, g: Floor ::
            peers.cab[e, g] == if g < f || (g == f && CAB < b) then p.PressedCab(buttons)[e][g] else p.cab[e][g]
        {
          if !buttons[f][b] { continue; }
          PressButton(f, b);
        }
      }
    }

    method SyncButtonSignals(buttons: BoolTable)
      requires Valid()
      modifies peers.orders.table, peers.cab
      ensures peers.Data() == old(peers.Data()).SyncButtons(buttons)
    {
      ghost var p := peers.Data();
      PressButtons(buttons);
      SameTable(peers.orders.Contents(), p.PressedOrders(buttons), BUTTONS);
      SameTable(peers.Backup(), p.PressedCab(buttons), FLOORS);
    }

    method SyncPeers(buttons: BoolTable)
      requires Valid()
      modifies peers.orders.table, peers.cab, peers.states, elev`state, controller.requests.table
      ensures var p := old(peers.Data()).SyncButtons(buttons);
        && controller.View(elev) == old(controller.View(elev)).Sync(ToBoolTable(p.orders, id))
        && peers.Data() == p.SetState(elev.state)
    {
      SyncButtonSignals(buttons);
      var table := peers.orders.ToBoolTable(id);
      controller.requests.SetAll(table);
      elev.state := elev.state.(version := elev.state.version + 1);
      peers.CopyFrom(id, elev.state);
    }

    // Packets

    method TxPacketCopy() returns (packet: Packet)
      requires Valid()
      ensures packet == View().peers.Send()
    {
      return Packet(peers.states[id].id, peers.orders.Contents(), peers.states[id], peers.Backup());
    }

    /** Join the sender's cab orders and its backup of this node's. */
    method JoinCabOrders(packet: Packet)
      requires Valid() && IsElev(packet.id) && packet.id != id
      modifies peers.orders.table, peers.cab
      ensures forall f, b :: IsButton(f, b) ==>
        peers.orders.table[f, b] ==
          if b == CAB then old(peers.orders.table[f, b]).Merge(packet.cab[id][f]) else old(peers.orders.table[f, b])
      ensures peers.Backup() == old(peers.Data()).JoinedCab(packet)
    {
      ghost var p := peers.Data();
      for f := 0 to FLOORS
        invariant forall g, c :: IsButton(g, c) ==>
          peers.orders.table[g, c] ==
            if c == CAB && g < f then p.orders[g][c].Merge(packet.cab[id][g]) else p.orders[g][c]
        invariant forall e: Elev, g: Floor ::
          peers.cab[e, g] == if g < f then p.JoinedCab(packet)[e][g] else p.cab[e][g]
      {
        OnUpdate(peers.cab, packet.id, f, packet.orders[f][CAB]);
        OnUpdate(peers.cab, id, f, packet.cab[id][f]);
        OnUpdate(peers.orders.table, f, CAB, packet.cab[id][f]);
      }
      SameTable(peers.Backup(), p.JoinedCab(packet), FLOORS);
    }

    method JoinOrders(packet: Packet)
      requires Valid() && IsElev(packet.id) && packet.id != id
      modifies peers.orders.table, peers.cab
      ensures peers.orders.Contents() == old(peers.Data()).JoinedOrders(packet)
      ensures peers.Backup() == old(peers.Data()).JoinedCab(packet)
    {
      ghost var p := peers.Data();
      peers.orders.Join(packet.orders);
      JoinCabOrders(packet);
      SameTable(peers.orders.Contents(), p.JoinedOrders(packet), BUTTONS);
    }

    method RxPacketProcessing(packet: Packet, now: int)
      requires Valid() && IsElev(packet.id)
      modifies peers.orders.table, peers.cab, peers.watchdogs, peers.states
      ensures View() == old(View()).Receive(packet, now)
    {
      if packet.id == id { return; }
      peers.UpdateWatchdogTimer(packet.id, now);
      peers.OnStateUpdate(packet.id, packet.state);
      JoinOrders(packet);
    }

    // The control loop

    /** The event of this round, if there is one, and what it clears. */
    method NextEvent(i: Inputs) returns (event: Option<Flags>)
      requires Valid()
      modifies elev, controller, controller.prevRequests.table
      ensures (controller.View(elev), event) == old(controller.View(elev)).Dispatch(i)
    {
      var b2c;
      if elev.stopPressed && !elev.state.stopped {
        b2c := controller.FsmEmergencyStop(elev, i);
        return Some(b2c);
      }
      if elev.stopPressed && elev.state.stopped {
        b2c := controller.FsmEmergencyStopReset(elev, i.now);
        return Some(b2c);
      }
      var newFloor := elev.HitNewFloor();
      if newFloor {
        b2c := controller.FsmFloorArrival(elev, i.now);
        return Some(b2c);
      }
      var updated := controller.RequestTableUpdated();
      if updated {
        b2c := controller.FsmTableUpdate(elev, i.now);
        return Some(b2c);
      }
      if controller.doorTimer.Expired(i.now) {
        b2c := controller.FsmDoorTimeout(elev, i.now);
        return Some(b2c);
      }
      if controller.floorTimer.Expired(i.now) {
        b2c := controller.FsmFloorTimeout(elev);
        return Some(b2c);
      }
      return None;
    }

    lemma PeersCanStep(p: PeersData, buttons: BoolTable)
      requires Valid() && p.id == id && PeersOk(p) && Report(elev.state, id)
      requires peers.Data() == p.SyncButtons(buttons).SetState(elev.state)
      ensures peers.AllSound() && ReadyToCheck(peers.Data().StepView(), peers.watchdogs[..])
    {
      CanStep(p, buttons, elev.state);
      peers.AllSoundIn(peers.Data());
    }

    /** The first locked section of a step. */
    method LockedStep(buttons: BoolTable, now: int)
      requires Valid() && PeersOk(peers.Data()) && Report(elev.state, id)
      modifies peers, peers.orders.table, peers.timers, peers.watchdogs, peers.states, peers.cab,
               elev`state, controller.requests.table
      ensures var p := old(peers.Data()).SyncButtons(buttons);
        && controller.View(elev) == old(controller.View(elev)).Sync(ToBoolTable(p.orders, id))
        && peers.Data() == p.SetState(elev.state).Step(now)
    {
      ghost var p := peers.Data();
      SyncPeers(buttons);
      PeersCanStep(p, buttons);
      peers.Step(now);
    }

    method SenseAndStep(i: Inputs, buttons: BoolTable)
      requires Valid() && PeersOk(peers.Data()) && Report(elev.state, id)
      modifies peers, peers.orders.table, peers.timers, peers.watchdogs, peers.states, peers.cab,
               elev, controller.requests.table
      ensures var p, c := old(peers.Data()).SyncButtons(buttons), controller.View(elev);
        && c == old(controller.View(elev)).Sense(i).Sync(ToBoolTable(p.orders, id))
        && peers.Data() == p.SetState(c.state).Step(i.now)
    {
      elev.Step(i);
      assert controller.View(elev) == old(controller.View(elev)).Sense(i);
      LockedStep(buttons, i.now);
    }

    method SenseAndHandle(i: Inputs, buttons: BoolTable) returns (event: Option<Flags>)
      requires Valid() && PeersOk(peers.Data()) && Report(elev.state, id)
      modifies peers, peers.orders.table, peers.timers, peers.watchdogs, peers.states, peers.cab,
               elev, controller, controller.requests.table, controller.prevRequests.table
      ensures var p := old(peers.Data()).SyncButtons(buttons);
        var c := old(controller.View(elev)).Sense(i).Sync(ToBoolTable(p.orders, id));
        && (controller.View(elev), event) == c.Dispatch(i)
        && peers.Data() == p.SetState(c.state).Step(i.now)
    {
      SenseAndStep(i, buttons);
      event := NextEvent(i);
    }

    /** A step up to the point where its event waits for the lock. */
    method BeginStep(i: Inputs, buttons: BoolTable) returns (event: Option<Flags>)
      requires Valid() && NodeOk(View())
      modifies this, peers, peers.orders.table, peers.timers, peers.watchdogs, peers.states, peers.cab,
               elev, controller, controller.requests.table, controller.prevRequests.table
      ensures View() == old(View()).Begin(i, buttons) && event == pending
    {
      ghost var n := View();
      event := SenseAndHandle(i, buttons);
      ghost var s := n.car.Sense(i).Sync(ToBoolTable(n.peers.SyncButtons(buttons).orders, id));
      BeginIs(n, i, buttons, s, controller.View(elev), event);
      booted := true;
      pending := event;
    }

    method ClearServed(b2c: Flags)
      requires Valid() && IsFloor(elev.state.floor)
      modifies elev`state, peers.orders.table, peers.timers, peers.cab
      ensures controller.View(elev) == old(controller.View(elev)).(state := old(elev.state).IncrementVersion())
      ensures peers.Data() ==
        if b2c == NO_CLEAR then old(peers.Data()) else old(peers.Data()).ClearOrders(old(elev.state.floor), b2c)
    {
      elev.state := elev.state.(version := elev.state.version + 1);
      if b2c != NO_CLEAR {
        peers.ClearOrders(elev.state.floor, b2c);
      }
    }

    method SyncServed()
      requires Valid()
      modifies peers.states, elev`state, controller.requests.table
      ensures var table, c := ToBoolTable(old(peers.Data()).orders, id), old(controller.View(elev));
        && controller.View(elev) == c.(requests := table, state := c.state.(requests := table))
        && peers.Data() == old(peers.Data()).SetState(elev.state)
    {
      var table := peers.orders.ToBoolTable(id);
      controller.requests.SetAll(table);
      elev.state := elev.state.(requests := table);
      peers.CopyFrom(id, elev.state);
    }

    /** The second locked section: what the event has served is cleared, and the table and the state
        are synchronized. */
    method LockedEvent(b2c: Flags)
      requires Valid() && IsFloor(elev.state.floor)
      modifies peers.orders.table, peers.timers, peers.states, peers.cab, elev`state, controller.requests.table
      ensures
        var p :=
          if b2c == NO_CLEAR then old(peers.Data()) else old(peers.Data()).ClearOrders(old(elev.state.floor), b2c);
        && controller.View(elev) == old(controller.View(elev)).Finish(ToBoolTable(p.orders, id))
        && peers.Data() == p.SetState(elev.state)
    {
      ClearServed(b2c);
      SyncServed();
    }

    method Event(b2c: Flags)
      requires Valid() && pending == Some(b2c) && IsFloor(elev.state.floor)
      modifies `pending, peers.orders.table, peers.timers, peers.states, peers.cab,
               elev`state, controller.requests.table
      ensures View() == old(View()).Finish()
    {
      LockedEvent(b2c);
      pending := None;
    }

    /** A step of a node that is alone with its lock. */
    method Step(i: Inputs, buttons: BoolTable)
      requires Valid() && NodeOk(View())
      modifies this, peers, peers.orders.table, peers.timers, peers.watchdogs, peers.states, peers.cab,
               elev, controller, controller.requests.table, controller.prevRequests.table
      ensures var n := old(View()).Begin(i, buttons); View() == if n.pending.Some? then n.Finish() else n
      ensures NodeOk(View())
    {
      BeginOk(View(), i, buttons);
      var event := BeginStep(i, buttons);
      if event.Some? {
        FinishOk(View());
        Event(event.value);
      }
    }
  }
}
