/** What holds of every node and packet in every run. */
module RunInvariants {
  import opened Allocator
  import opened AllocatorProperties
  import opened Config
  import opened Control
  import opened ControllerSafety
  import opened ElevatorStates
  import opened Nodes
  import opened Orders
  import opened Systems

  ghost predicate SoundGrid(t: OrderGrid) {
    forall f, b {:trigger Sound(t[f][b])} :: IsButton(f, b) ==> Sound(t[f][b])
  }

  ghost predicate SoundCab(t: CabGrid) {
    forall e, f {:trigger Sound(t[e][f])} :: IsElev(e) && IsFloor(f) ==> Sound(t[e][f])
  }

  /** A report of an elevator about itself. */
  predicate Report(s: ElevatorState, id: int) {
    s.id == id && s.active && s.version >= 1 && s.Consistent()
  }

  /** What a node holds about elevator `e`: nothing, or a report. */
  predicate Known(s: ElevatorState, e: int) {
    Report(s, e) || (!s.active && s.version == 0)
  }

  ghost predicate PeersOk(p: PeersData) {
    && IsElev(p.id)
    && !p.halted
    && SoundGrid(p.orders)
    && SoundCab(p.cab)
    && (forall e {:trigger Known(p.states[e], e)} :: IsElev(e) ==> Known(p.states[e], e))
    // a running watchdog belongs to another node that has reported
    && (forall e :: IsElev(e) && p.watchdogs[e].active ==> e != p.id && p.states[e].active)
  }

  ghost predicate NodeOk(n: NodeData) {
    && PeersOk(n.peers)
    && Safe(n.car)
    && Report(n.car.state, n.peers.id)
    && (n.booted ==> n.peers.states[n.peers.id].active)
    && (n.pending.Some? ==> n.booted)
  }

  ghost predicate PacketOk(p: Packet) {
    IsElev(p.id) && Report(p.state, p.id) && SoundGrid(p.orders) && SoundCab(p.cab)
  }

  ghost predicate SystemOk(s: System) {
    && (forall n {:trigger NodeOk(s.nodes[n])} :: IsElev(n) ==> NodeOk(s.nodes[n]))
    && (forall p {:trigger PacketOk(p)} :: p in s.net ==> PacketOk(p))
  }

  // Nodes

  lemma FreshOk(id: int, floor: int, stopped: bool, obstruction: bool)
    requires IsElev(id) && IsFloor(floor)
    ensures NodeOk(FreshNode(id, floor, stopped, obstruction))
  {
  }

  lemma ButtonsOk(p: PeersData, buttons: BoolTable)
    requires PeersOk(p)
    ensures PeersOk(p.SyncButtons(buttons))
  {
    var q := p.SyncButtons(buttons);
    forall f, b | IsButton(f, b)
      ensures Sound(q.orders[f][b])
    {
      assert Sound(p.orders[f][b]);
    }
    forall e, f | IsElev(e) && IsFloor(f)
      ensures Sound(q.cab[e][f])
    {
      assert Sound(p.cab[e][f]);
    }
  }

  lemma ClearingOk(p: PeersData, floor: int, k: Flags)
    requires PeersOk(p)
    ensures PeersOk(p.ClearOrders(floor, k))
  {
    var q := p.ClearOrders(floor, k);
    forall f, b | IsButton(f, b)
      ensures Sound(q.orders[f][b])
    {
      assert Sound(p.orders[f][b]);
    }
    forall e, f | IsElev(e) && IsFloor(f)
      ensures Sound(q.cab[e][f])
    {
      assert Sound(p.cab[e][f]);
    }
  }

  /** The node's own entry is active when the allocator runs, and watchdogs fit the states. */
  lemma StepIsReady(p: PeersData)
    requires PeersOk(p) && p.states[p.id].active
    ensures ReadyToCheck(p.StepView(), p.watchdogs)
  {
    forall e | IsElev(e) && p.states[e].active
      ensures IsFloor(p.states[e].floor)
    {
      assert Known(p.states[e], e);
    }
  }

  lemma PeersReport(p: PeersData)
    requires PeersOk(p)
    ensures Reporting(p.states)
  {
    forall e | IsElev(e) && p.states[e].active
      ensures p.states[e].Consistent()
    {
      assert Known(p.states[e], e);
    }
  }

  lemma StepCellOk(p: PeersData, now: int, f: int, b: int)
    requires PeersOk(p) && p.states[p.id].active && IsHall(f, b)
    ensures Avoids(p.StepCell(now, f, b), Fired(p.watchdogs, now))
    ensures Avoids(p.StepCell(now, f, b), {})
  {
    StepIsReady(p);
    assert Sound(p.orders[f][b]);
    HandOver(p.StepView(), p.watchdogs, f, now, Cell(p.orders[f][b], p.timers[f][b], true));
    AvoidsFewer(p.StepCell(now, f, b), Fired(p.watchdogs, now), {});
  }

  lemma StepOk(p: PeersData, now: int)
    requires PeersOk(p) && p.states[p.id].active
    ensures PeersOk(p.Step(now)) && p.Step(now).states[p.id] == p.states[p.id]
  {
    var q := p.Step(now);
    StepIsReady(p);
    forall f, b | IsHall(f, b)
      ensures Avoids(p.StepCell(now, f, b), {})
    {
      StepCellOk(p, now, f, b);
    }
    forall f, b | IsButton(f, b)
      ensures Sound(q.orders[f][b])
    {
      assert b != CAB ==> q.orders[f][b] == p.StepCell(now, f, b).order;
    }
  }

  lemma MergeSound(a: Order, b: Order)
    requires Sound(a) && Sound(b)
    ensures Sound(a.Merge(b))
  {
  }

  lemma JoinSound(p: PeersData, pkt: Packet)
    requires IsElev(p.id) && SoundGrid(p.orders) && SoundCab(p.cab)
    requires SoundGrid(pkt.orders) && SoundCab(pkt.cab)
    ensures SoundGrid(p.JoinedOrders(pkt)) && SoundCab(p.JoinedCab(pkt))
  {
    forall f, b | IsButton(f, b)
      ensures Sound(p.JoinedOrders(pkt)[f][b])
    {
      MergeSound(p.orders[f][b], if b == CAB then pkt.cab[p.id][f] else pkt.orders[f][b]);
    }
    forall e, f | IsElev(e) && IsFloor(f)
      ensures Sound(p.JoinedCab(pkt)[e][f])
    {
      MergeSound(p.cab[e][f], pkt.orders[f][CAB]);
      MergeSound(p.cab[e][f], pkt.cab[p.id][f]);
    }
  }

  lemma ReceiveOk(p: PeersData, pkt: Packet, now: int)
    requires PeersOk(p) && PacketOk(pkt)
    ensures PeersOk(p.Receive(pkt, now))
    ensures p.states[p.id].active ==> p.Receive(pkt, now).states[p.id].active
  {
    JoinSound(p, pkt);
    assert Known(p.states[pkt.id], pkt.id);
  }

  lemma BeginOk(n: NodeData, i: Inputs, buttons: BoolTable)
    requires NodeOk(n)
    ensures NodeOk(n.Begin(i, buttons))
  {
    var p := n.peers.SyncButtons(buttons);
    ButtonsOk(n.peers, buttons);
    var c := n.car.Sense(i).Sync(ToBoolTable(p.orders, p.id));
    assert Safe(c);
    DispatchIsSafe(c, i);
    DispatchKeepsReport(c, i);
    StepOk(p.SetState(c.state), i.now);
  }

  lemma FinishOk(n: NodeData)
    requires NodeOk(n) && n.pending.Some?
    ensures NodeOk(n.Finish())
  {
    ClearingOk(n.peers, n.car.state.floor, n.pending.value);
  }

  // Runs

  lemma NodeStaysOk(s: System, a: Action, n: Elev)
    requires NodeOk(s.nodes[n])
    requires a.Deliver? && a.packet in s.net ==> PacketOk(a.packet)
    ensures NodeOk(Apply(s, a).nodes[n])
  {
    if Enabled(s, a) && !a.Lose? && !a.Send? && a.n == n {
      match a
      case Begin(_, i, buttons) => BeginOk(s.nodes[n], i, buttons);
      case Finish(_) => FinishOk(s.nodes[n]);
      case Deliver(_, packet, now) => ReceiveOk(s.nodes[n].peers, packet, now);
      case Restart(_, floor, stopped, obstruction) => FreshOk(n, floor, stopped, obstruction);
    }
  }

  lemma SendOk(n: NodeData)
    requires NodeOk(n) && n.booted
    ensures PacketOk(n.peers.Send()) && n.peers.Send().id == n.peers.id
  {
    assert Known(n.peers.states[n.peers.id], n.peers.id);
  }

  lemma ApplyOk(s: System, a: Action)
    requires SystemOk(s)
    ensures SystemOk(Apply(s, a))
  {
    assert a.Deliver? && a.packet in s.net ==> PacketOk(a.packet);
    forall n: Elev
      ensures NodeOk(Apply(s, a).nodes[n])
    {
      NodeStaysOk(s, a, n);
    }
    forall p | p in Apply(s, a).net
      ensures PacketOk(p)
    {
      if p !in s.net {
        SendOk(s.nodes[a.n]);
      }
    }
  }

  lemma InitialOk(s: System)
    requires Initial(s)
    ensures SystemOk(s)
  {
    forall n | IsElev(n)
      ensures NodeOk(s.nodes[n])
    {
      assert Started(s, n);
      var c := s.nodes[n].car.state;
      FreshOk(n, c.floor, c.stopped, c.obstruction);
    }
  }

  lemma StepKeepsOk(r: Run, k: nat)
    requires 0 < k <= |r.actions| && SystemOk(r.trace[k - 1])
    ensures SystemOk(r.trace[k])
  {
    StepTo(r, k);
    ApplyOk(r.trace[k - 1], r.actions[k - 1]);
  }

  /** The invariant of every run, restarts included. */
  lemma {:induction false} AlwaysOk(r: Run, k: nat)
    requires k <= |r.actions|
    ensures SystemOk(r.trace[k])
  {
    if k > 0 {
      AlwaysOk(r, k - 1);
      StepKeepsOk(r, k);
    } else {
      InitialOk(r.trace[0]);
    }
  }

  /** The invariant for one node at one moment. */
  lemma NodeAlwaysOk(r: Run, k: nat, n: int)
    requires k <= |r.actions| && IsElev(n)
    ensures NodeOk(r.trace[k].nodes[n])
  {
    AlwaysOk(r, k);
  }

  /** A node that has not begun its first step is as it was initialized. */
  predicate FreshUntilBooted(m: NodeData) { !m.booted ==> m.peers == FreshPeers(m.peers.id) }

  lemma UnbootedStaysFresh(s: System, a: Action, t: System, n: Elev)
    requires t == Apply(s, a) && FreshUntilBooted(s.nodes[n]) && (s.nodes[n].pending.Some? ==> s.nodes[n].booted)
    ensures FreshUntilBooted(t.nodes[n])
  {
  }

  lemma UnbootedNext(r: Run, k: nat, n: Elev)
    requires 0 < k <= |r.actions| && FreshUntilBooted(r.trace[k - 1].nodes[n])
    ensures FreshUntilBooted(r.trace[k].nodes[n])
  {
    NodeAlwaysOk(r, k - 1, n);
    StepTo(r, k);
    UnbootedStaysFresh(r.trace[k - 1], r.actions[k - 1], r.trace[k], n);
  }

  lemma {:induction false} UnbootedIsFresh(r: Run, k: nat, n: Elev)
    requires k <= |r.actions|
    ensures FreshUntilBooted(r.trace[k].nodes[n])
  {
    if k == 0 {
      assert Started(r.trace[0], n);
    } else {
      UnbootedIsFresh(r, k - 1, n);
      UnbootedNext(r, k, n);
    }
  }
}
