/** Cab orders: two copies at their owner and a backup at every other node, all of one register. */
module CabOrders {
  import opened Config
  import opened Control
  import opened Nodes
  import opened Orders
  import opened RunInvariants
  import opened Systems

  /** The only order that version `v` of a cab order of `p` can be. */
  function CabAt(p: int, v: nat): Order {
    if v == 0 then BLANK
    else if v % 4 == 2 then Order(v, Confirmed, p, {p})
    else Order(v, NoOrder, p, {p})
  }

  predicate IsCab(o: Order, p: int) {
    o.version % 2 == 0 && o == CabAt(p, o.version)
  }

  /** On cab orders of one owner, merging is the maximum. */
  lemma CabMergeIsMax(a: Order, b: Order, p: int)
    requires IsCab(a, p) && IsCab(b, p)
    ensures a.Merge(b) == if a.version < b.version then b else a
  {
  }

  /** Pressing and clearing step from one such order to the next. */
  lemma CabOperations(o: Order, p: int)
    requires IsCab(o, p)
    ensures IsCab(o.AfterRequest(p).AfterConfirm(p), p) && IsCab(o.AfterClear().AfterReset(), p)
    ensures o.version <= o.AfterRequest(p).AfterConfirm(p).version
    ensures o.version <= o.AfterClear().AfterReset().version
  {
  }

  // Agreement of the copies

  /** The cab orders that a node holds: everybody's in its backup, its own also in its order table, and
      there the same, field for field. */
  ghost predicate CabOk(p: PeersData) {
    && IsElev(p.id)
    && (forall e: Elev, f: Floor {:trigger IsCab(p.cab[e][f], e)} :: IsCab(p.cab[e][f], e))
    && (forall f: Floor {:trigger p.orders[f][CAB]} :: p.orders[f][CAB] == p.cab[p.id][f])
  }

  ghost predicate CabPacketOk(k: Packet) {
    && IsElev(k.id)
    && (forall e: Elev, f: Floor {:trigger IsCab(k.cab[e][f], e)} :: IsCab(k.cab[e][f], e))
    && (forall f: Floor {:trigger k.orders[f][CAB]} :: k.orders[f][CAB] == k.cab[k.id][f])
  }

  ghost predicate CabsOk(s: System) {
    && (forall n: Elev {:trigger CabOk(s.nodes[n].peers)} :: CabOk(s.nodes[n].peers))
    && (forall k {:trigger CabPacketOk(k)} :: k in s.net ==> CabPacketOk(k))
  }

  lemma PressKeepsCab(p: PeersData, buttons: BoolTable)
    requires CabOk(p)
    ensures CabOk(p.SyncButtons(buttons))
  {
    forall f: Floor ensures IsCab(p.SyncButtons(buttons).cab[p.id][f], p.id) { CabOperations(p.cab[p.id][f], p.id); }
  }

  lemma StepKeepsCab(p: PeersData, now: int)
    requires CabOk(p)
    ensures CabOk(p.Step(now)) && p.Step(now).cab == p.cab
  {
  }

  lemma BeginKeepsCab(n: NodeData, i: Inputs, buttons: BoolTable)
    requires CabOk(n.peers)
    ensures CabOk(n.Begin(i, buttons).peers)
    ensures n.Begin(i, buttons).peers.cab == n.peers.SyncButtons(buttons).cab
  {
    PressKeepsCab(n.peers, buttons);
    var p := n.peers.SyncButtons(buttons);
    StepKeepsCab(p.SetState(n.car.Sense(i).Sync(ToBoolTable(p.orders, p.id)).state), i.now);
  }

  lemma FinishKeepsCab(n: NodeData)
    requires CabOk(n.peers) && n.pending.Some?
    ensures CabOk(n.Finish().peers)
  {
    var p, floor, k := n.peers, n.car.state.floor, n.pending.value;
    forall f: Floor ensures IsCab(p.ClearOrders(floor, k).cab[p.id][f], p.id) { CabOperations(p.cab[p.id][f], p.id); }
  }

  lemma ReceiveKeepsCab(p: PeersData, k: Packet, now: int)
    requires CabOk(p) && CabPacketOk(k)
    ensures CabOk(p.Receive(k, now))
  {
    var q := p.Receive(k, now);
    forall e: Elev, f: Floor
      ensures IsCab(q.cab[e][f], e)
    {
      CabMergeIsMax(p.cab[e][f], k.cab[e][f], e);
    }
  }

  lemma FreshCab(n: Elev, floor: int, stopped: bool, obstruction: bool)
    ensures CabOk(FreshNode(n, floor, stopped, obstruction).peers)
  {
  }

  lemma ApplyKeepsCab(s: System, a: Action, n: Elev)
    requires CabOk(s.nodes[n].peers)
    requires a.Deliver? && a.packet in s.net ==> CabPacketOk(a.packet)
    ensures CabOk(Apply(s, a).nodes[n].peers)
  {
    if Enabled(s, a) && !a.Lose? && !a.Send? && a.n == n {
      match a
      case Begin(_, i, buttons) => BeginKeepsCab(s.nodes[n], i, buttons);
      case Finish(_) => FinishKeepsCab(s.nodes[n]);
      case Deliver(_, packet, now) => ReceiveKeepsCab(s.nodes[n].peers, packet, now);
      case Restart(_, floor, stopped, obstruction) => FreshCab(n, floor, stopped, obstruction);
    }
  }

  lemma SendKeepsCab(s: System, a: Action, k: Packet)
    requires k in Apply(s, a).net && k !in s.net
    requires a.Send? ==> forall n: Elev :: a.n == n ==> CabOk(s.nodes[n].peers) && NodeOk(s.nodes[n])
    ensures CabPacketOk(k)
  {
    assert a.Send? && k == s.nodes[a.n].peers.Send();
    SendOk(s.nodes[a.n]);
  }

  lemma ApplyKeepsCabs(s: System, a: Action)
    requires SystemOk(s) && CabsOk(s)
    ensures CabsOk(Apply(s, a))
  {
    forall n: Elev
      ensures CabOk(Apply(s, a).nodes[n].peers)
    {
      ApplyKeepsCab(s, a, n);
    }
    forall k | k in Apply(s, a).net
      ensures CabPacketOk(k)
    {
      if k !in s.net {
        SendKeepsCab(s, a, k);
      }
    }
  }

  lemma InitialCabs(s: System)
    requires Initial(s)
    ensures CabsOk(s)
  {
    forall n: Elev
      ensures CabOk(s.nodes[n].peers)
    {
      assert Started(s, n);
      var c := s.nodes[n].car.state;
      FreshCab(n, c.floor, c.stopped, c.obstruction);
    }
  }

  lemma StepKeepsCabs(r: Run, k: nat)
    requires 0 < k <= |r.actions| && CabsOk(r.trace[k - 1])
    ensures CabsOk(r.trace[k])
  {
    AlwaysOk(r, k - 1);
    StepTo(r, k);
    ApplyKeepsCabs(r.trace[k - 1], r.actions[k - 1]);
  }

  /** Cab orders are a replicated max-register in every run, restarts included: every copy, in tables,
      backups and packets, is determined by its version, and a node's own two copies are equal. */
  lemma {:induction false} CabsAlwaysOk(r: Run, k: nat)
    requires k <= |r.actions|
    ensures CabsOk(r.trace[k])
  {
    if k == 0 {
      InitialCabs(r.trace[k]);
    } else {
      CabsAlwaysOk(r, k - 1);
      StepKeepsCabs(r, k);
    }
  }
}
