/** Gossip: what the replicas of one hall order have in common, in every run. */
module Gossip {
  import opened Allocator
  import opened AllocatorProperties
  import opened Config
  import opened Control
  import opened Nodes
  import opened OrderLattice
  import opened Orders
  import opened RunInvariants
  import opened Systems

  /** The copy that node `n` has of the hall order at `f`, `b`. */
  function Copy(s: System, n: Elev, f: Floor, b: HallButton): Order {
    s.nodes[n].peers.orders[f][b]
  }

  // Steps only add knowledge

  lemma StepInflates(p: PeersData, now: int, f: Floor, b: HallButton)
    requires IsElev(p.id)
    ensures Leq(p.orders[f][b], p.Step(now).orders[f][b])
  {
    CellStepInflates(p.StepView(), p.watchdogs, f, now, Cell(p.orders[f][b], p.timers[f][b], true));
    assert p.Step(now).orders[f][b] == p.StepCell(now, f, b).order;
  }

  lemma BeginInflates(n: NodeData, i: Inputs, buttons: BoolTable, f: Floor, b: HallButton)
    requires IsElev(n.peers.id)
    ensures Leq(n.peers.orders[f][b], n.Begin(i, buttons).peers.orders[f][b])
  {
    var p := n.peers.SyncButtons(buttons);
    var q := p.SetState(n.car.Sense(i).Sync(ToBoolTable(p.orders, p.id)).state);
    StepInflates(q, i.now, f, b);
    TransitionsInflate(n.peers.orders[f][b], n.peers.id);
    LeqTransitive(n.peers.orders[f][b], p.orders[f][b], q.Step(i.now).orders[f][b]);
  }

  lemma FinishInflates(n: NodeData, f: Floor, b: HallButton)
    requires IsElev(n.peers.id) && n.pending.Some?
    ensures Leq(n.peers.orders[f][b], n.Finish().peers.orders[f][b])
  {
    TransitionsInflate(n.peers.orders[f][b], 0);
  }

  lemma ReceiveInflates(n: NodeData, pkt: Packet, now: int, f: Floor, b: HallButton)
    requires IsElev(n.peers.id) && IsElev(pkt.id)
    ensures Leq(n.peers.orders[f][b], n.Receive(pkt, now).peers.orders[f][b])
    ensures pkt.id != n.peers.id ==>
      n.Receive(pkt, now).peers.orders[f][b] == n.peers.orders[f][b].Merge(pkt.orders[f][b])
    ensures pkt.id == n.peers.id ==> n.Receive(pkt, now) == n
  {
    MergeIsJoin(n.peers.orders[f][b], pkt.orders[f][b], BLANK);
  }

  /** Whatever happens but a restart, every copy only grows: its version and status never fall back. */
  lemma ApplyInflates(s: System, a: Action, n: Elev, f: Floor, b: HallButton)
    requires !a.Restart?
    ensures Leq(Copy(s, n, f, b), Copy(Apply(s, a), n, f, b))
  {
    if Enabled(s, a) && (a.Begin? || a.Finish? || a.Deliver?) && a.n == n {
      match a
      case Begin(_, i, buttons) => BeginInflates(s.nodes[n], i, buttons, f, b);
      case Finish(_) => FinishInflates(s.nodes[n], f, b);
      case Deliver(_, packet, now) => ReceiveInflates(s.nodes[n], packet, now, f, b);
    }
  }

  predicate RestartFree(r: Run, j: nat, k: nat)
    requires k <= |r.actions|
  {
    forall m :: j <= m < k ==> !r.actions[m].Restart?
  }

  lemma StepInflatesAt(r: Run, k: nat, n: Elev, f: Floor, b: HallButton)
    requires 0 < k <= |r.actions| && !r.actions[k - 1].Restart?
    ensures Leq(Copy(r.trace[k - 1], n, f, b), Copy(r.trace[k], n, f, b))
  {
    StepTo(r, k);
    ApplyInflates(r.trace[k - 1], r.actions[k - 1], n, f, b);
  }

  /** Between any two moments of a run without restarts. */
  lemma {:induction false} RunInflates(r: Run, j: nat, k: nat, n: Elev, f: Floor, b: HallButton)
    requires j <= k <= |r.actions| && RestartFree(r, j, k)
    ensures Leq(Copy(r.trace[j], n, f, b), Copy(r.trace[k], n, f, b))
  {
    if j < k {
      RunInflates(r, j, k - 1, n, f, b);
      StepInflatesAt(r, k, n, f, b);
      LeqTransitive(Copy(r.trace[j], n, f, b), Copy(r.trace[k - 1], n, f, b), Copy(r.trace[k], n, f, b));
    }
  }

  // Nothing in flight is news to its sender

  ghost predicate NoNews(s: System, f: Floor, b: HallButton)
  {
    forall p :: p in s.net ==> IsElev(p.id) && Leq(p.orders[f][b], Copy(s, p.id, f, b))
  }

  lemma ApplyNoNews(s: System, a: Action, f: Floor, b: HallButton)
    requires SystemOk(s) && NoNews(s, f, b) && !a.Restart?
    ensures NoNews(Apply(s, a), f, b)
  {
    var t := Apply(s, a);
    if a.Send? && Enabled(s, a) {
      SendOk(s.nodes[a.n]);
    }
    forall p | p in t.net
      ensures IsElev(p.id) && Leq(p.orders[f][b], Copy(t, p.id, f, b))
    {
      if p in s.net {
        ApplyInflates(s, a, p.id, f, b);
        LeqTransitive(p.orders[f][b], Copy(s, p.id, f, b), Copy(t, p.id, f, b));
      }
    }
  }

  /** In a run without restarts the greatest version of an order is always held by some node: no
      packet knows more than its sender does. */
  lemma {:induction false} NothingNewInFlight(r: Run, k: nat, f: Floor, b: HallButton)
    requires k <= |r.actions| && RestartFree(r, 0, k)
    ensures NoNews(r.trace[k], f, b)
  {
    if k > 0 {
      NothingNewInFlight(r, k - 1, f, b);
      AlwaysOk(r, k - 1);
      StepTo(r, k);
      ApplyNoNews(r.trace[k - 1], r.actions[k - 1], f, b);
    }
  }

  // Convergence

  /** `o` knows all that the nodes know. */
  ghost predicate KnowsAll(s: System, f: Floor, b: HallButton, o: Order) {
    forall n: Elev {:trigger Copy(s, n, f, b)} :: Leq(Copy(s, n, f, b), o)
  }

  /** `o` is what the nodes know together, and nothing more. */
  ghost predicate IsJoin(s: System, f: Floor, b: HallButton, o: Order) {
    KnowsAll(s, f, b, o) && forall u: Order :: KnowsAll(s, f, b, u) ==> Leq(o, u)
  }

  function Copies(s: System, f: Floor, b: HallButton): seq<Order> {
    seq(ELEVS, n requires IsElev(n) => Copy(s, n, f, b))
  }

  /** All copies merged. */
  function Join(s: System, f: Floor, b: HallButton): Order { MergeAll(BLANK, Copies(s, f, b)) }

  lemma JoinIsLeast(s: System, f: Floor, b: HallButton, u: Order)
    requires KnowsAll(s, f, b, u)
    ensures Leq(Join(s, f, b), u)
  {
    MergeAllIsJoin(BLANK, Copies(s, f, b), u);
    assert Leq(Copy(s, 0, f, b), u);
    forall x | x in Copies(s, f, b)
      ensures Leq(x, u)
    {
      var n: Elev :| Copies(s, f, b)[n] == x;
      assert Leq(Copy(s, n, f, b), u);
    }
  }

  /** The nodes do have a join: merging all copies, in any sequence, gives it. */
  lemma JoinExists(s: System, f: Floor, b: HallButton)
    ensures IsJoin(s, f, b, Join(s, f, b))
  {
    forall n: Elev
      ensures Leq(Copy(s, n, f, b), Join(s, f, b))
    {
      MergeAllIsJoin(BLANK, Copies(s, f, b), BLANK);
      assert Copies(s, f, b)[n] in Copies(s, f, b);
    }
    forall u: Order | KnowsAll(s, f, b, u)
      ensures Leq(Join(s, f, b), u)
    {
      JoinIsLeast(s, f, b, u);
    }
  }

  /** No packet in flight is news to the nodes together. With a single elevator nobody receives it. */
  ghost predicate NothingNewer(s: System, f: Floor, b: HallButton) {
    ELEVS > 1 ==> forall p {:trigger p in s.net} :: p in s.net ==> Leq(p.orders[f][b], Join(s, f, b))
  }

  /** Without restarts that is always so. */
  lemma NothingNewerWithoutRestarts(r: Run, k: nat, f: Floor, b: HallButton)
    requires k <= |r.actions| && RestartFree(r, 0, k)
    ensures NothingNewer(r.trace[k], f, b)
  {
    NothingNewInFlight(r, k, f, b);
    JoinExists(r.trace[k], f, b);
    forall p | p in r.trace[k].net
      ensures Leq(p.orders[f][b], Join(r.trace[k], f, b))
    {
      LeqTransitive(p.orders[f][b], Copy(r.trace[k], p.id, f, b), Join(r.trace[k], f, b));
    }
  }

  ghost predicate QuietAt(r: Run, k: nat, f: Floor, b: HallButton) {
    && k < |r.actions| && k + 1 < |r.trace|
    && (r.actions[k].Deliver? || forall n: Elev :: Copy(r.trace[k + 1], n, f, b) == Copy(r.trace[k], n, f, b))
  }

  /** From moment `stop` on local operations have stopped: only deliveries change a copy. */
  ghost predicate QuietFrom(r: Run, stop: nat, f: Floor, b: HallButton) {
    forall k: nat {:trigger QuietAt(r, k, f, b)} :: stop <= k < |r.actions| ==> QuietAt(r, k, f, b)
  }

  /** Node `i` has merged a snapshot that node `j` has sent since `stop`. */
  ghost predicate Exchanged(r: Run, stop: nat, i: Elev, j: Elev) {
    exists sent: nat, got: nat :: stop <= sent < got < |r.actions| && Exchange(r, i, j, sent, got)
  }

  ghost predicate Below(s: System, f: Floor, b: HallButton, u: Order) {
    KnowsAll(s, f, b, u) && (ELEVS > 1 ==> forall p {:trigger p in s.net} :: p in s.net ==> Leq(p.orders[f][b], u))
  }

  /** Only sending adds packets, and a packet carries the copies of its sender. */
  lemma PacketsAreCopies(s: System, a: Action, p: Packet, f: Floor, b: HallButton)
    requires p in Apply(s, a).net && p !in s.net
    ensures exists n: Elev :: p.orders[f][b] == Copy(s, n, f, b)
  {
    assert a.Send? && p.orders[f][b] == Copy(s, a.n, f, b);
  }

  lemma DeliveryStaysBelow(s: System, a: Action, n: Elev, f: Floor, b: HallButton, u: Order)
    requires a.Deliver? && Leq(Copy(s, n, f, b), u)
    requires ELEVS > 1 && a.packet in s.net ==> Leq(a.packet.orders[f][b], u)
    ensures Leq(Copy(Apply(s, a), n, f, b), u)
    ensures Leq(Copy(s, n, f, b), Copy(Apply(s, a), n, f, b))
  {
    if Enabled(s, a) && a.n == n {
      ReceiveInflates(s.nodes[n], a.packet, a.now, f, b);
      MergeIsJoin(Copy(s, n, f, b), a.packet.orders[f][b], u);
    }
  }

  lemma QuietStaysBelow(s: System, a: Action, f: Floor, b: HallButton, u: Order)
    requires Below(s, f, b, u)
    requires a.Deliver? || forall n: Elev :: Copy(Apply(s, a), n, f, b) == Copy(s, n, f, b)
    ensures Below(Apply(s, a), f, b, u)
    ensures forall n: Elev :: Leq(Copy(s, n, f, b), Copy(Apply(s, a), n, f, b))
  {
    forall n: Elev
      ensures Leq(Copy(Apply(s, a), n, f, b), u) && Leq(Copy(s, n, f, b), Copy(Apply(s, a), n, f, b))
    {
      if a.Deliver? {
        DeliveryStaysBelow(s, a, n, f, b, u);
      }
    }
    forall p | ELEVS > 1 && p in Apply(s, a).net
      ensures Leq(p.orders[f][b], u)
    {
      if p !in s.net {
        PacketsAreCopies(s, a, p, f, b);
      }
    }
  }

  /** One quiet step of a run. */
  lemma QuietStep(r: Run, k: nat, f: Floor, b: HallButton, u: Order)
    requires 0 < k <= |r.actions| && QuietAt(r, k - 1, f, b) && Below(r.trace[k - 1], f, b, u)
    ensures Below(r.trace[k], f, b, u)
    ensures forall n: Elev {:trigger Copy(r.trace[k], n, f, b)} ::
      Leq(Copy(r.trace[k - 1], n, f, b), Copy(r.trace[k], n, f, b))
  {
    StepTo(r, k);
    QuietStaysBelow(r.trace[k - 1], r.actions[k - 1], f, b, u);
  }

  /** While it is quiet, copies stay below what bounds them all. */
  lemma {:induction false} QuietBelow(r: Run, stop: nat, k: nat, f: Floor, b: HallButton, u: Order)
    requires stop <= k <= |r.actions|
    requires QuietFrom(r, stop, f, b) && Below(r.trace[stop], f, b, u)
    ensures Below(r.trace[k], f, b, u)
  {
    if stop < k {
      QuietBelow(r, stop, k - 1, f, b, u);
      QuietStep(r, k, f, b, u);
    }
  }

  /** And they grow. */
  lemma {:induction false} QuietGrows(r: Run, stop: nat, j: nat, k: nat, n: Elev, f: Floor, b: HallButton, u: Order)
    requires stop <= j <= k <= |r.actions|
    requires QuietFrom(r, stop, f, b) && Below(r.trace[stop], f, b, u)
    ensures Leq(Copy(r.trace[j], n, f, b), Copy(r.trace[k], n, f, b))
  {
    if j < k {
      QuietGrows(r, stop, j, k - 1, n, f, b, u);
      QuietBelow(r, stop, k - 1, f, b, u);
      QuietStep(r, k, f, b, u);
      LeqTransitive(Copy(r.trace[j], n, f, b), Copy(r.trace[k - 1], n, f, b), Copy(r.trace[k], n, f, b));
    }
  }

  lemma DeliveryTeaches(s: System, a: Action, f: Floor, b: HallButton)
    requires a.Deliver? && Enabled(s, a) && a.packet.id != a.n
    ensures Leq(a.packet.orders[f][b], Copy(Apply(s, a), a.n, f, b))
  {
    ReceiveInflates(s.nodes[a.n], a.packet, a.now, f, b);
    MergeIsJoin(Copy(s, a.n, f, b), a.packet.orders[f][b], BLANK);
  }

  lemma SendCarriesId(r: Run, k: nat, j: Elev)
    requires k <= |r.actions| && r.trace[k].nodes[j].booted
    ensures r.trace[k].nodes[j].peers.Send().id == j
  {
    NodeAlwaysOk(r, k, j);
    SendOk(r.trace[k].nodes[j]);
  }

  lemma SentKnows(r: Run, stop: nat, i: Elev, j: Elev, sent: nat, got: nat, f: Floor, b: HallButton, u: Order)
    requires QuietFrom(r, stop, f, b) && stop <= sent <= |r.actions|
    requires Below(r.trace[stop], f, b, u) && Exchange(r, i, j, sent, got)
    ensures Leq(Copy(r.trace[stop], j, f, b), r.actions[got].packet.orders[f][b])
  {
    QuietGrows(r, stop, stop, sent, j, f, b, u);
  }

  lemma GotKnows(r: Run, i: Elev, j: Elev, sent: nat, got: nat, f: Floor, b: HallButton)
    requires i != j && Exchange(r, i, j, sent, got)
    ensures Leq(r.actions[got].packet.orders[f][b], Copy(r.trace[got + 1], i, f, b))
  {
    SendCarriesId(r, sent, j);
    assert r.Step(got);
    DeliveryTeaches(r.trace[got], r.actions[got], f, b);
  }

  /** And keeps knowing it. */
  lemma GotStays(r: Run, stop: nat, i: Elev, j: Elev, sent: nat, got: nat, f: Floor, b: HallButton, u: Order)
    requires i != j && stop <= sent && Exchange(r, i, j, sent, got)
    requires QuietFrom(r, stop, f, b) && Below(r.trace[stop], f, b, u)
    ensures Leq(r.actions[got].packet.orders[f][b], Copy(r.trace[|r.actions|], i, f, b))
  {
    GotKnows(r, i, j, sent, got, f, b);
    QuietGrows(r, stop, got + 1, |r.actions|, i, f, b, u);
    LeqTransitive(r.actions[got].packet.orders[f][b],
                  Copy(r.trace[got + 1], i, f, b),
                  Copy(r.trace[|r.actions|], i, f, b));
  }

  /** One exchange is enough for `i` to know what `j` knew when it became quiet. */
  lemma ExchangeTeaches(r: Run, stop: nat, i: Elev, j: Elev, sent: nat, got: nat, f: Floor, b: HallButton, u: Order)
    requires i != j && stop <= sent && Exchange(r, i, j, sent, got)
    requires QuietFrom(r, stop, f, b) && Below(r.trace[stop], f, b, u)
    ensures Leq(Copy(r.trace[stop], j, f, b), Copy(r.trace[|r.actions|], i, f, b))
  {
    SentKnows(r, stop, i, j, sent, got, f, b, u);
    GotStays(r, stop, i, j, sent, got, f, b, u);
    LeqTransitive(Copy(r.trace[stop], j, f, b),
                  r.actions[got].packet.orders[f][b],
                  Copy(r.trace[|r.actions|], i, f, b));
  }

  ghost predicate KnownTo(s: System, replicas: set<Elev>, n: Elev, f: Floor, b: HallButton) {
    exists i :: i in replicas && Leq(Copy(s, n, f, b), Copy(s, i, f, b))
  }

  /** What every node outside `replicas` knows is known to a replica, as when it has never run. */
  ghost predicate Covered(s: System, replicas: set<Elev>, f: Floor, b: HallButton) {
    forall n: Elev {:trigger KnownTo(s, replicas, n, f, b)} :: KnownTo(s, replicas, n, f, b)
  }

  lemma StopIsBelow(s: System, f: Floor, b: HallButton, u: Order)
    requires NothingNewer(s, f, b) && KnowsAll(s, f, b, u)
    ensures Below(s, f, b, u)
  {
    JoinIsLeast(s, f, b, u);
    forall p | ELEVS > 1 && p in s.net
      ensures Leq(p.orders[f][b], u)
    {
      LeqTransitive(p.orders[f][b], Join(s, f, b), u);
    }
  }

  lemma CoveredKnows(s: System, replicas: set<Elev>, f: Floor, b: HallButton, o: Order)
    requires Covered(s, replicas, f, b)
    requires forall j :: j in replicas ==> Leq(Copy(s, j, f, b), o)
    ensures KnowsAll(s, f, b, o)
  {
    forall n: Elev
      ensures Leq(Copy(s, n, f, b), o)
    {
      assert KnownTo(s, replicas, n, f, b);
      var j :| j in replicas && Leq(Copy(s, n, f, b), Copy(s, j, f, b));
      LeqTransitive(Copy(s, n, f, b), Copy(s, j, f, b), o);
    }
  }

  /** Node `i` has merged a snapshot that every other replica has sent since `stop`. */
  ghost predicate ExchangedWithAll(r: Run, stop: nat, replicas: set<Elev>, i: Elev) {
    forall j :: j in replicas && i != j ==> Exchanged(r, stop, i, j)
  }

  /** Then it knows all, and no more. */
  lemma LearnsAll(r: Run, stop: nat, replicas: set<Elev>, i: Elev, f: Floor, b: HallButton, u: Order)
    requires stop <= |r.actions|
    requires QuietFrom(r, stop, f, b) && Below(r.trace[stop], f, b, u)
    requires Covered(r.trace[stop], replicas, f, b) && ExchangedWithAll(r, stop, replicas, i)
    ensures KnowsAll(r.trace[stop], f, b, Copy(r.trace[|r.actions|], i, f, b))
    ensures Leq(Copy(r.trace[|r.actions|], i, f, b), u)
  {
    QuietGrows(r, stop, stop, |r.actions|, i, f, b, u);
    QuietBelow(r, stop, |r.actions|, f, b, u);
    forall j | j in replicas
      ensures Leq(Copy(r.trace[stop], j, f, b), Copy(r.trace[|r.actions|], i, f, b))
    {
      if i != j {
        var sent: nat, got: nat :| stop <= sent < got < |r.actions| && Exchange(r, i, j, sent, got);
        ExchangeTeaches(r, stop, i, j, sent, got, f, b, u);
      }
    }
    CoveredKnows(r.trace[stop], replicas, f, b, Copy(r.trace[|r.actions|], i, f, b));
  }

  /** Convergence: take any run, with any loss, repetition, delay, interleaving and restarts. If nothing
      in flight is newer at the moment when local operations stop, then one exchange with every other
      replica is enough for a node to end up with the join of what all nodes knew at that moment. */
  lemma Converges(r: Run, stop: nat, replicas: set<Elev>, i: Elev, f: Floor, b: HallButton)
    requires stop <= |r.actions| && NothingNewer(r.trace[stop], f, b) && QuietFrom(r, stop, f, b)
    requires Covered(r.trace[stop], replicas, f, b) && ExchangedWithAll(r, stop, replicas, i)
    ensures IsJoin(r.trace[stop], f, b, Copy(r.trace[|r.actions|], i, f, b))
  {
    forall u | KnowsAll(r.trace[stop], f, b, u)
      ensures Leq(Copy(r.trace[|r.actions|], i, f, b), u)
    {
      StopIsBelow(r.trace[stop], f, b, u);
      LearnsAll(r, stop, replicas, i, f, b, u);
    }
    var u := Join(r.trace[stop], f, b);
    JoinExists(r.trace[stop], f, b);
    StopIsBelow(r.trace[stop], f, b, u);
    LearnsAll(r, stop, replicas, i, f, b, u);
  }

  /** So two such nodes agree on version, status, observers and, when confirmed, assignee. */
  lemma ReplicasAgree(r: Run, stop: nat, replicas: set<Elev>, i: Elev, j: Elev, f: Floor, b: HallButton)
    requires stop <= |r.actions| && NothingNewer(r.trace[stop], f, b) && QuietFrom(r, stop, f, b)
    requires Covered(r.trace[stop], replicas, f, b)
    requires ExchangedWithAll(r, stop, replicas, i) && ExchangedWithAll(r, stop, replicas, j)
    ensures Same(Copy(r.trace[|r.actions|], i, f, b), Copy(r.trace[|r.actions|], j, f, b))
  {
    Converges(r, stop, replicas, i, f, b);
    Converges(r, stop, replicas, j, f, b);
    LeqAntisymmetric(Copy(r.trace[|r.actions|], i, f, b), Copy(r.trace[|r.actions|], j, f, b));
  }

  /** Single executor: at two such nodes a confirmed order is in the table of the same one elevator,
      even if two nodes had confirmed it to different ones; an order that is not confirmed is in
      nobody's table. */
  lemma SingleExecutor(r: Run, stop: nat, replicas: set<Elev>, i: Elev, j: Elev, f: Floor, b: HallButton)
    requires stop <= |r.actions| && NothingNewer(r.trace[stop], f, b) && QuietFrom(r, stop, f, b)
    requires Covered(r.trace[stop], replicas, f, b)
    requires ExchangedWithAll(r, stop, replicas, i) && ExchangedWithAll(r, stop, replicas, j)
    ensures var s, o := r.trace[|r.actions|], Copy(r.trace[|r.actions|], i, f, b);
      && (o.status.Confirmed? ==> IsElev(o.assignee))
      && (forall e :: ToBoolTable(s.nodes[i].peers.orders, e)[f][b] <==> o.status.Confirmed? && e == o.assignee)
      && (forall e :: ToBoolTable(s.nodes[j].peers.orders, e)[f][b] <==> o.status.Confirmed? && e == o.assignee)
  {
    ReplicasAgree(r, stop, replicas, i, j, f, b);
    NodeAlwaysOk(r, |r.actions|, i);
    var t, u := r.trace[|r.actions|].nodes[i].peers.orders, r.trace[|r.actions|].nodes[j].peers.orders;
    assert Sound(t[f][b]);
    forall e
      ensures ToBoolTable(t, e)[f][b] == t[f][b].AssignedTo(e) && ToBoolTable(u, e)[f][b] == u[f][b].AssignedTo(e)
    {
    }
  }
}
