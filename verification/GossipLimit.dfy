/** The other half of convergence: what happens when a packet in flight is newer than all that the
    nodes know, as after a restart of its sender. */
module GossipLimit {
  import opened Allocator
  import opened AllocatorProperties
  import opened Config
  import opened Control
  import opened ElevatorStates
  import opened Gossip
  import opened Nodes
  import opened OrderLattice
  import opened Orders
  import opened RunInvariants
  import opened RunSafety
  import opened Systems
  import opened Timers

  // Longer runs

  ghost predicate Continues(q: Run, r: Run) {
    r.actions <= q.actions && r.trace <= q.trace
  }

  /** `q` goes on from `r` without local operations on the order, and loses nothing on the way. */
  ghost predicate GoesOn(q: Run, r: Run, f: Floor, b: HallButton) {
    Continues(q, r) && QuietFrom(q, |r.actions|, f, b) && Last(r).net <= Last(q).net
  }

  lemma NetGrows(s: System, a: Action)
    requires !a.Lose?
    ensures s.net <= Apply(s, a).net
  {
  }

  lemma GoesFurther(q: Run, r: Run, a: Action, f: Floor, b: HallButton)
    requires GoesOn(q, r, f, b) && !a.Lose?
    requires a.Deliver? || forall n: Elev :: Copy(Apply(Last(q), a), n, f, b) == Copy(Last(q), n, f, b)
    ensures GoesOn(Then(q, a), r, f, b)
  {
    var t := Then(q, a);
    forall k: nat | |r.actions| <= k < |t.actions|
      ensures QuietAt(t, k, f, b)
    {
      if k < |q.actions| {
        assert QuietAt(q, k, f, b);
      }
    }
    NetGrows(Last(q), a);
  }

  lemma KeepsExchange(q: Run, a: Action, stop: nat, i: Elev, j: Elev)
    requires Exchanged(q, stop, i, j)
    ensures Exchanged(Then(q, a), stop, i, j)
  {
    var sent: nat, got: nat :| stop <= sent < got < |q.actions| && Exchange(q, i, j, sent, got);
    assert Exchange(Then(q, a), i, j, sent, got);
  }

  // Starting every node

  const NOTHING_READ := Inputs(BETWEEN_FLOORS, BETWEEN_FLOORS, false, false, 0)

  function Boot(n: Elev): Action { Action.Begin(n, NOTHING_READ, NoRequests()) }

  lemma BlankStays(v: View, watchdogs: seq<Timer>, floor: int, now: int)
    requires |watchdogs| == ELEVS && IsElev(v.self)
    ensures CellStep(v, watchdogs, floor, now, Cell(BLANK, OFF, true)).order == BLANK
  {
    var c := Cell(BLANK, OFF, true);
    PassLeavesUnconfirmed(v, watchdogs, floor, now, c, ELEVS);
    FaultsLeaveUnconfirmed(Checked(v, watchdogs, now), floor, now, c, ELEVS);
  }

  lemma BootKeepsCopy(m: NodeData, f: Floor, b: HallButton)
    requires IsElev(m.peers.id) && m.peers == FreshPeers(m.peers.id)
    ensures m.Begin(NOTHING_READ, NoRequests()).peers.orders[f][b] == BLANK == m.peers.orders[f][b]
  {
    var p := m.peers.SyncButtons(NoRequests());
    var q := p.SetState(m.car.Sense(NOTHING_READ).Sync(ToBoolTable(p.orders, p.id)).state);
    assert q.orders[f][b] == BLANK && q.timers[f][b] == OFF;
    BlankStays(q.StepView(), q.watchdogs, f, 0);
    assert q.Step(0).orders[f][b] == q.StepCell(0, f, b).order;
  }

  ghost predicate BootedBelow(s: System, n: nat) {
    forall m: Elev {:trigger s.nodes[m]} :: m < n ==> s.nodes[m].booted
  }

  lemma BootChanges(s: System, n: Elev)
    requires NodeOk(s.nodes[n]) && !s.nodes[n].booted
    ensures Apply(s, Boot(n)) == s.SetNode(n, s.nodes[n].Begin(NOTHING_READ, NoRequests()))
  {
  }

  lemma BootKeepsCopies(s: System, n: Elev, f: Floor, b: HallButton)
    requires NodeOk(s.nodes[n]) && !s.nodes[n].booted && s.nodes[n].peers == FreshPeers(n)
    ensures var t := Apply(s, Boot(n));
      && t.nodes[n].booted
      && (forall m: Elev :: Copy(t, m, f, b) == Copy(s, m, f, b))
      && forall m: Elev :: m != n ==> t.nodes[m] == s.nodes[m]
  {
    BootChanges(s, n);
    BootKeepsCopy(s.nodes[n], f, b);
  }

  lemma BootOne(q: Run, r: Run, f: Floor, b: HallButton, n: Elev)
    requires GoesOn(q, r, f, b) && BootedBelow(Last(q), n) && !Last(q).nodes[n].booted
    ensures GoesOn(Then(q, Boot(n)), r, f, b) && BootedBelow(Last(Then(q, Boot(n))), n + 1)
  {
    UnbootedIsFresh(q, |q.actions|, n);
    NodeAlwaysOk(q, |q.actions|, n);
    BootKeepsCopies(Last(q), n, f, b);
    GoesFurther(q, r, Boot(n), f, b);
  }

  lemma {:induction false} BootAll(r: Run, f: Floor, b: HallButton, n: nat) returns (q: Run)
    requires n <= ELEVS
    ensures GoesOn(q, r, f, b) && BootedBelow(Last(q), n)
  {
    if n == 0 {
      q := r;
    } else {
      q := BootAll(r, f, b, n - 1);
      if !Last(q).nodes[n - 1].booted {
        BootOne(q, r, f, b, n - 1);
        q := Then(q, Boot(n - 1));
      }
    }
  }

  // Exchanging with every node

  /** All nodes run, and `i` knows `o` and has exchanged with the nodes below `n` since the end of `r`. */
  ghost predicate Heard(q: Run, r: Run, f: Floor, b: HallButton, i: Elev, o: Order, n: nat) {
    && GoesOn(q, r, f, b) && BootedBelow(Last(q), ELEVS) && Leq(o, Copy(Last(q), i, f, b))
    && forall j: Elev {:trigger Exchanged(q, |r.actions|, i, j)} :: j < n && j != i ==> Exchanged(q, |r.actions|, i, j)
  }

  lemma RunningCanAct(q: Run, n: Elev)
    requires Last(q).nodes[n].booted
    ensures Enabled(Last(q), Action.Send(n)) && Last(q).nodes[n].peers.Send().id == n
    ensures forall p :: p in Last(q).net ==> Enabled(Last(q), Deliver(n, p, 0))
  {
    NodeAlwaysOk(q, |q.actions|, n);
    SendOk(Last(q).nodes[n]);
    NothingHalts(q, |q.actions|);
  }

  /** Neither sending nor receiving stops a node or makes it forget. */
  lemma MessagesKeep(s: System, a: Action, f: Floor, b: HallButton, i: Elev)
    requires a.Send? || a.Deliver?
    ensures BootedBelow(s, ELEVS) ==> BootedBelow(Apply(s, a), ELEVS)
    ensures Leq(Copy(s, i, f, b), Copy(Apply(s, a), i, f, b))
    ensures a.Send? ==> forall n: Elev :: Copy(Apply(s, a), n, f, b) == Copy(s, n, f, b)
  {
    ApplyInflates(s, a, i, f, b);
  }

  lemma HeardFurther(q: Run, r: Run, a: Action, f: Floor, b: HallButton, i: Elev, o: Order, n: nat)
    requires Heard(q, r, f, b, i, o, n) && (a.Send? || a.Deliver?)
    ensures Heard(Then(q, a), r, f, b, i, o, n)
  {
    MessagesKeep(Last(q), a, f, b, i);
    GoesFurther(q, r, a, f, b);
    LeqTransitive(o, Copy(Last(q), i, f, b), Copy(Apply(Last(q), a), i, f, b));
    forall j: Elev | j < n && j != i
      ensures Exchanged(Then(q, a), |r.actions|, i, j)
    {
      KeepsExchange(q, a, |r.actions|, i, j);
    }
  }

  /** `j` sends and `i` receives. */
  ghost function Exchanging(q: Run, i: Elev, j: Elev): Run {
    Then(Then(q, Action.Send(j)), Deliver(i, Last(q).nodes[j].peers.Send(), 0))
  }

  lemma ExchangingExchanges(q: Run, stop: nat, i: Elev, j: Elev)
    requires stop <= |q.actions| && Last(q).nodes[i].booted && Last(q).nodes[j].booted
    ensures Exchanged(Exchanging(q, i, j), stop, i, j)
  {
    var p := Last(q).nodes[j].peers.Send();
    var sent := Then(q, Action.Send(j));
    RunningCanAct(q, j);
    assert p in Last(sent).net && Last(sent).nodes[i].booted;
    RunningCanAct(sent, i);
    assert Exchange(Exchanging(q, i, j), i, j, |q.actions|, |q.actions| + 1);
  }

  lemma HearOne(q: Run, r: Run, f: Floor, b: HallButton, i: Elev, o: Order, n: Elev)
    requires n != i && Heard(q, r, f, b, i, o, n)
    ensures Heard(Exchanging(q, i, n), r, f, b, i, o, n)
  {
    var sent := Then(q, Action.Send(n));
    HeardFurther(q, r, Action.Send(n), f, b, i, o, n);
    HeardFurther(sent, r, Deliver(i, Last(q).nodes[n].peers.Send(), 0), f, b, i, o, n);
  }

  lemma HeardOneMore(q: Run, r: Run, f: Floor, b: HallButton, i: Elev, o: Order, n: Elev)
    requires Heard(q, r, f, b, i, o, n) && (n != i ==> Exchanged(q, |r.actions|, i, n))
    ensures Heard(q, r, f, b, i, o, n + 1)
  {
  }

  lemma {:induction false} HearAll(q: Run, r: Run, f: Floor, b: HallButton, i: Elev, o: Order, n: nat) returns (t: Run)
    requires n <= ELEVS && Heard(q, r, f, b, i, o, 0)
    ensures Heard(t, r, f, b, i, o, n)
  {
    if n == 0 {
      t := q;
    } else {
      var m: Elev := n - 1;
      t := HearAll(q, r, f, b, i, o, m);
      if m != i {
        assert Last(t).nodes[i].booted && Last(t).nodes[m].booted;
        HearOne(t, r, f, b, i, o, m);
        ExchangingExchanges(t, |r.actions|, i, m);
        t := Exchanging(t, i, m);
      }
      HeardOneMore(t, r, f, b, i, o, m);
    }
  }

  // The limit

  /** However `r` goes on without local operations, every node that has exchanged with all others ends
      up with the join of the copies at the end of `r`. */
  ghost predicate Converging(r: Run, f: Floor, b: HallButton) {
    forall q: Run, replicas: set<Elev>, i: Elev ::
      Continues(q, r) && QuietFrom(q, |r.actions|, f, b)
      && Covered(q.trace[|r.actions|], replicas, f, b) && ExchangedWithAll(q, |r.actions|, replicas, i) ==>
        IsJoin(Last(r), f, b, Copy(Last(q), i, f, b))
  }

  lemma EveryoneCovers(s: System, f: Floor, b: HallButton)
    ensures Covered(s, Everyone(), f, b)
  {
    forall n: Elev
      ensures KnownTo(s, Everyone(), n, f, b)
    {
      assert n in Everyone() && Leq(Copy(s, n, f, b), Copy(s, n, f, b));
    }
  }

  lemma HearNews(q: Run, r: Run, p: Packet, f: Floor, b: HallButton, i: Elev)
    requires GoesOn(q, r, f, b) && BootedBelow(Last(q), ELEVS) && p in Last(q).net && p.id != i
    ensures Heard(Then(q, Deliver(i, p, 0)), r, f, b, i, p.orders[f][b], 0)
  {
    var a := Deliver(i, p, 0);
    assert Last(q).nodes[i].booted;
    RunningCanAct(q, i);
    DeliveryTeaches(Last(q), a, f, b);
    GoesFurther(q, r, a, f, b);
    MessagesKeep(Last(q), a, f, b, i);
  }

  lemma NotTheJoin(s: System, f: Floor, b: HallButton, o: Order, x: Order)
    requires !Leq(o, Join(s, f, b)) && Leq(o, x)
    ensures !IsJoin(s, f, b, x)
  {
    JoinExists(s, f, b);
    if Leq(x, Join(s, f, b)) {
      LeqTransitive(o, x, Join(s, f, b));
    }
  }

  lemma NewsIsNotJoined(q: Run, r: Run, f: Floor, b: HallButton, i: Elev, o: Order)
    requires Heard(q, r, f, b, i, o, ELEVS) && !Leq(o, Join(Last(r), f, b))
    ensures !Converging(r, f, b)
  {
    EveryoneCovers(q.trace[|r.actions|], f, b);
    NotTheJoin(Last(r), f, b, o, Copy(Last(q), i, f, b));
    assert ExchangedWithAll(q, |r.actions|, Everyone(), i);
  }

  /** A packet that is newer than all the nodes know takes a receiver above their join, and it stays
      there, although it exchanges with everyone else. */
  lemma NewsOverrunsJoin(r: Run, p: Packet, f: Floor, b: HallButton)
    requires ELEVS > 1 && p in Last(r).net && !Leq(p.orders[f][b], Join(Last(r), f, b))
    ensures !Converging(r, f, b)
  {
    var i: Elev := if p.id == 0 then 1 else 0;
    var q := BootAll(r, f, b, ELEVS);
    HearNews(q, r, p, f, b, i);
    var t := HearAll(Then(q, Deliver(i, p, 0)), r, f, b, i, p.orders[f][b], ELEVS);
    NewsIsNotJoined(t, r, f, b, i, p.orders[f][b]);
  }

  /** Convergence, exactly: a system in which local operations stop converges to the join of its copies,
      in every way it can go on, if and only if nothing in flight is newer. */
  lemma ConvergenceLimit(r: Run, f: Floor, b: HallButton)
    ensures Converging(r, f, b) <==> NothingNewer(Last(r), f, b)
  {
    if NothingNewer(Last(r), f, b) {
      forall q: Run, replicas: set<Elev>, i: Elev
        | && Continues(q, r) && QuietFrom(q, |r.actions|, f, b)
          && Covered(q.trace[|r.actions|], replicas, f, b) && ExchangedWithAll(q, |r.actions|, replicas, i)
        ensures IsJoin(Last(r), f, b, Copy(Last(q), i, f, b))
      {
        Converges(q, |r.actions|, replicas, i, f, b);
      }
    } else {
      var p :| p in Last(r).net && !Leq(p.orders[f][b], Join(Last(r), f, b));
      NewsOverrunsJoin(r, p, f, b);
    }
  }

  // A history that loses the newest order

  function Press(f: Floor, b: HallButton): BoolTable {
    seq(FLOORS, g requires IsFloor(g) => seq(BUTTONS, c requires IsButton(g, c) => g == f && c == b))
  }

  function Pressing(n: Elev, f: Floor, b: HallButton): Action { Action.Begin(n, NOTHING_READ, Press(f, b)) }

  lemma PressIsNews(m: NodeData, f: Floor, b: HallButton)
    requires IsElev(m.peers.id) && m.peers.orders[f][b] == BLANK
    ensures m.Begin(NOTHING_READ, Press(f, b)).peers.orders[f][b].version > 0
  {
    var p := m.peers.SyncButtons(Press(f, b));
    var q := p.SetState(m.car.Sense(NOTHING_READ).Sync(ToBoolTable(p.orders, p.id)).state);
    assert p.orders[f][b].version == 1;
    StepInflates(q, 0, f, b);
  }

  /** The node is called, tells the others, and is restarted before they hear of it. */
  ghost function Called(r: Run, n: Elev, f: Floor, b: HallButton): Run { Then(r, Pressing(n, f, b)) }

  ghost function Told(r: Run, n: Elev, f: Floor, b: HallButton): Run {
    Then(Called(r, n, f, b), Action.Send(n))
  }

  ghost function Lost(r: Run, n: Elev, f: Floor, b: HallButton): Run {
    Then(Told(r, n, f, b), Restart(n, 0, false, false))
  }

  ghost predicate BlankElsewhere(s: System, n: Elev, f: Floor, b: HallButton) {
    forall m: Elev :: m != n ==> Copy(s, m, f, b) == BLANK
  }

  /** Nothing has happened to the order, and `n` can begin a step. */
  ghost predicate BlankEverywhere(s: System, n: Elev, f: Floor, b: HallButton) {
    BlankElsewhere(s, n, f, b) && Copy(s, n, f, b) == BLANK && s.nodes[n].pending.None? && !s.nodes[n].peers.halted
  }

  lemma StartsBlank(r: Run, n: Elev, f: Floor, b: HallButton)
    requires r.actions == []
    ensures BlankEverywhere(Last(r), n, f, b)
  {
    assert Started(r.trace[0], n);
    forall m: Elev
      ensures Copy(Last(r), m, f, b) == BLANK
    {
      assert Started(r.trace[0], m);
    }
  }

  ghost predicate NewsAt(s: System, n: Elev, f: Floor, b: HallButton) {
    s.nodes[n].booted && Copy(s, n, f, b).version > 0 && BlankElsewhere(s, n, f, b)
  }

  lemma StaysBlankElsewhere(s: System, a: Action, n: Elev, f: Floor, b: HallButton)
    requires BlankElsewhere(s, n, f, b) && (a == Pressing(n, f, b) || a == Action.Send(n))
    ensures BlankElsewhere(Apply(s, a), n, f, b)
  {
    forall m: Elev | m != n
      ensures Copy(Apply(s, a), m, f, b) == BLANK
    {
      assert Apply(s, a).nodes[m] == s.nodes[m] && Copy(s, m, f, b) == BLANK;
    }
  }

  lemma CallIsNews(s: System, n: Elev, f: Floor, b: HallButton)
    requires BlankEverywhere(s, n, f, b)
    ensures NewsAt(Apply(s, Pressing(n, f, b)), n, f, b)
  {
    PressIsNews(s.nodes[n], f, b);
    StaysBlankElsewhere(s, Pressing(n, f, b), n, f, b);
  }

  lemma NewsIsTold(q: Run, n: Elev, f: Floor, b: HallButton)
    requires NewsAt(Last(q), n, f, b)
    ensures var s := Last(Then(q, Action.Send(n)));
      BlankElsewhere(s, n, f, b) && exists p :: p in s.net && p.orders[f][b].version > 0
  {
    RunningCanAct(q, n);
    StaysBlankElsewhere(Last(q), Action.Send(n), n, f, b);
    assert Last(q).nodes[n].peers.Send() in Last(Then(q, Action.Send(n))).net;
  }

  lemma NewsIsLost(s: System, n: Elev, f: Floor, b: HallButton)
    requires ELEVS > 1 && BlankElsewhere(s, n, f, b)
    requires exists p :: p in s.net && p.orders[f][b].version > 0
    ensures !NothingNewer(Apply(s, Restart(n, 0, false, false)), f, b)
  {
    var t := Apply(s, Restart(n, 0, false, false));
    var p :| p in s.net && p.orders[f][b].version > 0;
    assert p in t.net;
    forall m: Elev
      ensures Leq(Copy(t, m, f, b), BLANK)
    {
      assert m == n || Copy(s, m, f, b) == BLANK;
    }
    JoinIsLeast(t, f, b, BLANK);
  }

  /** From the start of any system: what the restarted node has sent is newer than all copies, so
      whoever receives it first is ahead of the nodes' join. */
  lemma RestartLosesTheNewest(r: Run, n: Elev, f: Floor, b: HallButton)
    requires r.actions == [] && ELEVS > 1
    ensures !NothingNewer(Last(Lost(r, n, f, b)), f, b) && !Converging(Lost(r, n, f, b), f, b)
  {
    StartsBlank(r, n, f, b);
    CallIsNews(Last(r), n, f, b);
    NewsIsTold(Called(r, n, f, b), n, f, b);
    NewsIsLost(Last(Told(r, n, f, b)), n, f, b);
    ConvergenceLimit(Lost(r, n, f, b), f, b);
  }
}
