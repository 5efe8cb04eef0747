/** What nodes know about each other in whole runs: silence is noticed in time and not before, and reports are
    never newer than the elevator that they are about. */
module Reports {
  import opened Config
  import opened Control
  import opened ControllerSafety
  import opened ElevatorStates
  import opened Nodes
  import opened Orders
  import opened RunInvariants
  import opened RunSafety
  import opened Systems
  import opened Timers

  // Silence

  /** The node has last heard from `e` at `heard`, and takes it for active. */
  predicate Watched(p: PeersData, e: Elev, heard: int) {
    p.watchdogs[e] == Timer(true, heard + WATCHDOG_TIME) && p.states[e].active
  }

  lemma PacketIsHeard(p: PeersData, k: Packet, now: int)
    requires PeersOk(p) && PacketOk(k) && k.id != p.id
    ensures Watched(p.Receive(k, now), k.id, now)
  {
    assert Known(p.states[k.id], k.id);
  }

  lemma OthersAreNotHeard(p: PeersData, k: Packet, now: int, e: Elev, heard: int)
    requires IsElev(p.id) && IsElev(k.id) && k.id != e && Watched(p, e, heard)
    ensures Watched(p.Receive(k, now), e, heard)
  {
  }

  /** A step finds that `e` has been silent for too long, or not. */
  lemma StepWatches(p: PeersData, now: int, e: Elev, heard: int)
    requires PeersOk(p) && Watched(p, e, heard)
    ensures var q := p.Step(now);
      if now < heard + WATCHDOG_TIME then Watched(q, e, heard) else !q.watchdogs[e].active && !q.states[e].active
  {
  }

  lemma BeginWatches(m: NodeData, i: Inputs, buttons: BoolTable, e: Elev, heard: int)
    requires NodeOk(m) && e != m.peers.id && Watched(m.peers, e, heard)
    ensures var q := m.Begin(i, buttons).peers;
      if i.now < heard + WATCHDOG_TIME then Watched(q, e, heard) else !q.watchdogs[e].active && !q.states[e].active
  {
    BeginStepsPeers(m, i, buttons);
    StepWatches(BeforeStep(m, i, buttons), i.now, e, heard);
  }

  lemma FinishWatches(m: NodeData, e: Elev, heard: int)
    requires IsElev(m.peers.id) && m.pending.Some? && e != m.peers.id && Watched(m.peers, e, heard)
    ensures Watched(m.Finish().peers, e, heard)
  {
  }

  /** In action `i` node `n` hears nothing from `e`, is not restarted and takes no step at `until` or later. */
  predicate SilentAt(r: Run, i: nat, n: Elev, e: Elev, until: int) {
    && NotRestarted(r, i, n)
    && (i < |r.actions| && r.actions[i].Deliver? && r.actions[i].n == n ==> r.actions[i].packet.id != e)
    && (BeginsAt(r, i, n) ==> r.actions[i].inputs.now < until)
  }

  lemma WatchedAfter(s: System, a: Action, n: Elev, e: Elev, heard: int)
    requires NodeOk(s.nodes[n]) && e != n && Watched(s.nodes[n].peers, e, heard)
    requires !(a.Restart? && a.n == n) && (a.Deliver? && a.n == n ==> a.packet.id != e)
    requires a.Begin? && a.n == n && Enabled(s, a) ==> a.inputs.now < heard + WATCHDOG_TIME
    ensures Watched(After(s, a, n).peers, e, heard)
  {
    if Enabled(s, a) && !a.Lose? && a.n == n {
      match a
      case Begin(_, i, buttons) => BeginWatches(s.nodes[n], i, buttons, e, heard);
      case Finish(_) => FinishWatches(s.nodes[n], e, heard);
      case Deliver(_, p, now) => OthersAreNotHeard(s.nodes[n].peers, p, now, e, heard);
      case _ =>
    }
  }

  lemma WatchedNext(r: Run, k: nat, n: Elev, e: Elev, heard: int)
    requires 0 < k <= |r.actions| && e != n && Watched(r.trace[k - 1].nodes[n].peers, e, heard)
    requires SilentAt(r, k - 1, n, e, heard + WATCHDOG_TIME)
    ensures Watched(r.trace[k].nodes[n].peers, e, heard)
  {
    NodeAlwaysOk(r, k - 1, n);
    NodeNext(r, k, n);
    WatchedAfter(r.trace[k - 1], r.actions[k - 1], n, e, heard);
  }

  lemma {:induction false} StaysWatched(r: Run, j: nat, k: nat, n: Elev, e: Elev, heard: int)
    requires j <= k <= |r.actions| && e != n && Watched(r.trace[j].nodes[n].peers, e, heard)
    requires forall i: nat {:trigger SilentAt(r, i, n, e, heard + WATCHDOG_TIME)} ::
      j <= i < k ==> SilentAt(r, i, n, e, heard + WATCHDOG_TIME)
    ensures Watched(r.trace[k].nodes[n].peers, e, heard)
  {
    if j < k {
      StaysWatched(r, j, k - 1, n, e, heard);
      assert SilentAt(r, k - 1, n, e, heard + WATCHDOG_TIME);
      WatchedNext(r, k, n, e, heard);
    }
  }

  /** No hall order is confirmed to `e`. */
  ghost predicate HoldsNone(p: PeersData, e: Elev) {
    forall f: Floor, b: HallButton {:trigger p.orders[f][b]} :: !p.orders[f][b].AssignedTo(e)
  }

  /** Action `i` delivers a packet of `e` to `n` at `heard`. */
  ghost predicate HearsAt(r: Run, i: nat, n: Elev, e: Elev, heard: int) {
    && i < |r.actions| && i < |r.trace|
    && r.actions[i].Deliver? && Enabled(r.trace[i], r.actions[i])
    && r.actions[i].n == n && r.actions[i].packet.id == e && r.actions[i].now == heard
  }

  lemma HearingWatches(r: Run, i: nat, n: Elev, e: Elev, heard: int)
    requires e != n && HearsAt(r, i, n, e, heard)
    ensures Watched(r.trace[i + 1].nodes[n].peers, e, heard)
  {
    AlwaysOk(r, i);
    NodeAlwaysOk(r, i, n);
    PacketIsHeard(r.trace[i].nodes[n].peers, r.actions[i].packet, heard);
    NodeNext(r, i + 1, n);
  }

  lemma DetectsAt(r: Run, k: nat, n: Elev, e: Elev, heard: int)
    requires e != n && BeginsAt(r, k, n) && Watched(r.trace[k].nodes[n].peers, e, heard)
    ensures r.trace[k + 1].nodes[n].peers.states[e].active <==> r.actions[k].inputs.now < heard + WATCHDOG_TIME
    ensures r.actions[k].inputs.now >= heard + WATCHDOG_TIME ==> HoldsNone(r.trace[k + 1].nodes[n].peers, e)
  {
    NodeAlwaysOk(r, k, n);
    NodeNext(r, k + 1, n);
    BeginWatches(r.trace[k].nodes[n], r.actions[k].inputs, r.actions[k].buttons, e, heard);
    if r.actions[k].inputs.now >= heard + WATCHDOG_TIME {
      var q := r.trace[k + 1].nodes[n].peers;
      forall f: Floor, b: HallButton
        ensures !q.orders[f][b].AssignedTo(e)
      {
        RunsHandOver(r, k, e, f, b);
      }
    }
  }

  /** Failure detection, exactly: the last that `n` has heard of `e` was at `heard`, and `k` is its first step
      from `heard` + 600 ms on, or an earlier one. After it `e` is active if and only if the step was
      earlier; and if not, it has no hall order in the copy of `n`. */
  lemma SilenceIsDetected(r: Run, i: nat, k: nat, n: Elev, e: Elev, heard: int)
    requires e != n && HearsAt(r, i, n, e, heard) && i < k && BeginsAt(r, k, n)
    requires forall j: nat {:trigger SilentAt(r, j, n, e, heard + WATCHDOG_TIME)} ::
      i < j < k ==> SilentAt(r, j, n, e, heard + WATCHDOG_TIME)
    ensures r.trace[k + 1].nodes[n].peers.states[e].active <==> r.actions[k].inputs.now < heard + WATCHDOG_TIME
    ensures r.actions[k].inputs.now >= heard + WATCHDOG_TIME ==> HoldsNone(r.trace[k + 1].nodes[n].peers, e)
  {
    var j := i + 1;
    HearingWatches(r, i, n, e, heard);
    StaysWatched(r, j, k, n, e, heard);
    DetectsAt(r, k, n, e, heard);
  }

  // Reports

  /** The elevator's report about itself, as its node sends it. */
  function OwnReport(s: System, e: Elev): ElevatorState { s.nodes[e].peers.states[e] }

  /** `v` is no news about `e`, and if it is as new as the report `own`, it is the same. */
  predicate Behind(v: ElevatorState, own: ElevatorState) {
    v.version <= own.version && (v.active && v.version == own.version ==> v == own)
  }

  /** All that is known or under way about `e` is behind its own report. */
  ghost predicate AllBehind(s: System, e: Elev) {
    && (forall n: Elev {:trigger Behind(s.nodes[n].peers.states[e], OwnReport(s, e))} ::
          Behind(s.nodes[n].peers.states[e], OwnReport(s, e)))
    && (forall p {:trigger Behind(p.state, OwnReport(s, e))} ::
          p in s.net && p.id == e ==> Behind(p.state, OwnReport(s, e)))
  }

  /** A running car has the version of the node's last report. */
  predicate Numbered(m: NodeData) {
    if m.booted then IsElev(m.peers.id) && m.car.state.version == m.peers.states[m.peers.id].version
    else m.peers == FreshPeers(m.peers.id)
  }

  lemma BeginReports(m: NodeData, i: Inputs, buttons: BoolTable)
    requires NodeOk(m) && Numbered(m)
    ensures var q := m.Begin(i, buttons);
      Numbered(q) && q.peers.states[m.peers.id].version > m.peers.states[m.peers.id].version
  {
    BeginStepsPeers(m, i, buttons);
    StepIsReady(BeforeStep(m, i, buttons));
    DispatchKeepsReport(SensedBy(m, i, buttons), i);
  }

  lemma FinishReports(m: NodeData)
    requires NodeOk(m) && Numbered(m) && m.pending.Some?
    ensures var q := m.Finish();
      Numbered(q) && q.peers.states[m.peers.id].version > m.peers.states[m.peers.id].version
  {
  }

  predicate Later(m: NodeData, q: NodeData) {
    IsElev(m.peers.id) && Numbered(q) && q.peers.states[m.peers.id].version > m.peers.states[m.peers.id].version
  }

  /** Both sections of a step make a newer report. */
  ghost predicate StepsReport(m: NodeData)
    requires IsElev(m.peers.id)
  {
    && (forall i, buttons {:trigger m.Begin(i, buttons)} :: Later(m, m.Begin(i, buttons)))
    && (m.pending.Some? ==> Later(m, m.Finish()))
  }

  lemma NodeReportsLater(m: NodeData)
    requires NodeOk(m) && Numbered(m)
    ensures StepsReport(m)
  {
    forall i, buttons
      ensures Later(m, m.Begin(i, buttons))
    {
      BeginReports(m, i, buttons);
    }
    if m.pending.Some? {
      FinishReports(m);
    }
  }

  lemma ReportsLaterAt(r: Run, k: nat, e: Elev)
    requires k <= |r.actions| && Numbered(r.trace[k].nodes[e])
    ensures StepsReport(r.trace[k].nodes[e])
  {
    NodeAlwaysOk(r, k, e);
    NodeReportsLater(r.trace[k].nodes[e]);
  }

  lemma OwnAfter(s: System, a: Action, e: Elev)
    requires Numbered(s.nodes[e]) && StepsReport(s.nodes[e]) && !(a.Restart? && a.n == e)
    ensures var m, q := s.nodes[e], After(s, a, e);
      && Numbered(q)
      && (q.peers.states[e] == m.peers.states[e] || q.peers.states[e].version > m.peers.states[e].version)
  {
  }

  /** What another node knows is as before, forgotten, or newer and from a packet of `e`. */
  predicate Learnt(v: ElevatorState, w: ElevatorState, s: System, a: Action, e: Elev) {
    || w == v
    || (w.version == 0 && !w.active)
    || (a.Deliver? && a.packet in s.net && a.packet.id == e && w == a.packet.state && w.version > v.version)
  }

  lemma StepForgets(p: PeersData, now: int, e: Elev)
    requires IsElev(p.id)
    ensures var v, w := p.states[e], p.Step(now).states[e]; w == v || (w.version == 0 && !w.active)
  {
  }

  lemma ViewAfter(s: System, a: Action, n: Elev, e: Elev)
    requires n != e && NodeOk(s.nodes[n])
    ensures Learnt(s.nodes[n].peers.states[e], After(s, a, n).peers.states[e], s, a, e)
  {
    if Enabled(s, a) && a.Begin? && a.n == n {
      BeginStepsPeers(s.nodes[n], a.inputs, a.buttons);
      StepForgets(BeforeStep(s.nodes[n], a.inputs, a.buttons), a.inputs.now, e);
    }
  }

  lemma LearntIsBehind(v: ElevatorState, w: ElevatorState, s: System, a: Action, e: Elev, later: ElevatorState)
    requires AllBehind(s, e) && Behind(v, OwnReport(s, e)) && Learnt(v, w, s, a, e)
    requires later == OwnReport(s, e) || later.version > OwnReport(s, e).version
    ensures Behind(w, later)
  {
    assert a.Deliver? && a.packet in s.net && a.packet.id == e ==> Behind(a.packet.state, OwnReport(s, e));
  }

  lemma OwnNext(r: Run, k: nat, e: Elev)
    requires 0 < k <= |r.actions| && NotRestarted(r, k - 1, e) && Numbered(r.trace[k - 1].nodes[e])
    ensures Numbered(r.trace[k].nodes[e])
    ensures var own, later := OwnReport(r.trace[k - 1], e), OwnReport(r.trace[k], e);
      later == own || later.version > own.version
  {
    ReportsLaterAt(r, k - 1, e);
    NodeNext(r, k, e);
    OwnAfter(r.trace[k - 1], r.actions[k - 1], e);
  }

  lemma ViewNext(r: Run, k: nat, n: Elev, e: Elev)
    requires 0 < k <= |r.actions| && n != e
    ensures var v, w := r.trace[k - 1].nodes[n].peers.states[e], r.trace[k].nodes[n].peers.states[e];
      Learnt(v, w, r.trace[k - 1], r.actions[k - 1], e)
  {
    NodeAlwaysOk(r, k - 1, n);
    NodeNext(r, k, n);
    ViewAfter(r.trace[k - 1], r.actions[k - 1], n, e);
  }

  lemma BehindNext(r: Run, k: nat, n: Elev, e: Elev)
    requires 0 < k <= |r.actions| && n != e && NotRestarted(r, k - 1, e)
    requires Numbered(r.trace[k - 1].nodes[e]) && AllBehind(r.trace[k - 1], e)
    ensures Behind(r.trace[k].nodes[n].peers.states[e], OwnReport(r.trace[k], e))
  {
    var s, a := r.trace[k - 1], r.actions[k - 1];
    OwnNext(r, k, e);
    ViewNext(r, k, n, e);
    var v, w := s.nodes[n].peers.states[e], r.trace[k].nodes[n].peers.states[e];
    assert Behind(v, OwnReport(s, e));
    LearntIsBehind(v, w, s, a, e, OwnReport(r.trace[k], e));
  }

  lemma NewPacketIsOwn(r: Run, k: nat, p: Packet, e: Elev)
    requires 0 < k <= |r.actions| && p in r.trace[k].net && p !in r.trace[k - 1].net && p.id == e
    ensures p.state == OwnReport(r.trace[k], e)
  {
    StepTo(r, k);
    NodeAlwaysOk(r, k - 1, r.actions[k - 1].n);
    SendOk(r.trace[k - 1].nodes[r.actions[k - 1].n]);
  }

  lemma AllBehindNext(r: Run, k: nat, e: Elev)
    requires 0 < k <= |r.actions| && NotRestarted(r, k - 1, e)
    requires Numbered(r.trace[k - 1].nodes[e]) && AllBehind(r.trace[k - 1], e)
    ensures Numbered(r.trace[k].nodes[e]) && AllBehind(r.trace[k], e)
  {
    OwnNext(r, k, e);
    forall n: Elev
      ensures Behind(r.trace[k].nodes[n].peers.states[e], OwnReport(r.trace[k], e))
    {
      if n != e {
        BehindNext(r, k, n, e);
      }
    }
    forall p | p in r.trace[k].net && p.id == e
      ensures Behind(p.state, OwnReport(r.trace[k], e))
    {
      if p in r.trace[k - 1].net {
        assert Behind(p.state, OwnReport(r.trace[k - 1], e));
      } else {
        NewPacketIsOwn(r, k, p, e);
      }
    }
  }

  lemma StartsBehind(r: Run, e: Elev)
    ensures Numbered(r.trace[0].nodes[e]) && AllBehind(r.trace[0], e)
  {
    assert Started(r.trace[0], e);
    forall n: Elev
      ensures Behind(r.trace[0].nodes[n].peers.states[e], OwnReport(r.trace[0], e))
    {
      assert Started(r.trace[0], n);
    }
  }

  /** Until `e` restarts, nobody knows or sends anything about it that is newer than its own report, and
      what is as new is that report. */
  lemma {:induction false} ReportsAreBehind(r: Run, k: nat, e: Elev)
    requires k <= |r.actions| && StaysUp(r, 0, k, e)
    ensures Numbered(r.trace[k].nodes[e]) && AllBehind(r.trace[k], e)
  {
    if k == 0 {
      StartsBehind(r, e);
    } else {
      ReportsAreBehind(r, k - 1, e);
      assert NotRestarted(r, k - 1, e);
      AllBehindNext(r, k, e);
    }
  }

  /** What `n` knows about `e` never falls back, as long as `n` takes `e` for active. */
  lemma {:induction false} ViewsGrow(r: Run, j: nat, k: nat, n: Elev, e: Elev)
    requires j <= k <= |r.actions| && n != e
    requires forall i {:trigger r.trace[i]} :: j <= i <= k ==> r.trace[i].nodes[n].peers.states[e].active
    ensures r.trace[j].nodes[n].peers.states[e].version <= r.trace[k].nodes[n].peers.states[e].version
  {
    if j < k {
      ViewsGrow(r, j, k - 1, n, e);
      ViewNext(r, k, n, e);
    }
  }

  // News

  lemma PacketReports(r: Run, n: Elev, e: Elev, sent: nat, got: nat)
    requires n != e && Exchange(r, n, e, sent, got)
    ensures r.actions[got].packet.id == e && r.actions[got].packet.state == OwnReport(r.trace[sent], e)
  {
    NodeAlwaysOk(r, sent, e);
    SendOk(r.trace[sent].nodes[e]);
  }

  lemma DeliveryInforms(r: Run, i: nat, h: nat, n: Elev, e: Elev, heard: int)
    requires e != n && HearsAt(r, i, n, e, heard) && h == i + 1
    ensures r.trace[h].nodes[n].peers.states[e] == r.trace[i].nodes[n].peers.states[e].Merge(r.actions[i].packet.state)
  {
    NodeNext(r, h, n);
    assert r.trace[i].nodes[n].peers.id == n;
  }

  /** After an exchange the receiver knows at least what the sender has reported, in every run. */
  lemma ExchangeInforms(r: Run, n: Elev, e: Elev, sent: nat, got: nat, h: nat)
    requires n != e && Exchange(r, n, e, sent, got) && h == got + 1
    ensures OwnReport(r.trace[sent], e).version <= r.trace[h].nodes[n].peers.states[e].version
    ensures r.trace[h].nodes[n].peers.states[e].active
  {
    PacketReports(r, n, e, sent, got);
    DeliveryInforms(r, got, h, n, e, r.actions[got].now);
    HearingWatches(r, got, n, e, r.actions[got].now);
  }

  /** So if the sender has reported nothing newer meanwhile, the receiver knows its very report. */
  lemma ExchangeReports(r: Run, n: Elev, e: Elev, sent: nat, got: nat, h: nat)
    requires n != e && Exchange(r, n, e, sent, got) && h == got + 1 && StaysUp(r, 0, h, e)
    requires OwnReport(r.trace[h], e).version == OwnReport(r.trace[sent], e).version
    ensures r.trace[h].nodes[n].peers.states[e] == OwnReport(r.trace[h], e)
  {
    ExchangeInforms(r, n, e, sent, got, h);
    ReportsAreBehind(r, h, e);
    assert Behind(r.trace[h].nodes[n].peers.states[e], OwnReport(r.trace[h], e));
  }
}
