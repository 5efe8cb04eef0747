/** Orphans: hall orders that a node has confirmed to an elevator which it takes for inactive. No
    watchdog runs for such an elevator, so nothing hands its orders over. */
module Orphans {
  import opened Allocator
  import opened AllocatorProperties
  import opened Config
  import opened Control
  import opened ElevatorStates
  import opened Gossip
  import opened GossipLimit
  import opened Nodes
  import opened Orders
  import opened RunInvariants
  import opened RunSafety
  import opened Systems
  import opened Timers

  predicate Orphaned(p: PeersData, f: Floor, b: HallButton) {
    var o := p.orders[f][b];
    o.status.Confirmed? && IsElev(o.assignee) && !p.states[o.assignee].active
  }

  // One action

  /** The node's own timer for the order has run out, and it does not see a single elevator only, in
      which case the order would go back to its assignee. */
  predicate Rescues(p: PeersData, now: int, f: Floor, b: HallButton) {
    p.timers[f][b].Expired(now) && ActiveCount(p.states) != 1
  }

  /** The node holds the order after the packet, and neither knew its elevator nor hears from it now. */
  predicate Orphans(p: PeersData, k: Packet, f: Floor, b: HallButton) {
    var o := p.orders[f][b].Merge(k.orders[f][b]);
    o.status.Confirmed? && IsElev(o.assignee) && o.assignee != k.id && !p.states[o.assignee].active
  }

  lemma StepOrphans(p: PeersData, now: int, f: Floor, b: HallButton)
    requires PeersOk(p) && p.states[p.id].active
    ensures Orphaned(p.Step(now), f, b) <==> Orphaned(p, f, b) && !Rescues(p, now, f, b)
  {
    StepIsReady(p);
    assert Sound(p.orders[f][b]);
    var c := Cell(p.orders[f][b], p.timers[f][b], true);
    assert p.Step(now).orders[f][b] == p.StepCell(now, f, b).order;
    if Orphaned(p, f, b) {
      OrphanStays(p.StepView(), p.watchdogs, f, now, c, p.orders[f][b].assignee);
    } else {
      StepAvoidsInactive(p.StepView(), p.watchdogs, f, now, c);
    }
  }

  lemma PressesOrphanNone(m: NodeData, i: Inputs, buttons: BoolTable, f: Floor, b: HallButton)
    requires NodeOk(m) && FreshUntilBooted(m)
    ensures Orphaned(BeforeStep(m, i, buttons), f, b) <==> Orphaned(m.peers, f, b)
  {
  }

  lemma BeginOrphans(m: NodeData, i: Inputs, buttons: BoolTable, f: Floor, b: HallButton)
    requires NodeOk(m) && FreshUntilBooted(m)
    ensures Orphaned(m.Begin(i, buttons).peers, f, b) <==>
      Orphaned(m.peers, f, b) && !Rescues(BeforeStep(m, i, buttons), i.now, f, b)
  {
    PressesOrphanNone(m, i, buttons, f, b);
    BeginStepsPeers(m, i, buttons);
    StepOrphans(BeforeStep(m, i, buttons), i.now, f, b);
  }

  /** Only orders of the node itself, which is active, are cleared. */
  lemma ClearingOrphans(p: PeersData, floor: int, k: Flags, f: Floor, b: HallButton)
    requires IsElev(p.id) && p.states[p.id].active
    ensures Orphaned(p.ClearOrders(floor, k), f, b) <==> Orphaned(p, f, b)
  {
    assert p.ClearedOrders(floor, k)[f][b] ==
      if p.Clears(floor, k, f, b) then p.orders[f][b].AfterClear() else p.orders[f][b];
  }

  lemma FinishOrphans(m: NodeData, f: Floor, b: HallButton)
    requires NodeOk(m) && m.pending.Some?
    ensures Orphaned(m.Finish().peers, f, b) <==> Orphaned(m.peers, f, b)
  {
    if m.pending.value != NO_CLEAR {
      ClearingOrphans(m.peers, m.car.state.floor, m.pending.value, f, b);
    }
  }

  lemma ReceiveOrphans(p: PeersData, k: Packet, now: int, f: Floor, b: HallButton)
    requires PeersOk(p) && PacketOk(k) && k.id != p.id
    ensures Orphaned(p.Receive(k, now), f, b) <==> Orphans(p, k, f, b)
  {
    assert Known(p.states[k.id], k.id);
    assert p.JoinedOrders(k)[f][b] == p.orders[f][b].Merge(k.orders[f][b]);
  }

  /** Whether the order at `f`, `b` is orphaned in the copy of `n` after an action, exactly. */
  ghost predicate OrphanedAfter(s: System, a: Action, n: Elev, f: Floor, b: HallButton) {
    var m := s.nodes[n];
    if !Enabled(s, a) || a.Lose? || a.n != n then Orphaned(m.peers, f, b)
    else match a
      case Begin(_, i, buttons) =>
        Orphaned(m.peers, f, b) && !Rescues(BeforeStep(m, i, buttons), i.now, f, b)
      case Deliver(_, k, _) => if k.id == n then Orphaned(m.peers, f, b) else Orphans(m.peers, k, f, b)
      case Restart(_, _, _, _) => false
      case _ => Orphaned(m.peers, f, b)
  }

  lemma AfterOrphans(s: System, a: Action, n: Elev, f: Floor, b: HallButton)
    requires NodeOk(s.nodes[n]) && FreshUntilBooted(s.nodes[n])
    requires a.Deliver? && a.packet in s.net ==> PacketOk(a.packet)
    ensures Orphaned(After(s, a, n).peers, f, b) <==> OrphanedAfter(s, a, n, f, b)
  {
    if Enabled(s, a) && !a.Lose? && a.n == n {
      match a
      case Begin(_, i, buttons) => BeginOrphans(s.nodes[n], i, buttons, f, b);
      case Finish(_) => FinishOrphans(s.nodes[n], f, b);
      case Deliver(_, k, now) =>
        if k.id != n {
          ReceiveOrphans(s.nodes[n].peers, k, now, f, b);
        }
      case _ =>
    }
  }

  // Runs

  lemma SentIsOk(r: Run, k: nat)
    requires k < |r.actions| && r.actions[k].Deliver? && r.actions[k].packet in r.trace[k].net
    ensures PacketOk(r.actions[k].packet)
  {
    AlwaysOk(r, k);
  }

  /** From one moment of a run to the next. */
  lemma OrphanedNext(r: Run, k: nat, n: Elev, f: Floor, b: HallButton)
    requires 0 < k <= |r.actions|
    ensures Orphaned(r.trace[k].nodes[n].peers, f, b) <==>
      OrphanedAfter(r.trace[k - 1], r.actions[k - 1], n, f, b)
  {
    if r.actions[k - 1].Deliver? && r.actions[k - 1].packet in r.trace[k - 1].net {
      SentIsOk(r, k - 1);
    }
    NodeAlwaysOk(r, k - 1, n);
    UnbootedIsFresh(r, k - 1, n);
    NodeNext(r, k, n);
    AfterOrphans(r.trace[k - 1], r.actions[k - 1], n, f, b);
  }

  /** Action `i` delivers an orphan to `n`. */
  ghost predicate OrphansAt(r: Run, i: nat, n: Elev, f: Floor, b: HallButton) {
    && i < |r.actions| && i < |r.trace|
    && r.actions[i].Deliver? && r.actions[i].n == n && Enabled(r.trace[i], r.actions[i])
    && r.actions[i].packet.id != n && Orphans(r.trace[i].nodes[n].peers, r.actions[i].packet, f, b)
  }

  ghost predicate NoneOrphans(r: Run, k: nat, n: Elev, f: Floor, b: HallButton) {
    k == 0 || (NoneOrphans(r, k - 1, n, f, b) && !OrphansAt(r, k - 1, n, f, b))
  }

  ghost predicate NoneOrphaned(r: Run, k: nat, n: Elev, f: Floor, b: HallButton)
    requires k <= |r.actions|
  {
    !Orphaned(r.trace[k].nodes[n].peers, f, b) && (k > 0 ==> NoneOrphaned(r, k - 1, n, f, b))
  }

  lemma StartOrphansNone(r: Run, n: Elev, f: Floor, b: HallButton)
    ensures !Orphaned(r.trace[0].nodes[n].peers, f, b)
  {
    assert Started(r.trace[0], n);
  }

  /** No order is ever orphaned in the copy of `n`, whatever fires, fails or restarts, if and only if no
      packet orphans it. */
  lemma {:induction false} OrphansComeByPacket(r: Run, k: nat, n: Elev, f: Floor, b: HallButton)
    requires k <= |r.actions|
    ensures NoneOrphaned(r, k, n, f, b) <==> NoneOrphans(r, k, n, f, b)
  {
    if k == 0 {
      StartOrphansNone(r, n, f, b);
    } else {
      OrphansComeByPacket(r, k - 1, n, f, b);
      OrphanedNext(r, k, n, f, b);
    }
  }

  // How long they last

  /** Orphaned, and not timed by the node itself either. */
  predicate Stuck(p: PeersData, f: Floor, b: HallButton) { Orphaned(p, f, b) && !p.timers[f][b].active }

  lemma StepSticks(p: PeersData, now: int, f: Floor, b: HallButton)
    requires PeersOk(p) && p.states[p.id].active && Orphaned(p, f, b)
    ensures Orphaned(p.Step(now), f, b) ==> Stuck(p.Step(now), f, b)
    ensures !p.timers[f][b].active ==> p.Step(now).orders[f][b] == p.orders[f][b]
  {
    StepIsReady(p);
    StepOk(p, now);
    var c := Cell(p.orders[f][b], p.timers[f][b], true);
    assert p.Step(now).orders[f][b] == p.StepCell(now, f, b).order;
    assert p.Step(now).timers[f][b] == p.StepCell(now, f, b).timer;
    TimerAgrees(p.StepView(), p.watchdogs, f, now, c);
    OrphanStays(p.StepView(), p.watchdogs, f, now, c, p.orders[f][b].assignee);
  }

  lemma BeforeStepIs(m: NodeData, i: Inputs, buttons: BoolTable, f: Floor, b: HallButton)
    requires IsElev(m.peers.id) && m.peers.orders[f][b].status.Confirmed?
    ensures BeforeStep(m, i, buttons).orders[f][b] == m.peers.orders[f][b]
    ensures BeforeStep(m, i, buttons).timers == m.peers.timers
  {
  }

  /** The first step that leaves an orphan where it is leaves it stuck, and from then on every step
      leaves it as it is. */
  lemma BeginSticks(m: NodeData, i: Inputs, buttons: BoolTable, f: Floor, b: HallButton)
    requires NodeOk(m) && m.booted && Orphaned(m.peers, f, b)
    ensures !Rescues(BeforeStep(m, i, buttons), i.now, f, b) ==> Stuck(m.Begin(i, buttons).peers, f, b)
    ensures Stuck(m.peers, f, b) ==> m.Begin(i, buttons).peers.orders[f][b] == m.peers.orders[f][b]
  {
    PressesOrphanNone(m, i, buttons, f, b);
    BeginOrphans(m, i, buttons, f, b);
    BeginStepsPeers(m, i, buttons);
    BeforeStepIs(m, i, buttons, f, b);
    StepSticks(BeforeStep(m, i, buttons), i.now, f, b);
  }

  lemma ClearingSticks(m: NodeData, f: Floor, b: HallButton)
    requires NodeOk(m) && m.pending.Some? && Stuck(m.peers, f, b)
    ensures Stuck(m.Finish().peers, f, b) && m.Finish().peers.orders[f][b] == m.peers.orders[f][b]
  {
    FinishOrphans(m, f, b);
    var p, floor, k := m.peers, m.car.state.floor, m.pending.value;
    assert !p.Clears(floor, k, f, b);
    assert p.ClearedOrders(floor, k)[f][b] == p.orders[f][b] && p.ClearedTimers(floor, k)[f][b] == p.timers[f][b];
  }

  /** A running node has the stuck order `o`. */
  predicate StuckOn(m: NodeData, f: Floor, b: HallButton, o: Order) {
    m.booted && Stuck(m.peers, f, b) && m.peers.orders[f][b] == o
  }

  /** Neither section of a step changes it. */
  ghost predicate StepsStick(m: NodeData, f: Floor, b: HallButton, o: Order)
    requires IsElev(m.peers.id)
  {
    && (forall i, buttons {:trigger m.Begin(i, buttons)} :: StuckOn(m.Begin(i, buttons), f, b, o))
    && (m.pending.Some? ==> StuckOn(m.Finish(), f, b, o))
  }

  lemma NodeSticks(m: NodeData, f: Floor, b: HallButton, o: Order)
    requires NodeOk(m) && StuckOn(m, f, b, o)
    ensures StepsStick(m, f, b, o)
  {
    forall i, buttons
      ensures StuckOn(m.Begin(i, buttons), f, b, o)
    {
      BeginSticks(m, i, buttons, f, b);
    }
    if m.pending.Some? {
      ClearingSticks(m, f, b);
    }
  }

  lemma ApplySticks(s: System, a: Action, t: System, n: Elev, f: Floor, b: HallButton, o: Order)
    requires t == Apply(s, a) && !((a.Deliver? || a.Restart?) && a.n == n)
    requires StuckOn(s.nodes[n], f, b, o) && StepsStick(s.nodes[n], f, b, o)
    ensures StuckOn(t.nodes[n], f, b, o)
  {
  }

  /** Action `i` neither delivers anything to `n` nor restarts it. */
  predicate Undisturbed(r: Run, i: nat, n: Elev) {
    i < |r.actions| ==> !((r.actions[i].Deliver? || r.actions[i].Restart?) && r.actions[i].n == n)
  }

  lemma NodeSticksAt(r: Run, k: nat, n: Elev, f: Floor, b: HallButton, o: Order)
    requires k <= |r.actions| && StuckOn(r.trace[k].nodes[n], f, b, o)
    ensures StepsStick(r.trace[k].nodes[n], f, b, o)
  {
    NodeAlwaysOk(r, k, n);
    NodeSticks(r.trace[k].nodes[n], f, b, o);
  }

  lemma SticksNext(r: Run, k: nat, n: Elev, f: Floor, b: HallButton, o: Order)
    requires 0 < k <= |r.actions| && Undisturbed(r, k - 1, n) && StuckOn(r.trace[k - 1].nodes[n], f, b, o)
    ensures StuckOn(r.trace[k].nodes[n], f, b, o)
  {
    NodeSticksAt(r, k - 1, n, f, b, o);
    StepTo(r, k);
    ApplySticks(r.trace[k - 1], r.actions[k - 1], r.trace[k], n, f, b, o);
  }

  /** A stuck order is stuck, and the same, until a packet or a restart comes: no timer or watchdog ever
      moves it. */
  lemma {:induction false} OrphansLast(r: Run, j: nat, k: nat, n: Elev, f: Floor, b: HallButton, o: Order)
    requires j <= k <= |r.actions| && StuckOn(r.trace[j].nodes[n], f, b, o)
    requires forall i: nat {:trigger Undisturbed(r, i, n)} :: j <= i < k ==> Undisturbed(r, i, n)
    ensures StuckOn(r.trace[k].nodes[n], f, b, o)
  {
    if j < k {
      OrphansLast(r, j, k - 1, n, f, b, o);
      assert Undisturbed(r, k - 1, n);
      SticksNext(r, k, n, f, b, o);
    }
  }

  // A history

  /** The order is confirmed to `e` in the copy of `n`. */
  ghost predicate Holds(s: System, n: Elev, e: Elev, f: Floor, b: HallButton) {
    s.nodes[n].booted && Copy(s, n, f, b).AssignedTo(e)
  }

  ghost predicate Fresh(s: System, n: Elev) { !s.nodes[n].booted && s.nodes[n].peers == FreshPeers(n) }

  /** Node `n` runs and has heard of no other. */
  ghost predicate Newcomer(s: System, n: Elev, f: Floor, b: HallButton) {
    && s.nodes[n].booted && Copy(s, n, f, b) == BLANK
    && forall e: Elev :: e != n ==> !s.nodes[n].peers.states[e].active
  }

  lemma LonerConfirms(p: PeersData, f: Floor, b: HallButton)
    requires PeersOk(p) && p.states[p.id].active
    requires forall e: Elev :: e != p.id ==> !p.states[e].active
    requires p.orders[f][b] == Order(1, Requested, -1, {p.id}) && p.timers[f][b] == OFF
    ensures p.StepCell(0, f, b).order.AssignedTo(p.id)
  {
    StepIsReady(p);
    var w := Checked(p.StepView(), p.watchdogs, 0);
    CheckedIsReady(p.StepView(), p.watchdogs, 0, ELEVS);
    CheapestIsActive(w, f);
    RequestGoesToHead(p.StepView(), p.watchdogs, f, 0, Cell(p.orders[f][b], p.timers[f][b], true));
  }

  /** A node that is alone confirms a call to itself. */
  lemma LonerServes(m: NodeData, f: Floor, b: HallButton)
    requires NodeOk(m) && m.peers == FreshPeers(m.peers.id)
    ensures m.Begin(NOTHING_READ, Press(f, b)).peers.orders[f][b].AssignedTo(m.peers.id)
  {
    BeginStepsPeers(m, NOTHING_READ, Press(f, b));
    var p := BeforeStep(m, NOTHING_READ, Press(f, b));
    assert p.orders[f][b] == Order(1, Requested, -1, {p.id}) && p.timers[f][b] == OFF;
    LonerConfirms(p, f, b);
    assert p.Step(0).orders[f][b] == p.StepCell(0, f, b).order;
  }

  lemma BootKnowsNobody(m: NodeData)
    requires NodeOk(m) && m.peers == FreshPeers(m.peers.id)
    ensures forall e: Elev :: e != m.peers.id ==>
      !m.Begin(NOTHING_READ, NoRequests()).peers.states[e].active
  {
    BeginStepsPeers(m, NOTHING_READ, NoRequests());
    forall e: Elev | e != m.peers.id
      ensures !m.Begin(NOTHING_READ, NoRequests()).peers.states[e].active
    {
      assert BeforeStep(m, NOTHING_READ, NoRequests()).states[e] == m.peers.states[e];
    }
  }

  lemma BootsAsNewcomer(s: System, n: Elev, f: Floor, b: HallButton)
    requires NodeOk(s.nodes[n]) && Fresh(s, n)
    ensures Newcomer(Apply(s, Boot(n)), n, f, b)
    ensures forall m: Elev :: m != n ==> Apply(s, Boot(n)).nodes[m] == s.nodes[m]
    ensures Apply(s, Boot(n)).net == s.net
  {
    BootChanges(s, n);
    BootKeepsCopy(s.nodes[n], f, b);
    BootKnowsNobody(s.nodes[n]);
  }

  /** A packet about an order of `e`, from somebody else, orphans it at a newcomer. */
  lemma NewcomerIsTold(p: PeersData, k: Packet, e: Elev, f: Floor, b: HallButton)
    requires IsElev(p.id) && IsElev(k.id) && k.id != p.id && p.id != e && p.orders[f][b] == BLANK
    requires k.orders[f][b].AssignedTo(e) && !p.states[e].active
    ensures p.Receive(k, 0).orders[f][b].AssignedTo(e)
    ensures k.id != e ==> Orphaned(p.Receive(k, 0), f, b)
  {
    assert p.JoinedOrders(k)[f][b] == p.orders[f][b].Merge(k.orders[f][b]);
  }

  /** `j` sends, `i` starts, and `i` receives. */
  ghost function Sent(q: Run, j: Elev, i: Elev): Run { Then(Then(q, Action.Send(j)), Boot(i)) }

  ghost function Passed(q: Run, j: Elev, i: Elev): Run {
    Then(Sent(q, j, i), Deliver(i, Last(q).nodes[j].peers.Send(), 0))
  }

  lemma SendingChanges(q: Run, j: Elev)
    requires Last(q).nodes[j].booted
    ensures var p := Last(q).nodes[j].peers.Send();
      Last(Then(q, Action.Send(j))) == Last(q).(net := Last(q).net + {p}) && p.id == j
  {
    RunningCanAct(q, j);
  }

  lemma BootingChanges(q: Run, i: Elev, f: Floor, b: HallButton)
    requires Fresh(Last(q), i)
    ensures Newcomer(Last(Then(q, Boot(i))), i, f, b)
    ensures forall m: Elev :: m != i ==> Last(Then(q, Boot(i))).nodes[m] == Last(q).nodes[m]
    ensures Last(Then(q, Boot(i))).net == Last(q).net
  {
    NodeAlwaysOk(q, |q.actions|, i);
    BootsAsNewcomer(Last(q), i, f, b);
  }

  lemma SentReaches(q: Run, j: Elev, i: Elev, e: Elev, f: Floor, b: HallButton)
    requires j != i && Holds(Last(q), j, e, f, b) && Fresh(Last(q), i)
    ensures var s, p := Last(Sent(q, j, i)), Last(q).nodes[j].peers.Send();
      && Newcomer(s, i, f, b) && p in s.net && p.id == j && p.orders[f][b].AssignedTo(e)
      && forall m: Elev :: m != i ==> s.nodes[m] == Last(q).nodes[m]
  {
    SendingChanges(q, j);
    BootingChanges(Then(q, Action.Send(j)), i, f, b);
  }

  lemma DeliveryChanges(q: Run, i: Elev, k: Packet)
    requires Last(q).nodes[i].booted && k in Last(q).net
    ensures var s := Last(Then(q, Deliver(i, k, 0)));
      && IsElev(k.id) && Last(q).nodes[i].peers.id == i
      && s.nodes[i].booted && s.nodes[i].peers == Last(q).nodes[i].peers.Receive(k, 0)
      && forall m: Elev :: m != i ==> s.nodes[m] == Last(q).nodes[m]
  {
    RunningCanAct(q, i);
  }

  lemma PassesOn(q: Run, j: Elev, i: Elev, e: Elev, f: Floor, b: HallButton)
    requires i != j && i != e && Holds(Last(q), j, e, f, b) && Fresh(Last(q), i)
    ensures var s := Last(Passed(q, j, i));
      && Holds(s, i, e, f, b) && (j != e ==> Orphaned(s.nodes[i].peers, f, b))
      && forall m: Elev :: m != i ==> s.nodes[m] == Last(q).nodes[m]
  {
    SentReaches(q, j, i, e, f, b);
    var u, p := Sent(q, j, i), Last(q).nodes[j].peers.Send();
    DeliveryChanges(u, i, p);
    NewcomerIsTold(Last(u).nodes[i].peers, p, e, f, b);
  }

  lemma StartsFresh(r: Run, n: Elev)
    requires r.actions == []
    ensures Fresh(Last(r), n) && NodeOk(Last(r).nodes[n]) && Last(r).nodes[n].pending.None?
  {
    NodeAlwaysOk(r, 0, n);
    assert Started(r.trace[0], n);
  }

  lemma PressingChanges(s: System, e: Elev, f: Floor, b: HallButton)
    requires NodeOk(s.nodes[e]) && s.nodes[e].pending.None?
    ensures Apply(s, Pressing(e, f, b)) == s.SetNode(e, s.nodes[e].Begin(NOTHING_READ, Press(f, b)))
  {
  }

  lemma CallIsServed(r: Run, e: Elev, f: Floor, b: HallButton)
    requires r.actions == []
    ensures Holds(Last(Called(r, e, f, b)), e, e, f, b)
    ensures forall m: Elev :: m != e ==> Last(Called(r, e, f, b)).nodes[m] == Last(r).nodes[m]
  {
    StartsFresh(r, e);
    PressingChanges(Last(r), e, f, b);
    LonerServes(Last(r).nodes[e], f, b);
  }

  lemma Hearsay(q: Run, u: Run, e: Elev, i: Elev, n: Elev, f: Floor, b: HallButton)
    requires e != i && i != n && n != e && u == Passed(q, e, i)
    requires Holds(Last(q), e, e, f, b) && Fresh(Last(q), i) && Fresh(Last(q), n)
    ensures Orphaned(Last(Passed(u, i, n)).nodes[n].peers, f, b)
  {
    PassesOn(q, e, i, e, f, b);
    assert Fresh(Last(u), n);
    PassesOn(u, i, n, e, f, b);
  }

  /** From the start of any system with three nodes: `e` serves a call and tells `i`, which tells `n`,
      which has not heard of `e` yet. */
  lemma HearsayOrphans(r: Run, e: Elev, i: Elev, n: Elev, f: Floor, b: HallButton)
    requires r.actions == [] && e != i && i != n && n != e
    ensures Orphaned(Last(Passed(Passed(Called(r, e, f, b), e, i), i, n)).nodes[n].peers, f, b)
  {
    var q := Called(r, e, f, b);
    CallIsServed(r, e, f, b);
    StartsFresh(r, i);
    StartsFresh(r, n);
    Hearsay(q, Passed(q, e, i), e, i, n, f, b);
  }
}
