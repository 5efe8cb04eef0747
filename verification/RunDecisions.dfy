/** The decisions of the allocator, and what becomes of button presses, in whole runs. */
module RunDecisions {
  import opened Allocator
  import opened AllocatorProperties
  import opened Config
  import opened Control
  import opened Costs
  import opened Decisions
  import opened Faults
  import opened Nodes
  import opened Orders
  import opened RunInvariants
  import opened RunSafety
  import opened RunTimers
  import opened Systems
  import opened Timers

  // Steps

  /** What a node goes by after its step. */
  function ViewOf(p: PeersData): View { View(p.id, p.numElevs, p.states) }

  lemma StepIs(p: PeersData, now: int, f: Floor, b: HallButton)
    requires IsElev(p.id)
    ensures p.Step(now).orders[f][b] == p.StepCell(now, f, b).order
    ensures p.Step(now).timers[f][b] == p.StepCell(now, f, b).timer
    ensures ViewOf(p.Step(now)) == Checked(p.StepView(), p.watchdogs, now)
  {
  }

  /** The elevator loses its orders in the step after which `q` is left. */
  ghost predicate LosesIn(p: PeersData, q: PeersData, now: int, e: Elev) {
    p.watchdogs[e].Expired(now) || e in Faulty(q.states)
  }

  /** The outcome for an order that is confirmed to `e`, with `h` the cheapest elevator. */
  ghost predicate ConfirmedGoes(p: PeersData, q: PeersData, now: int, f: Floor, b: HallButton, e: Elev, h: Elev)
    requires IsElev(p.id)
  {
    var o, u := p.orders[f][b], q.orders[f][b];
    var taken := LosesIn(p, q, now, e);
    if p.timers[f][b].Expired(now) && !(taken && h == p.id) then
      Reassigned(ViewOf(q), f, if taken then h else e, o, u) && (!taken ==> u.version == o.version + 1)
    else if taken then u.AssignedTo(h) && u.version > o.version && u.mask == o.mask
    else u == o
  }

  lemma StepConfirmed(p: PeersData, now: int, f: Floor, b: HallButton, e: Elev, h: Elev)
    requires PeersOk(p) && p.states[p.id].active && p.orders[f][b].AssignedTo(e)
    requires var q := p.Step(now); Cheapest(q.states, f, h) && (LosesIn(p, q, now, e) ==> h !in Faulty(q.states))
    ensures ConfirmedGoes(p, p.Step(now), now, f, b, e, h)
  {
    StepIsReady(p);
    StepIs(p, now, f, b);
    ConfirmedOutcome(p.StepView(), p.watchdogs, f, now, Cell(p.orders[f][b], p.timers[f][b], true), e, h);
  }

  /** The outcome for a request. */
  ghost predicate RequestGoes(p: PeersData, q: PeersData, now: int, f: Floor, b: HallButton, h: Elev)
    requires IsElev(p.id)
  {
    var o, u, seen := p.orders[f][b], q.orders[f][b], p.orders[f][b].mask + {p.id};
    if !SeenByAll(ViewOf(q), o) then u == o.(mask := seen)
    else if p.timers[f][b].Expired(now) && h != p.id then
      Reassigned(ViewOf(q), f, h, Order(o.version + 1, Confirmed, h, seen), u)
    else u == Order(o.version + 1, Confirmed, h, seen)
  }

  lemma StepRequested(p: PeersData, now: int, f: Floor, b: HallButton, h: Elev)
    requires PeersOk(p) && p.states[p.id].active && p.orders[f][b].status.Requested?
    requires Cheapest(p.Step(now).states, f, h)
    ensures RequestGoes(p, p.Step(now), now, f, b, h)
  {
    StepIsReady(p);
    StepIs(p, now, f, b);
    RequestOutcome(p.StepView(), p.watchdogs, f, now, Cell(p.orders[f][b], p.timers[f][b], true), h);
  }

  lemma StepResting(p: PeersData, now: int, f: Floor, b: HallButton)
    requires IsElev(p.id) && (p.orders[f][b].status.Clear? || p.orders[f][b].status.NoOrder?)
    ensures p.Step(now).orders[f][b] ==
      if p.orders[f][b].status.Clear? then p.orders[f][b].(version := p.orders[f][b].version + 1, status := NoOrder)
      else p.orders[f][b]
  {
    StepIs(p, now, f, b);
    RestOutcome(p.StepView(), p.watchdogs, f, now, Cell(p.orders[f][b], p.timers[f][b], true));
  }

  // Runs

  /** The peers of `n` as its step `k` finds them: after the presses. */
  function PeersBefore(r: Run, k: nat, n: Elev): PeersData
    requires BeginsAt(r, k, n)
  {
    BeforeStep(r.trace[k].nodes[n], r.actions[k].inputs, r.actions[k].buttons)
  }

  function PeersAfter(r: Run, k: nat, n: Elev): PeersData
    requires BeginsAt(r, k, n)
  {
    r.trace[k + 1].nodes[n].peers
  }

  lemma StepInRun(r: Run, k: nat, n: Elev)
    requires BeginsAt(r, k, n)
    ensures var p := PeersBefore(r, k, n);
      && PeersOk(p) && p.states[p.id].active && p.id == n
      && PeersAfter(r, k, n) == p.Step(r.actions[k].inputs.now)
  {
    NodeAlwaysOk(r, k, n);
    BeginStepsPeers(r.trace[k].nodes[n], r.actions[k].inputs, r.actions[k].buttons);
    NodeNext(r, k + 1, n);
  }

  /** What every step of every run makes of a confirmed hall order. */
  lemma RunsDecideConfirmed(r: Run, k: nat, n: Elev, f: Floor, b: HallButton, e: Elev, h: Elev)
    requires BeginsAt(r, k, n) && PeersBefore(r, k, n).orders[f][b].AssignedTo(e)
    requires var q, now := PeersAfter(r, k, n), r.actions[k].inputs.now;
      Cheapest(q.states, f, h) && (LosesIn(PeersBefore(r, k, n), q, now, e) ==> h !in Faulty(q.states))
    ensures ConfirmedGoes(PeersBefore(r, k, n), PeersAfter(r, k, n), r.actions[k].inputs.now, f, b, e, h)
  {
    StepInRun(r, k, n);
    StepConfirmed(PeersBefore(r, k, n), r.actions[k].inputs.now, f, b, e, h);
  }

  /** And of a request. */
  lemma RunsDecideRequest(r: Run, k: nat, n: Elev, f: Floor, b: HallButton, h: Elev)
    requires BeginsAt(r, k, n) && PeersBefore(r, k, n).orders[f][b].status.Requested?
    requires Cheapest(PeersAfter(r, k, n).states, f, h)
    ensures RequestGoes(PeersBefore(r, k, n), PeersAfter(r, k, n), r.actions[k].inputs.now, f, b, h)
  {
    StepInRun(r, k, n);
    StepRequested(PeersBefore(r, k, n), r.actions[k].inputs.now, f, b, h);
  }

  lemma CheapestAfter(p: PeersData, now: int, f: Floor) returns (h: Elev)
    requires PeersOk(p) && p.states[p.id].active
    ensures Cheapest(p.Step(now).states, f, h)
  {
    StepIsReady(p);
    var w := Checked(p.StepView(), p.watchdogs, now);
    CheckedIsReady(p.StepView(), p.watchdogs, now, ELEVS);
    CheapestIsActive(w, f);
    h := SortedCosts(w.states, f)[0].1;
    HeadIsCheapest(w, f, h);
  }

  // Orders that take too long

  lemma StepPassesOn(p: PeersData, now: int, f: Floor, b: HallButton)
    requires PeersOk(p) && p.states[p.id].active && !p.states[p.id].fault
    requires p.orders[f][b].AssignedTo(p.id) && p.timers[f][b].Expired(now)
    ensures var q := p.Step(now);
      && Reassigned(ViewOf(q), f, p.id, p.orders[f][b], q.orders[f][b])
      && q.orders[f][b].version == p.orders[f][b].version + 1
  {
    StepIsReady(p);
    var h := CheapestAfter(p, now, f);
    StepConfirmed(p, now, f, b, p.id, h);
  }

  /** In every run a working node passes on an order that it has had for too long, usable or not: in the
      next version, to the cheapest of the others that may take it over; and it keeps it only if there
      is none. */
  lemma RunsPassOnLate(r: Run, k: nat, n: Elev, f: Floor, b: HallButton)
    requires BeginsAt(r, k, n)
    requires var m := r.trace[k].nodes[n];
      && m.peers.orders[f][b].AssignedTo(n) && m.peers.timers[f][b].Expired(r.actions[k].inputs.now)
      && !m.car.state.fault
    ensures var o, q := r.trace[k].nodes[n].peers.orders[f][b], PeersAfter(r, k, n);
      Reassigned(ViewOf(q), f, n, o, q.orders[f][b]) && q.orders[f][b].version == o.version + 1
  {
    StepInRun(r, k, n);
    BeforeStepKeeps(r.trace[k].nodes[n], r.actions[k].inputs, r.actions[k].buttons, f, b);
    StepPassesOn(PeersBefore(r, k, n), r.actions[k].inputs.now, f, b);
  }

  /** The timer of an order that is the node's after its step. */
  ghost predicate TimerGoes(p: PeersData, q: PeersData, now: int, f: Floor, b: HallButton)
    requires IsElev(p.id) && q.id == p.id
  {
    q.timers[f][b] ==
      if q.orders[f][b] != p.orders[f][b] then Limited(ViewOf(q), now, Timer(true, now + REASSIGN_TIME))
      else if p.timers[f][b].active then Limited(ViewOf(q), now, p.timers[f][b])
      else Timer(true, now + REASSIGN_TIME)
  }

  lemma StepTimes(p: PeersData, now: int, f: Floor, b: HallButton)
    requires PeersOk(p) && p.states[p.id].active && p.Step(now).orders[f][b].AssignedTo(p.id)
    ensures TimerGoes(p, p.Step(now), now, f, b)
  {
    StepIsReady(p);
    StepIs(p, now, f, b);
    assert Sound(p.orders[f][b]);
    TimerOutcome(p.StepView(), p.watchdogs, f, now, Cell(p.orders[f][b], p.timers[f][b], true));
  }

  lemma RunsTimeOrders(r: Run, k: nat, n: Elev, f: Floor, b: HallButton)
    requires BeginsAt(r, k, n) && PeersAfter(r, k, n).orders[f][b].AssignedTo(n)
    ensures TimerGoes(PeersBefore(r, k, n), PeersAfter(r, k, n), r.actions[k].inputs.now, f, b)
  {
    StepInRun(r, k, n);
    StepTimes(PeersBefore(r, k, n), r.actions[k].inputs.now, f, b);
  }

  // Presses

  /** A press makes a blank or cleared order a new request, which this node alone has seen. */
  lemma PressRequests(m: NodeData, i: Inputs, buttons: BoolTable, f: Floor, b: HallButton)
    requires IsElev(m.peers.id)
    ensures var o, p := m.peers.orders[f][b], BeforeStep(m, i, buttons).orders[f][b];
      p == if buttons[f][b] && (o.status.NoOrder? || o.status.Clear?) then
             Order(o.version + 1, Requested, o.assignee, {m.peers.id})
           else o
  {
  }

  /** No other elevator is active in the eyes of the node. */
  ghost predicate Alone(q: PeersData) {
    forall e: Elev :: q.states[e].active ==> e == q.id
  }

  lemma SeenAlone(q: PeersData, o: Order)
    requires o.mask == {q.id}
    ensures SeenByAll(ViewOf(q), o) <==> Alone(q)
  {
    if SeenByAll(ViewOf(q), o) {
      forall e: Elev | q.states[e].active
        ensures e == q.id
      {
        assert e != q.id ==> e in o.mask;
      }
    }
  }

  lemma NewRequestGoes(p: PeersData, now: int, f: Floor, b: HallButton)
    requires PeersOk(p) && p.states[p.id].active
    requires p.orders[f][b].status.Requested? && p.orders[f][b].mask == {p.id}
    ensures var o, q := p.orders[f][b], p.Step(now);
      q.orders[f][b] == if Alone(q) then Order(o.version + 1, Confirmed, p.id, {p.id}) else o
  {
    var h := CheapestAfter(p, now, f);
    StepRequested(p, now, f, b, h);
    SeenAlone(p.Step(now), p.orders[f][b]);
    assert p.orders[f][b].mask + {p.id} == {p.id};
  }

  /** In every run a press on a hall button is heard: if the order was not outstanding before, it is a new
      request after the step, or confirmed at once if the node knows of nobody else. */
  lemma RunsHearHallCalls(r: Run, k: nat, n: Elev, f: Floor, b: HallButton)
    requires BeginsAt(r, k, n) && r.actions[k].buttons[f][b]
    requires var o := r.trace[k].nodes[n].peers.orders[f][b]; o.status.NoOrder? || o.status.Clear?
    ensures var o, q := r.trace[k].nodes[n].peers.orders[f][b], PeersAfter(r, k, n);
      q.orders[f][b] ==
        if Alone(q) then Order(o.version + 2, Confirmed, n, {n}) else Order(o.version + 1, Requested, o.assignee, {n})
  {
    StepInRun(r, k, n);
    PressRequests(r.trace[k].nodes[n], r.actions[k].inputs, r.actions[k].buttons, f, b);
    NewRequestGoes(PeersBefore(r, k, n), r.actions[k].inputs.now, f, b);
  }

  /** Without a press a cleared order becomes blank in the next version, ready for the next call. */
  lemma RunsResetCleared(r: Run, k: nat, n: Elev, f: Floor, b: HallButton)
    requires BeginsAt(r, k, n) && !r.actions[k].buttons[f][b]
    requires var o := r.trace[k].nodes[n].peers.orders[f][b]; o.status.NoOrder? || o.status.Clear?
    ensures var o := r.trace[k].nodes[n].peers.orders[f][b];
      PeersAfter(r, k, n).orders[f][b] ==
        if o.status.Clear? then o.(version := o.version + 1, status := NoOrder) else o
  {
    StepInRun(r, k, n);
    PressRequests(r.trace[k].nodes[n], r.actions[k].inputs, r.actions[k].buttons, f, b);
    StepResting(PeersBefore(r, k, n), r.actions[k].inputs.now, f, b);
  }

  /** A press in the cab makes an order of the node at once, and any other press leaves cab orders alone. */
  lemma RunsHearCabCalls(r: Run, k: nat, n: Elev, f: Floor)
    requires BeginsAt(r, k, n)
    ensures var o, q := r.trace[k].nodes[n].peers.orders[f][CAB], PeersAfter(r, k, n).orders[f][CAB];
      q == if r.actions[k].buttons[f][CAB] && (o.status.NoOrder? || o.status.Clear?) then
             Order(o.version + 2, Confirmed, n, {n})
           else if r.actions[k].buttons[f][CAB] && o.status.Requested? then
             Order(o.version + 1, Confirmed, n, o.mask)
           else o
  {
    StepInRun(r, k, n);
  }
}
