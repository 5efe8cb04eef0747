/** Every request is served, in whole runs: the orders of a node that is left alone are all served
    after a bounded number of its steps, whatever the other nodes and the network do meanwhile. */
module RunLiveness {
  import opened Config
  import opened Control
  import opened ControllerLiveness
  import opened ControllerSafety
  import opened ElevatorStates
  import opened Nodes
  import opened Orders
  import opened Requests
  import opened Systems

  /** The orders that `n` is to serve, according to its own copies. */
  function TableOf(m: NodeData): BoolTable { ToBoolTable(m.peers.orders, m.peers.id) }

  /** The car with these orders, after the effect of a pending event. */
  function Work(m: NodeData): Car {
    if m.pending.Some? then m.car.Finish(Served(TableOf(m), m.car.state.floor, m.pending.value))
    else m.car.(requests := TableOf(m))
  }

  // One action

  /** Clearing orders takes what the controller meant to serve out of the node's table, and no more. */
  lemma ClearingServes(p: PeersData, floor: int, k: Flags)
    ensures ToBoolTable(p.ClearOrders(floor, k).orders, p.id) == Served(ToBoolTable(p.orders, p.id), floor, k)
  {
    var t, u := ToBoolTable(p.ClearOrders(floor, k).orders, p.id), Served(ToBoolTable(p.orders, p.id), floor, k);
    forall f: Floor
      ensures t[f] == u[f]
    {
      forall b | 0 <= b < BUTTONS
        ensures t[f][b] == u[f][b]
      {
        var o := p.orders[f][b];
        assert u[f][b] == (o.AssignedTo(p.id) && !(f == floor && k[b]));
        assert t[f][b] == p.ClearedOrders(floor, k)[f][b].AssignedTo(p.id);
        assert p.ClearedOrders(floor, k)[f][b] ==
          if !p.Clears(floor, k, f, b) then o else if b == CAB then o.AfterClear().AfterReset() else o.AfterClear();
      }
    }
  }

  lemma FinishKeepsWork(m: NodeData)
    requires IsElev(m.peers.id) && m.pending.Some?
    ensures Work(m.Finish()) == Work(m)
  {
    ClearingServes(m.peers, m.car.state.floor, m.pending.value);
    NothingServed(TableOf(m), m.car.state.floor);
  }

  /** A step that leaves the table as it was has had no cab button pressed for it either. */
  lemma PressedTable(p: PeersData, buttons: BoolTable, s: ElevatorState, now: int)
    requires IsElev(p.id)
    requires ToBoolTable(p.SyncButtons(buttons).SetState(s).Step(now).orders, p.id) == ToBoolTable(p.orders, p.id)
    ensures ToBoolTable(p.SyncButtons(buttons).orders, p.id) == ToBoolTable(p.orders, p.id)
  {
    var q := p.SyncButtons(buttons);
    var t, u := ToBoolTable(p.orders, p.id), ToBoolTable(q.orders, p.id);
    var v := ToBoolTable(q.SetState(s).Step(now).orders, p.id);
    forall f: Floor
      ensures t[f] == u[f]
    {
      forall b | 0 <= b < BUTTONS
        ensures t[f][b] == u[f][b]
      {
        assert v[f][b] == q.SetState(s).Step(now).orders[f][b].AssignedTo(p.id);
        assert u[f][b] == q.orders[f][b].AssignedTo(p.id);
      }
    }
  }

  lemma BeginIsRound(m: NodeData, i: Inputs, buttons: BoolTable)
    requires IsElev(m.peers.id) && m.pending.None?
    requires TableOf(m.Begin(i, buttons)) == TableOf(m)
    ensures Work(m.Begin(i, buttons)) == Round(Work(m), i)
  {
    var p := m.peers.SyncButtons(buttons);
    PressedTable(m.peers, buttons, m.car.Sense(i).Sync(ToBoolTable(p.orders, p.id)).state, i.now);
    var s := m.car.Sense(i).Sync(TableOf(m));
    assert s == Work(m).Sense(i).Sync(Work(m).requests);
    DispatchKeepsReport(s, i);
  }

  // Runs

  /** In action `i` the node is not restarted, nothing but its own clearing changes its table, and
      in a step of its own the world is calm. */
  ghost predicate LeftAlone(r: Run, i: nat, n: Elev) {
    && i < |r.actions| && i + 1 < |r.trace|
    && NotRestarted(r, i, n)
    && (TableOf(r.trace[i + 1].nodes[n]) == TableOf(r.trace[i].nodes[n]) || r.actions[i] == Action.Finish(n))
    && (BeginsAt(r, i, n) ==> Calm(r.trace[i].nodes[n].car, r.actions[i].inputs))
  }

  /** What the steps of `n` from `j` up to `k` read. */
  function InputsOf(r: Run, j: nat, k: nat, n: Elev): seq<Inputs>
    requires j <= k <= |r.actions|
  {
    if j == k then []
    else InputsOf(r, j, k - 1, n) + if BeginsAt(r, k - 1, n) then [r.actions[k - 1].inputs] else []
  }

  predicate PromptAt(r: Run, i: nat, n: Elev) {
    BeginsAt(r, i, n) && Prompt(r.trace[i].nodes[n].car, r.actions[i].inputs)
  }

  /** The steps of `n` from `j` up to `k` in which something was due. */
  function PromptSteps(r: Run, j: nat, k: nat, n: Elev): nat
    requires j <= k <= |r.actions|
  {
    if j == k then 0
    else PromptSteps(r, j, k - 1, n) + if PromptAt(r, k - 1, n) then 1 else 0
  }

  lemma ApplyKeepsWork(s: System, a: Action, n: Elev)
    requires !(a.Restart? && a.n == n)
    requires a.Begin? && a.n == n ==> !Enabled(s, a)
    requires TableOf(Apply(s, a).nodes[n]) == TableOf(s.nodes[n]) || a == Action.Finish(n)
    ensures Work(Apply(s, a).nodes[n]) == Work(s.nodes[n])
  {
    if Enabled(s, a) && a == Action.Finish(n) {
      FinishKeepsWork(s.nodes[n]);
    }
  }

  /** The rounds with inputs `ins` are calm, take `c` to `d`, and in `prompt` of them something is due. */
  ghost predicate Leads(c: Car, ins: seq<Inputs>, d: Car, prompt: nat) {
    d == Rounds(c, ins) && CalmRun(c, ins) && PromptRounds(c, ins) == prompt
  }

  /** At every moment up to `k` the node has gone through the rounds of a car alone. */
  ghost predicate Follows(r: Run, j: nat, k: nat, n: Elev) {
    && j <= k <= |r.actions|
    && Leads(Work(r.trace[j].nodes[n]), InputsOf(r, j, k, n), Work(r.trace[k].nodes[n]), PromptSteps(r, j, k, n))
    && (j < k ==> Follows(r, j, k - 1, n))
  }

  lemma WorkAt(r: Run, k: nat, n: Elev)
    requires 0 < k <= |r.actions| && LeftAlone(r, k - 1, n)
    ensures Work(r.trace[k].nodes[n]) ==
      if BeginsAt(r, k - 1, n) then Round(Work(r.trace[k - 1].nodes[n]), r.actions[k - 1].inputs)
      else Work(r.trace[k - 1].nodes[n])
  {
    StepTo(r, k);
    if BeginsAt(r, k - 1, n) {
      BeginIsRound(r.trace[k - 1].nodes[n], r.actions[k - 1].inputs, r.actions[k - 1].buttons);
    } else {
      ApplyKeepsWork(r.trace[k - 1], r.actions[k - 1], n);
    }
  }

  lemma InputsAt(r: Run, j: nat, k: nat, n: Elev)
    requires j < k <= |r.actions|
    ensures InputsOf(r, j, k, n) ==
      if BeginsAt(r, k - 1, n) then InputsOf(r, j, k - 1, n) + [r.actions[k - 1].inputs] else InputsOf(r, j, k - 1, n)
  {
  }

  lemma OneMoreRound(c: Car, ins: seq<Inputs>, i: Inputs)
    requires CalmRun(c, ins) && Calm(Rounds(c, ins), i)
    ensures CalmRun(c, ins + [i]) && Rounds(c, ins + [i]) == Round(Rounds(c, ins), i)
    ensures PromptRounds(c, ins + [i]) == PromptRounds(c, ins) + if Prompt(Rounds(c, ins), i) then 1 else 0
  {
  }

  lemma FollowsAt(r: Run, j: nat, k: nat, n: Elev)
    requires j < k <= |r.actions| && LeftAlone(r, k - 1, n) && Follows(r, j, k - 1, n)
    ensures Follows(r, j, k, n)
  {
    WorkAt(r, k, n);
    InputsAt(r, j, k, n);
    if BeginsAt(r, k - 1, n) {
      OneMoreRound(Work(r.trace[j].nodes[n]), InputsOf(r, j, k - 1, n), r.actions[k - 1].inputs);
    }
  }

  lemma FollowsNow(r: Run, j: nat, k: nat, n: Elev)
    requires j == k <= |r.actions|
    ensures Follows(r, j, k, n)
  {
  }

  lemma {:induction false} RunIsRounds(r: Run, j: nat, k: nat, n: Elev)
    requires j <= k <= |r.actions|
    requires forall i: nat {:trigger LeftAlone(r, i, n)} :: j <= i < k ==> LeftAlone(r, i, n)
    ensures Follows(r, j, k, n)
  {
    if j == k {
      FollowsNow(r, j, k, n);
    } else {
      RunIsRounds(r, j, k - 1, n);
      assert LeftAlone(r, k - 1, n);
      FollowsAt(r, j, k, n);
    }
  }

  // Cars at work

  /** In action `i` nobody stops or obstructs the car of `n`, and its sensor reads floors one by one. */
  predicate CalmAt(r: Run, i: nat, n: Elev) {
    && i < |r.actions| && i < |r.trace|
    && (BeginsAt(r, i, n) ==> Calm(r.trace[i].nodes[n].car, r.actions[i].inputs))
    && (r.actions[i].Restart? && r.actions[i].n == n ==> !r.actions[i].stopped)
  }

  lemma ApplyKeepsAtWork(s: System, a: Action, n: Elev)
    requires AtWork(s.nodes[n].car)
    requires a.Begin? && a.n == n && Enabled(s, a) ==> Calm(s.nodes[n].car, a.inputs)
    requires a.Restart? && a.n == n ==> !a.stopped
    ensures AtWork(Apply(s, a).nodes[n].car)
  {
    if Enabled(s, a) && !a.Lose? && !a.Send? && a.n == n {
      var m := s.nodes[n];
      match a
      case Begin(_, i, buttons) =>
        RoundKeepsWork(m.car, i, ToBoolTable(m.peers.SyncButtons(buttons).orders, n));
      case Finish(_) =>
      case Deliver(_, packet, now) =>
      case Restart(_, floor, stopped, obstruction) => StartIsAtWork(n, floor, obstruction);
    }
  }

  lemma StaysAtWorkAt(r: Run, k: nat, n: Elev)
    requires 0 < k <= |r.actions| && CalmAt(r, k - 1, n) && AtWork(r.trace[k - 1].nodes[n].car)
    ensures AtWork(r.trace[k].nodes[n].car)
  {
    StepTo(r, k);
    ApplyKeepsAtWork(r.trace[k - 1], r.actions[k - 1], n);
  }

  lemma {:induction false} StaysAtWork(r: Run, k: nat, n: Elev)
    requires k <= |r.actions| && !r.trace[0].nodes[n].car.state.stopped
    requires forall i: nat {:trigger CalmAt(r, i, n)} :: i < k ==> CalmAt(r, i, n)
    ensures AtWork(r.trace[k].nodes[n].car)
  {
    if k == 0 {
      assert Started(r.trace[0], n);
      StartIsAtWork(n, r.trace[0].nodes[n].car.state.floor, r.trace[0].nodes[n].car.state.obstruction);
    } else {
      StaysAtWork(r, k - 1, n);
      assert CalmAt(r, k - 1, n);
      StaysAtWorkAt(r, k, n);
    }
  }

  lemma WorkIsAtWork(m: NodeData)
    requires AtWork(m.car)
    ensures AtWork(Work(m))
  {
  }

  lemma EmptyTable(m: NodeData)
    requires !NonEmpty(TableOf(m)) || m.pending.Some?
    ensures m.pending.None? ==> forall f, b :: IsButton(f, b) ==> !m.peers.orders[f][b].AssignedTo(m.peers.id)
  {
    if m.pending.None? {
      forall f, b | IsButton(f, b)
        ensures !m.peers.orders[f][b].AssignedTo(m.peers.id)
      {
        assert !RequestHere(TableOf(m), f);
        assert TableOf(m)[f][b] == m.peers.orders[f][b].AssignedTo(m.peers.id);
      }
    }
  }

  lemma ServedByThen(c: Car, ins: seq<Inputs>, m: NodeData)
    requires AtWork(c) && CalmRun(c, ins) && PromptRounds(c, ins) >= MAX_EVENTS
    requires Work(m) == Rounds(c, ins)
    ensures m.pending.None? ==> forall f, b :: IsButton(f, b) ==> !m.peers.orders[f][b].AssignedTo(m.peers.id)
  {
    RankBound(c);
    EveryRequestIsServed(c, ins);
    EmptyTable(m);
  }

  /** Every request is served. Take any run, restarts, losses and foreign nodes included, in which node
      `n` is calm, and leave it alone from `j` on: no new requests or reassignments for it. By `k`, once
      it has taken `MAX_EVENTS` further steps in which something was due, it has served all its orders. */
  lemma EveryOrderIsServed(r: Run, j: nat, k: nat, n: Elev)
    requires j <= k <= |r.actions| && !r.trace[0].nodes[n].car.state.stopped
    requires forall i: nat {:trigger CalmAt(r, i, n)} :: i < j ==> CalmAt(r, i, n)
    requires forall i: nat {:trigger LeftAlone(r, i, n)} :: j <= i < k ==> LeftAlone(r, i, n)
    requires PromptSteps(r, j, k, n) >= MAX_EVENTS
    ensures r.trace[k].nodes[n].pending.None? ==>
      forall f, b :: IsButton(f, b) ==> !r.trace[k].nodes[n].peers.orders[f][b].AssignedTo(n)
  {
    StaysAtWork(r, j, n);
    WorkIsAtWork(r.trace[j].nodes[n]);
    RunIsRounds(r, j, k, n);
    ServedByThen(Work(r.trace[j].nodes[n]), InputsOf(r, j, k, n), r.trace[k].nodes[n]);
  }
}
