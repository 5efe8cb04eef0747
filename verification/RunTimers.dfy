/** The order timers in whole runs: each node times exactly the hall orders that it is to serve. */
module RunTimers {
  import opened Allocator
  import opened AllocatorProperties
  import opened Config
  import opened Control
  import opened Nodes
  import opened Orders
  import opened RunInvariants
  import opened RunSafety
  import opened Systems
  import opened Timers

  /** Node `n` serves the hall order at `f`, `b`, according to its own copy. */
  predicate Serving(s: System, n: Elev, f: Floor, b: HallButton) {
    s.nodes[n].peers.orders[f][b].AssignedTo(n)
  }

  /** Its timer for that order. */
  function TimerOf(s: System, n: Elev, f: Floor, b: HallButton): Timer {
    s.nodes[n].peers.timers[f][b]
  }

  lemma StepTimersAgree(p: PeersData, now: int, f: Floor, b: HallButton)
    requires IsElev(p.id)
    ensures p.Step(now).timers[f][b].active <==> p.Step(now).orders[f][b].AssignedTo(p.id)
  {
    TimerAgrees(p.StepView(), p.watchdogs, f, now, Cell(p.orders[f][b], p.timers[f][b], true));
    assert p.Step(now).orders[f][b] == p.StepCell(now, f, b).order;
    assert p.Step(now).timers[f][b] == p.StepCell(now, f, b).timer;
  }

  /** Timer agreement: after a step of `n` its timer for a hall order is active if and only if the
      order is confirmed and assigned to `n`. */
  lemma RunsTimersAgree(r: Run, k: nat, f: Floor, b: HallButton)
    requires k < |r.actions| && r.actions[k].Begin? && Enabled(r.trace[k], r.actions[k])
    ensures TimerOf(r.trace[k + 1], r.actions[k].n, f, b).active <==> Serving(r.trace[k + 1], r.actions[k].n, f, b)
  {
    var m, i, buttons := r.trace[k].nodes[r.actions[k].n], r.actions[k].inputs, r.actions[k].buttons;
    NodeAlwaysOk(r, k, r.actions[k].n);
    assert r.Step(k);
    BeginStepsPeers(m, i, buttons);
    StepTimersAgree(BeforeStep(m, i, buttons), i.now, f, b);
  }

  // Deadlines

  /** `t` is a running timer that does not expire after `u`. */
  predicate NotLater(t: Timer, u: Timer) { t.active && t.deadline <= u.deadline }

  lemma StepKeepsDeadline(p: PeersData, now: int, f: Floor, b: HallButton)
    requires PeersOk(p) && p.states[p.id].active && !p.states[p.id].fault
    requires p.orders[f][b].AssignedTo(p.id) && p.timers[f][b].active && !p.timers[f][b].Expired(now)
    ensures NotLater(p.Step(now).timers[f][b], p.timers[f][b])
    ensures p.Step(now).orders[f][b] == p.orders[f][b]
  {
    StepIsReady(p);
    DeadlineHolds(p.StepView(), p.watchdogs, f, now, Cell(p.orders[f][b], p.timers[f][b], true));
    assert p.Step(now).orders[f][b] == p.StepCell(now, f, b).order;
    assert p.Step(now).timers[f][b] == p.StepCell(now, f, b).timer;
  }

  lemma BeforeStepKeeps(m: NodeData, i: Inputs, buttons: BoolTable, f: Floor, b: HallButton)
    requires IsElev(m.peers.id) && m.peers.orders[f][b].status.Confirmed?
    ensures BeforeStep(m, i, buttons).orders[f][b] == m.peers.orders[f][b]
    ensures BeforeStep(m, i, buttons).timers == m.peers.timers
    ensures BeforeStep(m, i, buttons).states[m.peers.id].fault == m.car.state.fault
  {
  }

  lemma BeginKeepsDeadline(m: NodeData, i: Inputs, buttons: BoolTable, f: Floor, b: HallButton)
    requires NodeOk(m) && !m.car.state.fault
    requires m.peers.orders[f][b].AssignedTo(m.peers.id)
    requires m.peers.timers[f][b].active && !m.peers.timers[f][b].Expired(i.now)
    ensures NotLater(m.Begin(i, buttons).peers.timers[f][b], m.peers.timers[f][b])
    ensures m.Begin(i, buttons).peers.orders[f][b] == m.peers.orders[f][b]
  {
    BeginStepsPeers(m, i, buttons);
    var p := BeforeStep(m, i, buttons);
    BeforeStepKeeps(m, i, buttons, f, b);
    StepKeepsDeadline(p, i.now, f, b);
  }

  lemma ClearingKeepsTimer(p: PeersData, floor: int, k: Flags, f: Floor, b: HallButton)
    requires p.orders[f][b].AssignedTo(p.id) && p.ClearedOrders(floor, k)[f][b].AssignedTo(p.id)
    ensures p.ClearedTimers(floor, k)[f][b] == p.timers[f][b]
  {
    assert p.ClearedOrders(floor, k)[f][b] ==
      if p.Clears(floor, k, f, b) then p.orders[f][b].AfterClear() else p.orders[f][b];
  }

  lemma FinishKeepsTimer(m: NodeData, f: Floor, b: HallButton)
    requires IsElev(m.peers.id) && m.pending.Some?
    requires m.peers.orders[f][b].AssignedTo(m.peers.id) && m.Finish().peers.orders[f][b].AssignedTo(m.peers.id)
    ensures m.Finish().peers.timers[f][b] == m.peers.timers[f][b]
  {
    if m.pending.value != NO_CLEAR {
      ClearingKeepsTimer(m.peers, m.car.state.floor, m.pending.value, f, b);
    }
  }

  /** In a step of `n` the timer has not run out, and its car has not failed. */
  predicate InTime(s: System, a: Action, n: Elev, f: Floor, b: HallButton) {
    a.Begin? && a.n == n ==> !TimerOf(s, n, f, b).Expired(a.inputs.now) && !s.nodes[n].car.state.fault
  }

  lemma ApplyKeepsDeadline(s: System, a: Action, n: Elev, f: Floor, b: HallButton)
    requires NodeOk(s.nodes[n]) && !(a.Restart? && a.n == n) && InTime(s, a, n, f, b)
    requires Serving(s, n, f, b) && Serving(Apply(s, a), n, f, b) && TimerOf(s, n, f, b).active
    ensures NotLater(TimerOf(Apply(s, a), n, f, b), TimerOf(s, n, f, b))
  {
    if Enabled(s, a) && (a.Begin? || a.Finish?) && a.n == n {
      match a
      case Begin(_, i, buttons) => BeginKeepsDeadline(s.nodes[n], i, buttons, f, b);
      case Finish(_) => FinishKeepsTimer(s.nodes[n], f, b);
    }
  }

  ghost predicate ServesInTime(r: Run, i: nat, n: Elev, f: Floor, b: HallButton) {
    && i < |r.actions| && i < |r.trace|
    && Serving(r.trace[i], n, f, b)
    && InTime(r.trace[i], r.actions[i], n, f, b)
    && NotRestarted(r, i, n)
  }

  lemma KeepsDeadlineAt(r: Run, k: nat, n: Elev, f: Floor, b: HallButton)
    requires 0 < k <= |r.actions| && ServesInTime(r, k - 1, n, f, b) && Serving(r.trace[k], n, f, b)
    requires TimerOf(r.trace[k - 1], n, f, b).active
    ensures NotLater(TimerOf(r.trace[k], n, f, b), TimerOf(r.trace[k - 1], n, f, b))
  {
    NodeAlwaysOk(r, k - 1, n);
    StepTo(r, k);
    ApplyKeepsDeadline(r.trace[k - 1], r.actions[k - 1], n, f, b);
  }

  /** Deadlines: from a moment when the timer of `n` for a hall order runs, and for as long as `n`
      stays the assignee, its timer has not run out and its car has not failed, no step, packet or
      event moves the deadline later. */
  lemma {:induction false} DeadlineNeverMovesLater(r: Run, j: nat, k: nat, n: Elev, f: Floor, b: HallButton)
    requires j <= k <= |r.actions| && TimerOf(r.trace[j], n, f, b).active
    requires forall i: nat {:trigger ServesInTime(r, i, n, f, b)} :: j <= i < k ==> ServesInTime(r, i, n, f, b)
    requires Serving(r.trace[k], n, f, b)
    ensures NotLater(TimerOf(r.trace[k], n, f, b), TimerOf(r.trace[j], n, f, b))
  {
    if j < k {
      assert ServesInTime(r, k - 1, n, f, b);
      DeadlineNeverMovesLater(r, j, k - 1, n, f, b);
      KeepsDeadlineAt(r, k, n, f, b);
    }
  }
}
