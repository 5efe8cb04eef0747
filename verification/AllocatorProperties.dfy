/** Who holds the work after a step of the allocator. */
module AllocatorProperties {
  import opened Allocator
  import opened Config
  import opened Costs
  import opened ElevatorStates
  import opened OrderLattice
  import opened Orders
  import opened Timers

  /** The node itself is active and active elevators have reported where they are. */
  ghost predicate Ready(v: View) {
    && IsElev(v.self)
    && v.states[v.self].active
    && forall e :: IsElev(e) && v.states[e].active ==> IsFloor(v.states[e].floor)
  }

  /** Before the watchdog pass. A running watchdog belongs to another, active elevator. */
  ghost predicate ReadyToCheck(v: View, watchdogs: seq<Timer>) {
    && Ready(v)
    && v.numElevs == ActiveCount(v.states)
    && |watchdogs| == ELEVS
    && forall e :: IsElev(e) && watchdogs[e].active ==> e != v.self && v.states[e].active
  }

  /** An order that a receiver accepts and that a reassignment can start from. */
  ghost predicate Sound(o: Order) {
    o.Valid() && (o.status.Confirmed? ==> IsElev(o.assignee))
  }

  /** The process is alive and the order sound, and not confirmed to anyone in `bad`. */
  ghost predicate Avoids(c: Cell, bad: set<int>) {
    c.live && Sound(c.order) && (c.order.status.Confirmed? ==> c.order.assignee !in bad)
  }

  /** No choice made in this view falls on `bad`, unless it is kept there. */
  ghost predicate Shuns(v: View, floor: int, bad: set<int>) {
    && IsElev(v.self)
    && (forall prev :: IsElev(prev) && prev !in bad ==>
          IsElev(ReassignTarget(v, floor, prev)) && ReassignTarget(v, floor, prev) !in bad)
    && (var best := SortedCosts(v.states, floor)[0];
        best.0 != MAX_COST ==> IsElev(best.1) && best.1 !in bad)
  }

  function Fired(watchdogs: seq<Timer>, now: int): set<int>
    requires |watchdogs| == ELEVS
  {
    set e | 0 <= e < ELEVS && watchdogs[e].Expired(now)
  }

  ghost predicate SomeUsable(states: StateSeq) {
    exists u :: IsElev(u) && states[u].Usable()
  }

  /** Active elevators have reported what a car can report. */
  ghost predicate Reporting(states: StateSeq) {
    forall e :: IsElev(e) && states[e].active ==> states[e].Consistent()
  }

  function Inactive(states: StateSeq): set<int> {
    set e | 0 <= e < ELEVS && !states[e].active
  }

  // Choices

  /** Where a reassignment can go: to another active elevator, or nowhere. */
  lemma TargetIsActive(v: View, floor: int, prev: int)
    requires Ready(v) && IsFloor(floor) && IsElev(prev)
    ensures var e := ReassignTarget(v, floor, prev);
      && IsElev(e)
      && (e == prev || v.states[e].active)
      && (v.numElevs != 1 && !v.states[prev].active ==> e != prev)
  {
    CheapestCandidate(v.states, floor, prev, v.states[prev].Usable());
    forall e | IsElev(e) && v.states[e].active
      ensures Cost(v.states[e], floor) != MAX_COST
    {
      CostBounds(v.states[e], floor);
    }
    assert v.self != prev && !v.states[prev].Usable() ==> Candidate(v.states, floor, prev, false, v.self);
  }

  predicate MayTakeOver(v: View, prev: Elev, e: Elev) {
    v.states[e].active && (v.states[prev].Usable() ==> v.states[e].Usable())
  }

  lemma ActiveCostsLess(s: ElevatorState, floor: int)
    requires IsFloor(floor) && (s.active ==> IsFloor(s.floor))
    ensures Cost(s, floor) != MAX_COST <==> s.active
  {
  }

  /** Who gets an order that is taken from `prev`, without the table: the only elevator keeps its own.
      A usable one gives it up only to the cheapest other usable one, any other to the cheapest other
      active one. The program aborts exactly if there is none and `prev` is not active itself. */
  lemma ReassignmentChoice(v: View, floor: int, prev: int)
    requires IsElev(prev) && IsFloor(floor) && v.numElevs != 1
    requires forall e :: IsElev(e) && v.states[e].active ==> IsFloor(v.states[e].floor)
    ensures var e := ReassignTarget(v, floor, prev);
      && (e == -1 <==> forall d :: IsElev(d) ==> !v.states[d].active)
      && (e == prev <==> v.states[prev].active && forall d :: IsElev(d) && d != prev ==> !MayTakeOver(v, prev, d))
      && (e != prev && e != -1 ==> IsElev(e) && MayTakeOver(v, prev, e))
      && (forall d :: e != prev && IsElev(d) && d != prev && MayTakeOver(v, prev, d) ==>
            Before((Cost(v.states[e], floor), e), (Cost(v.states[d], floor), d)))
  {
    CheapestCandidate(v.states, floor, prev, v.states[prev].Usable());
    forall d | IsElev(d)
      ensures Candidate(v.states, floor, prev, v.states[prev].Usable(), d) <==> d != prev && MayTakeOver(v, prev, d)
    {
      ActiveCostsLess(v.states[d], floor);
    }
  }

  lemma InactiveAreShunned(v: View, floor: int, bad: set<int>)
    requires Ready(v) && IsFloor(floor)
    requires forall e :: e in bad ==> IsElev(e) && !v.states[e].active
    ensures Shuns(v, floor, bad)
  {
    forall prev | IsElev(prev) && prev !in bad
      ensures IsElev(ReassignTarget(v, floor, prev)) && ReassignTarget(v, floor, prev) !in bad
    {
      TargetIsActive(v, floor, prev);
    }
    CheapestElevator(v.states, floor);
  }

  // Phases

  lemma GiveToAvoids(c: Cell, target: int, self: int, now: int, bad: set<int>)
    requires Avoids(c, {}) && IsElev(target) && target !in bad
    ensures Avoids(GiveTo(c, target, self, now), bad)
    ensures GiveTo(c, target, self, now).order == c.order.AfterReassignment(target)
  {
  }

  lemma MoveAvoids(v: View, floor: int, now: int, c: Cell, e: int, bad: set<int>)
    requires Shuns(v, floor, bad) && Avoids(c, bad)
    ensures Avoids(Move(v, floor, now, c, e), bad)
  {
    if c.order.AssignedTo(e) {
      GiveToAvoids(c, ReassignTarget(v, floor, e), v.self, now, bad);
    }
  }

  lemma {:induction false} FaultPhaseAvoids(v: View, floor: int, now: int, c: Cell, k: nat, bad: set<int>)
    requires k <= ELEVS && Shuns(v, floor, bad) && Avoids(c, bad)
    ensures Avoids(FaultPhase(v, floor, now, c, k), bad)
  {
    if k > 0 {
      FaultPhaseAvoids(v, floor, now, c, k - 1, bad);
      MoveAvoids(v, floor, now, FaultPhase(v, floor, now, c, k - 1), k - 1, bad);
    }
  }

  lemma ConfirmToAvoids(c: Cell, best: (int, int), self: int, now: int, bad: set<int>)
    requires Avoids(c, bad) && (best.0 != MAX_COST ==> IsElev(best.1) && best.1 !in bad)
    ensures Avoids(ConfirmTo(c, best, self, now), bad)
  {
  }

  lemma ConfirmAvoids(v: View, floor: int, now: int, c: Cell, bad: set<int>)
    requires Shuns(v, floor, bad) && Avoids(c, bad)
    ensures Avoids(ConfirmPhase(v, floor, now, c), bad)
  {
    ConfirmToAvoids(c, SortedCosts(v.states, floor)[0], v.self, now, bad);
  }

  lemma TimeoutAvoids(v: View, floor: int, now: int, c: Cell, bad: set<int>)
    requires Shuns(v, floor, bad) && Avoids(c, bad)
    ensures Avoids(TimeoutPhase(v, floor, now, c), bad)
  {
    if c.order.status.Confirmed? {
      var d := c.(timer := c.timer.Stop());
      GiveToAvoids(d, ReassignTarget(v, floor, c.order.assignee), v.self, now, bad);
    }
  }

  lemma ObserveAvoids(v: View, c: Cell, bad: set<int>)
    requires IsElev(v.self) && Avoids(c, bad)
    ensures Avoids(ObservePhase(v, c), bad)
  {
  }

  lemma LaterPhasesAvoid(v: View, floor: int, now: int, c: Cell, bad: set<int>)
    requires Shuns(v, floor, bad) && Avoids(c, bad)
    ensures Avoids(TimeoutPhase(v, floor, now, ResetPhase(ConfirmPhase(v, floor, now, ObservePhase(v, c)))), bad)
  {
    ObserveAvoids(v, c, bad);
    var d := ObservePhase(v, c);
    ConfirmAvoids(v, floor, now, d, bad);
    var e := ConfirmPhase(v, floor, now, d);
    assert Avoids(ResetPhase(e), bad);
    TimeoutAvoids(v, floor, now, ResetPhase(e), bad);
  }

  lemma DecideAvoids(v: View, floor: int, now: int, c: Cell, bad: set<int>)
    requires Shuns(v, floor, bad) && Avoids(c, bad)
    ensures Avoids(Decide(v, floor, now, c), bad)
  {
    FaultPhaseAvoids(v, floor, now, c, ELEVS, bad);
    LaterPhasesAvoid(v, floor, now, FaultPhase(v, floor, now, c, ELEVS), bad);
  }

  // The watchdog pass

  lemma {:induction false} OneActive(states: seq<ElevatorState>, i: int)
    requires 0 <= i < |states| && states[i].active
    ensures ActiveCount(states) >= 1
  {
    if i < |states| - 1 {
      OneActive(states[..|states| - 1], i);
    }
  }

  lemma {:induction false} TwoActive(states: seq<ElevatorState>, i: int, j: int)
    requires 0 <= i < j < |states| && states[i].active && states[j].active
    ensures ActiveCount(states) >= 2
  {
    var front := states[..|states| - 1];
    if j < |front| {
      TwoActive(front, i, j);
    } else {
      OneActive(front, i);
    }
  }

  /** Because the elevators were counted before the pass, an elevator that times out and the node
      itself make at least two. */
  lemma FiredLeavesTwo(v: View, watchdogs: seq<Timer>, e: int)
    requires ReadyToCheck(v, watchdogs) && IsElev(e) && watchdogs[e].active
    ensures v.numElevs >= 2
  {
    TwoActive(v.states, if e < v.self then e else v.self, if e < v.self then v.self else e);
  }

  lemma CheckedIsReady(v: View, watchdogs: seq<Timer>, now: int, k: nat)
    requires ReadyToCheck(v, watchdogs) && k <= ELEVS
    ensures Ready(v.(states := StatesAfter(v.states, watchdogs, now, k)))
  {
  }

  ghost function FiredBelow(watchdogs: seq<Timer>, now: int, k: nat): set<int>
    requires |watchdogs| == ELEVS && k <= ELEVS
  {
    set e | 0 <= e < k && watchdogs[e].Expired(now)
  }

  /** Orders pass on through elevators that are about to time out in the same pass. */
  lemma {:induction false} WatchdogPhaseAvoids(v: View, watchdogs: seq<Timer>, floor: int, now: int, c: Cell, k: nat)
    requires ReadyToCheck(v, watchdogs) && IsFloor(floor) && k <= ELEVS && Avoids(c, {})
    ensures Avoids(WatchdogPhase(v, watchdogs, floor, now, c, k), FiredBelow(watchdogs, now, k))
  {
    if k > 0 {
      WatchdogPhaseAvoids(v, watchdogs, floor, now, c, k - 1);
      var d := WatchdogPhase(v, watchdogs, floor, now, c, k - 1);
      if watchdogs[k - 1].Expired(now) && d.order.AssignedTo(k - 1) {
        var w := v.(states := StatesAfter(v.states, watchdogs, now, k));
        CheckedIsReady(v, watchdogs, now, k);
        FiredLeavesTwo(v, watchdogs, k - 1);
        TargetIsActive(w, floor, k - 1);
        GiveToAvoids(d, ReassignTarget(w, floor, k - 1), v.self, now, FiredBelow(watchdogs, now, k));
      }
    }
  }

  lemma AvoidsFewer(c: Cell, bad: set<int>, fewer: set<int>)
    requires Avoids(c, bad) && fewer <= bad
    ensures Avoids(c, fewer)
  {
  }

  // Main results

  /** Hand-over: after a step no confirmed hall order is left with an elevator whose watchdog fired
      in it; and no assertion fails and nothing aborts on the way. */
  lemma HandOver(v: View, watchdogs: seq<Timer>, floor: int, now: int, c: Cell)
    requires ReadyToCheck(v, watchdogs) && IsFloor(floor) && Avoids(c, {})
    ensures Avoids(CellStep(v, watchdogs, floor, now, c), Fired(watchdogs, now))
  {
    var w, bad := Checked(v, watchdogs, now), Fired(watchdogs, now);
    CheckedIsReady(v, watchdogs, now, ELEVS);
    WatchdogPhaseAvoids(v, watchdogs, floor, now, c, ELEVS);
    assert FiredBelow(watchdogs, now, ELEVS) == bad;
    InactiveAreShunned(w, floor, bad);
    DecideAvoids(w, floor, now, WatchdogPhase(v, watchdogs, floor, now, c, ELEVS), bad);
  }

  lemma FireAvoidsInactive(v: View, watchdogs: seq<Timer>, floor: int, now: int, d: Cell, e: Elev)
    requires ReadyToCheck(v, watchdogs) && IsFloor(floor) && watchdogs[e].Expired(now)
    requires Avoids(d, Inactive(StatesAfter(v.states, watchdogs, now, e)))
    ensures var w := v.(states := StatesAfter(v.states, watchdogs, now, e + 1));
      Avoids(Move(w, floor, now, d, e), Inactive(w.states))
  {
    var w := v.(states := StatesAfter(v.states, watchdogs, now, e + 1));
    if d.order.AssignedTo(e) {
      CheckedIsReady(v, watchdogs, now, e + 1);
      FiredLeavesTwo(v, watchdogs, e);
      TargetIsActive(w, floor, e);
      GiveToAvoids(d, ReassignTarget(w, floor, e), v.self, now, Inactive(w.states));
    }
  }

  lemma PassStep(v: View, watchdogs: seq<Timer>, floor: int, now: int, c: Cell, k: Elev)
    requires |watchdogs| == ELEVS
    ensures var w := v.(states := StatesAfter(v.states, watchdogs, now, k + 1));
      var d := WatchdogPhase(v, watchdogs, floor, now, c, k);
      WatchdogPhase(v, watchdogs, floor, now, c, k + 1) ==
        if watchdogs[k].Expired(now) then Move(w, floor, now, d, k) else d
  {
  }

  lemma NextAvoidsInactive(v: View, watchdogs: seq<Timer>, floor: int, now: int, c: Cell, j: Elev, k: nat)
    requires ReadyToCheck(v, watchdogs) && IsFloor(floor) && k == j + 1
    requires Avoids(WatchdogPhase(v, watchdogs, floor, now, c, j), Inactive(StatesAfter(v.states, watchdogs, now, j)))
    ensures Avoids(WatchdogPhase(v, watchdogs, floor, now, c, k), Inactive(StatesAfter(v.states, watchdogs, now, k)))
  {
    PassStep(v, watchdogs, floor, now, c, j);
    if watchdogs[j].Expired(now) {
      FireAvoidsInactive(v, watchdogs, floor, now, WatchdogPhase(v, watchdogs, floor, now, c, j), j);
    }
  }

  /** Elevators that are not active, if they hold no order before the pass, hold none after it. */
  lemma {:induction false} PassAvoidsInactive(v: View, watchdogs: seq<Timer>, floor: int, now: int, c: Cell, k: nat)
    requires ReadyToCheck(v, watchdogs) && IsFloor(floor) && k <= ELEVS && Avoids(c, Inactive(v.states))
    ensures Avoids(WatchdogPhase(v, watchdogs, floor, now, c, k), Inactive(StatesAfter(v.states, watchdogs, now, k)))
  {
    if k > 0 {
      PassAvoidsInactive(v, watchdogs, floor, now, c, k - 1);
      NextAvoidsInactive(v, watchdogs, floor, now, c, k - 1, k);
    }
  }

  /** A step leaves no confirmed hall order with an inactive elevator, unless it finds one there. */
  lemma StepAvoidsInactive(v: View, watchdogs: seq<Timer>, floor: int, now: int, c: Cell)
    requires ReadyToCheck(v, watchdogs) && IsFloor(floor) && Avoids(c, Inactive(v.states))
    ensures Avoids(CellStep(v, watchdogs, floor, now, c), Inactive(Checked(v, watchdogs, now).states))
  {
    var w := Checked(v, watchdogs, now);
    CheckedIsReady(v, watchdogs, now, ELEVS);
    PassAvoidsInactive(v, watchdogs, floor, now, c, ELEVS);
    InactiveAreShunned(w, floor, Inactive(w.states));
    DecideAvoids(w, floor, now, WatchdogPhase(v, watchdogs, floor, now, c, ELEVS), Inactive(w.states));
  }

  /** No watchdog runs for an inactive elevator, and it is not looked at for faults. */
  lemma {:induction false} PassLeavesInactive(v: View, watchdogs: seq<Timer>, floor: int, now: int, c: Cell,
      e: Elev, k: nat)
    requires ReadyToCheck(v, watchdogs) && k <= ELEVS && !v.states[e].active && c.order.AssignedTo(e)
    ensures WatchdogPhase(v, watchdogs, floor, now, c, k) == c
  {
    if k > 0 {
      PassLeavesInactive(v, watchdogs, floor, now, c, e, k - 1);
    }
  }

  lemma {:induction false} FaultsLeaveInactive(v: View, floor: int, now: int, c: Cell, e: Elev, k: nat)
    requires k <= ELEVS && !v.states[e].active && c.order.AssignedTo(e)
    ensures FaultPhase(v, floor, now, c, k) == c
  {
    if k > 0 {
      FaultsLeaveInactive(v, floor, now, c, e, k - 1);
    }
  }

  /** An order that a step does find with an inactive elevator stays there, exactly unless the node's
      own timer for it has run out and more than one elevator was counted: with a single one the order
      is given back to its assignee. */
  lemma OrphanStays(v: View, watchdogs: seq<Timer>, floor: int, now: int, c: Cell, e: Elev)
    requires ReadyToCheck(v, watchdogs) && IsFloor(floor) && !v.states[e].active && c.order.AssignedTo(e)
    ensures CellStep(v, watchdogs, floor, now, c).order.AssignedTo(e) <==> !(c.timer.Expired(now) && v.numElevs != 1)
    ensures !c.timer.Expired(now) ==> CellStep(v, watchdogs, floor, now, c).order == c.order
    ensures c.timer.Expired(now) && v.numElevs != 1 ==>
      var o := CellStep(v, watchdogs, floor, now, c).order;
      IsElev(o.assignee) && Checked(v, watchdogs, now).states[o.assignee].active
  {
    var w := Checked(v, watchdogs, now);
    CheckedIsReady(v, watchdogs, now, ELEVS);
    PassLeavesInactive(v, watchdogs, floor, now, c, e, ELEVS);
    FaultsLeaveInactive(w, floor, now, c, e, ELEVS);
    assert Decide(w, floor, now, c) == TimeoutPhase(w, floor, now, c);
    TargetIsActive(w, floor, e);
  }

  // Confirmation

  lemma CheapestIsActive(v: View, floor: int)
    requires Ready(v) && IsFloor(floor)
    ensures var best := SortedCosts(v.states, floor)[0];
      IsElev(best.1) && v.states[best.1].active && best.0 != MAX_COST
  {
    CheapestElevator(v.states, floor);
    CostBounds(v.states[v.self], floor);
    var e := SortedCosts(v.states, floor)[0].1;
    if v.states[e].active {
      CostBounds(v.states[e], floor);
    }
  }

  /** With the penalties separated, who is no dearer than a usable elevator is usable. */
  lemma NoDearerIsUsable(s: ElevatorState, t: ElevatorState, floor: int)
    requires FLOORS <= 5 && IsFloor(floor) && s.Consistent() && t.Consistent()
    requires s.Usable() && t.active && Cost(t, floor) <= Cost(s, floor)
    ensures t.Usable()
  {
    CostBounds(s, floor);
    CostBounds(t, floor);
  }

  lemma CheapestIsUsable(v: View, floor: int)
    requires Ready(v) && IsFloor(floor) && FLOORS <= 5 && Reporting(v.states) && SomeUsable(v.states)
    ensures var best := SortedCosts(v.states, floor)[0];
      IsElev(best.1) && v.states[best.1].Usable()
  {
    CheapestIsActive(v, floor);
    CheapestElevator(v.states, floor);
    var u: Elev :| v.states[u].Usable();
    NoDearerIsUsable(v.states[u], v.states[SortedCosts(v.states, floor)[0].1], floor);
  }

  /** Confirmation goes to the elevator with the least cost and then the least id among the active
      ones, and to a usable one if the penalties separate them and there is one. */
  lemma ConfirmsCheapest(v: View, floor: int, now: int, c: Cell)
    requires Ready(v) && IsFloor(floor)
    requires c.order.status.Requested? && ObservedByAll(v.states, c.order)
    ensures var d := ConfirmPhase(v, floor, now, c);
      && d.order == Order(c.order.version + 1, Confirmed, d.order.assignee, c.order.mask)
      && IsElev(d.order.assignee) && v.states[d.order.assignee].active
      && (forall e :: IsElev(e) && v.states[e].active ==>
            Before((Cost(v.states[d.order.assignee], floor), d.order.assignee), (Cost(v.states[e], floor), e)))
      && (FLOORS <= 5 && Reporting(v.states) && SomeUsable(v.states) ==> v.states[d.order.assignee].Usable())
  {
    CheapestIsActive(v, floor);
    CheapestElevator(v.states, floor);
    if FLOORS <= 5 && Reporting(v.states) && SomeUsable(v.states) {
      CheapestIsUsable(v, floor);
    }
  }

  /** And nothing else confirms: exactly the requests that every active elevator has seen are. */
  lemma ConfirmsWhenSeen(v: View, floor: int, now: int, c: Cell)
    requires Ready(v) && IsFloor(floor)
    ensures ConfirmPhase(v, floor, now, c).order != c.order <==>
      c.order.status.Requested? && forall e :: IsElev(e) && v.states[e].active ==> e in c.order.mask
  {
    CheapestIsActive(v, floor);
  }

  lemma {:induction false} PassLeavesUnconfirmed(v: View, watchdogs: seq<Timer>, floor: int, now: int, c: Cell, k: nat)
    requires |watchdogs| == ELEVS && k <= ELEVS && !c.order.status.Confirmed?
    ensures WatchdogPhase(v, watchdogs, floor, now, c, k) == c
  {
    if k > 0 {
      PassLeavesUnconfirmed(v, watchdogs, floor, now, c, k - 1);
    }
  }

  lemma {:induction false} FaultsLeaveUnconfirmed(v: View, floor: int, now: int, c: Cell, k: nat)
    requires k <= ELEVS && !c.order.status.Confirmed?
    ensures FaultPhase(v, floor, now, c, k) == c
  {
    if k > 0 {
      FaultsLeaveUnconfirmed(v, floor, now, c, k - 1);
    }
  }

  lemma HeadIsConfirmed(w: View, floor: int, now: int, c: Cell)
    requires c.order.status.Requested? && !c.timer.active && ObservedByAll(w.states, c.order)
    requires SortedCosts(w.states, floor)[0].0 != MAX_COST
    ensures TimeoutPhase(w, floor, now, ResetPhase(ConfirmPhase(w, floor, now, c))).order ==
      c.order.AfterConfirm(SortedCosts(w.states, floor)[0].1)
  {
  }

  /** A request goes through the whole step to the head of the table, once the other active elevators
      have seen it. */
  lemma RequestGoesToHead(v: View, watchdogs: seq<Timer>, floor: int, now: int, c: Cell)
    requires ReadyToCheck(v, watchdogs) && IsFloor(floor) && c.order.status.Requested? && !c.timer.active
    requires ObservedByAll(Checked(v, watchdogs, now).states, c.order.AfterObserve(v.self))
    ensures var best := SortedCosts(Checked(v, watchdogs, now).states, floor)[0].1;
      CellStep(v, watchdogs, floor, now, c).order == c.order.AfterObserve(v.self).AfterConfirm(best)
  {
    var w := Checked(v, watchdogs, now);
    CheckedIsReady(v, watchdogs, now, ELEVS);
    PassLeavesUnconfirmed(v, watchdogs, floor, now, c, ELEVS);
    FaultsLeaveUnconfirmed(w, floor, now, c, ELEVS);
    CheapestIsActive(w, floor);
    assert v.self in c.order.mask ==> c.order.mask + {v.self} == c.order.mask;
    HeadIsConfirmed(w, floor, now, ObservePhase(w, c));
  }

  // Knowledge

  lemma {:induction false} WatchdogPhaseInflates(v: View, watchdogs: seq<Timer>, floor: int, now: int, c: Cell, k: nat)
    requires |watchdogs| == ELEVS && k <= ELEVS
    ensures Leq(c.order, WatchdogPhase(v, watchdogs, floor, now, c, k).order)
  {
    if k > 0 {
      WatchdogPhaseInflates(v, watchdogs, floor, now, c, k - 1);
    }
  }

  lemma {:induction false} FaultPhaseInflates(v: View, floor: int, now: int, c: Cell, k: nat)
    requires k <= ELEVS
    ensures Leq(c.order, FaultPhase(v, floor, now, c, k).order)
  {
    if k > 0 {
      FaultPhaseInflates(v, floor, now, c, k - 1);
    }
  }

  lemma TimeoutInflates(v: View, floor: int, now: int, c: Cell)
    ensures Leq(c.order, TimeoutPhase(v, floor, now, c).order)
  {
  }

  lemma LaterPhasesInflate(v: View, floor: int, now: int, c: Cell)
    ensures Leq(c.order, TimeoutPhase(v, floor, now, ResetPhase(ConfirmPhase(v, floor, now, ObservePhase(v, c)))).order)
  {
    var d := ConfirmPhase(v, floor, now, ObservePhase(v, c));
    assert Leq(c.order, d.order);
    var e := ResetPhase(d);
    LeqTransitive(c.order, d.order, e.order);
    TimeoutInflates(v, floor, now, e);
    LeqTransitive(c.order, e.order, TimeoutPhase(v, floor, now, e).order);
  }

  /** A step only adds knowledge to an order. */
  lemma CellStepInflates(v: View, watchdogs: seq<Timer>, floor: int, now: int, c: Cell)
    requires |watchdogs| == ELEVS && IsElev(v.self)
    ensures Leq(c.order, CellStep(v, watchdogs, floor, now, c).order)
  {
    var w := Checked(v, watchdogs, now);
    var d := WatchdogPhase(v, watchdogs, floor, now, c, ELEVS);
    WatchdogPhaseInflates(v, watchdogs, floor, now, c, ELEVS);
    FaultPhaseInflates(w, floor, now, d, ELEVS);
    var e := FaultPhase(w, floor, now, d, ELEVS);
    LeqTransitive(c.order, d.order, e.order);
    LaterPhasesInflate(w, floor, now, e);
    LeqTransitive(c.order, e.order, Decide(w, floor, now, d).order);
  }

  // Timers

  /** After a step this node's timer runs exactly for the orders it is to serve itself. */
  lemma TimerAgrees(v: View, watchdogs: seq<Timer>, floor: int, now: int, c: Cell)
    requires |watchdogs| == ELEVS && IsElev(v.self)
    ensures var d := CellStep(v, watchdogs, floor, now, c);
      d.timer.active <==> d.order.AssignedTo(v.self)
  {
  }

  lemma {:induction false} PassLeavesOwn(v: View, watchdogs: seq<Timer>, floor: int, now: int, c: Cell, k: nat)
    requires ReadyToCheck(v, watchdogs) && k <= ELEVS && c.order.AssignedTo(v.self)
    ensures WatchdogPhase(v, watchdogs, floor, now, c, k) == c
  {
    if k > 0 {
      PassLeavesOwn(v, watchdogs, floor, now, c, k - 1);
    }
  }

  lemma {:induction false} FaultsLeaveOwn(v: View, floor: int, now: int, c: Cell, k: nat)
    requires Ready(v) && !v.states[v.self].fault && k <= ELEVS && c.order.AssignedTo(v.self)
    ensures FaultPhase(v, floor, now, c, k) == c
  {
    if k > 0 {
      FaultsLeaveOwn(v, floor, now, c, k - 1);
    }
  }

  /** While a node that is not faulty serves an order and its timer has not run out, steps leave the
      order alone and never move the deadline later; and an obstructed node does not keep it long. */
  lemma DeadlineHolds(v: View, watchdogs: seq<Timer>, floor: int, now: int, c: Cell)
    requires ReadyToCheck(v, watchdogs) && !v.states[v.self].fault
    requires c.order.AssignedTo(v.self) && c.timer.active && !c.timer.Expired(now)
    ensures var d := CellStep(v, watchdogs, floor, now, c);
      && d.order == c.order && d.timer.active && d.timer.deadline <= c.timer.deadline
      && (v.states[v.self].obstruction ==> d.timer.deadline <= now + OBSTRUCTION_REASSIGN_TIME + 5 * SAMPLE_TIME)
  {
    var w := Checked(v, watchdogs, now);
    CheckedIsReady(v, watchdogs, now, ELEVS);
    PassLeavesOwn(v, watchdogs, floor, now, c, ELEVS);
    FaultsLeaveOwn(w, floor, now, c, ELEVS);
    assert Decide(w, floor, now, c) == c;
  }
}
