/** What a step of the allocator decides about one hall order, told by who is cheapest: the outcome of all
    its phases together. */
module Decisions {
  import opened Allocator
  import opened AllocatorProperties
  import opened Config
  import opened Costs
  import opened ElevatorStates
  import opened Faults
  import opened Orders
  import opened Timers

  // Who is meant

  predicate Cheaper(states: StateSeq, floor: int, d: Elev, e: Elev) {
    Cost(states[d], floor) < Cost(states[e], floor) || (Cost(states[d], floor) == Cost(states[e], floor) && d <= e)
  }

  /** The active elevator that comes first by cost and id. */
  ghost predicate Cheapest(states: StateSeq, floor: int, e: Elev) {
    states[e].active && forall d: Elev :: states[d].active ==> Cheaper(states, floor, e, d)
  }

  /** It takes over from `prev`: it comes first of the others that may, or there is none and it is `prev`. */
  ghost predicate TakesOver(v: View, floor: int, prev: Elev, e: Elev) {
    if exists d: Elev :: d != prev && MayTakeOver(v, prev, d) then
      e != prev && MayTakeOver(v, prev, e)
      && forall d: Elev :: d != prev && MayTakeOver(v, prev, d) ==> Cheaper(v.states, floor, e, d)
    else
      e == prev
  }

  lemma TargetTakesOver(v: View, floor: int, prev: Elev)
    requires Ready(v) && IsFloor(floor) && v.numElevs != 1
    ensures IsElev(ReassignTarget(v, floor, prev)) && TakesOver(v, floor, prev, ReassignTarget(v, floor, prev))
  {
    ReassignmentChoice(v, floor, prev);
    assert v.states[v.self].active;
  }

  lemma HeadIsCheapest(v: View, floor: int, h: Elev)
    requires Ready(v) && IsFloor(floor)
    ensures Cheapest(v.states, floor, h) <==> h == SortedCosts(v.states, floor)[0].1
  {
    CheapestIsActive(v, floor);
    CheapestElevator(v.states, floor);
  }

  /** From an elevator that is not usable an order goes to the cheapest one, unless that is itself. */
  lemma UnusableGivesToCheapest(v: View, floor: int, prev: Elev, h: Elev)
    requires Ready(v) && IsFloor(floor) && v.numElevs != 1
    requires !v.states[prev].Usable() && h != prev && Cheapest(v.states, floor, h)
    ensures ReassignTarget(v, floor, prev) == h
  {
    TargetTakesOver(v, floor, prev);
    assert MayTakeOver(v, prev, h);
  }

  // Orders that are taken away

  /** The watchdog of `e` fires in this step, or `e` is active and faulty after the watchdog pass. */
  ghost predicate Loses(v: View, watchdogs: seq<Timer>, now: int, e: Elev)
    requires |watchdogs| == ELEVS
  {
    watchdogs[e].Expired(now) || e in Faulty(Checked(v, watchdogs, now).states)
  }

  /** The order is with `e`; its timer has been started afresh if `e` is this node and has just got it. */
  predicate GivenTo(c: Cell, d: Cell, e: Elev, self: int, now: int) {
    && d.live == c.live
    && d.order.AssignedTo(e) && d.order.version > c.order.version && d.order.mask == c.order.mask
    && d.timer == if e == self then Timer(true, now + REASSIGN_TIME) else c.timer
  }

  lemma MoveGives(v: View, floor: int, now: int, c: Cell, e: Elev, h: Elev)
    requires Ready(v) && IsFloor(floor) && v.numElevs != 1
    requires c.order.AssignedTo(e) && !v.states[e].Usable() && h != e && Cheapest(v.states, floor, h)
    ensures GivenTo(c, Move(v, floor, now, c, e), h, v.self, now)
  {
    UnusableGivesToCheapest(v, floor, e, h);
  }

  /** The order is with the elevator that is the cheapest after the watchdogs below `k`. */
  ghost predicate WithCheapest(v: View, watchdogs: seq<Timer>, floor: int, now: int, c: Cell, d: Cell, k: nat)
    requires |watchdogs| == ELEVS
  {
    && IsElev(d.order.assignee)
    && Cheapest(StatesAfter(v.states, watchdogs, now, k), floor, d.order.assignee)
    && GivenTo(c, d, d.order.assignee, v.self, now)
  }

  /** Watchdog `k` fires and takes the order away. */
  lemma FireGives(v: View, watchdogs: seq<Timer>, floor: int, now: int, c: Cell, d: Cell, k: Elev)
    requires ReadyToCheck(v, watchdogs) && IsFloor(floor) && watchdogs[k].Expired(now) && d.order.AssignedTo(k)
    requires d.live == c.live && d.order.version >= c.order.version && d.order.mask == c.order.mask
    requires d.timer == c.timer
    ensures var w := v.(states := StatesAfter(v.states, watchdogs, now, k + 1));
      WithCheapest(v, watchdogs, floor, now, c, Move(w, floor, now, d, k), k + 1)
  {
    var w := v.(states := StatesAfter(v.states, watchdogs, now, k + 1));
    CheckedIsReady(v, watchdogs, now, k + 1);
    FiredLeavesTwo(v, watchdogs, k);
    CheapestIsActive(w, floor);
    var a: Elev := SortedCosts(w.states, floor)[0].1;
    HeadIsCheapest(w, floor, a);
    MoveGives(w, floor, now, d, k, a);
  }

  /** An elevator that stays active keeps being the cheapest when others drop out. */
  lemma StillCheapest(v: View, watchdogs: seq<Timer>, floor: int, now: int, a: Elev, k: Elev)
    requires ReadyToCheck(v, watchdogs)
    requires Cheapest(StatesAfter(v.states, watchdogs, now, k), floor, a) && (a == k ==> !watchdogs[k].Expired(now))
    ensures Cheapest(StatesAfter(v.states, watchdogs, now, k + 1), floor, a)
  {
    var s, t := StatesAfter(v.states, watchdogs, now, k), StatesAfter(v.states, watchdogs, now, k + 1);
    forall d: Elev | t[d].active
      ensures Cheaper(t, floor, a, d)
    {
      assert s[d] == t[d] && Cheaper(s, floor, a, d);
    }
  }

  /** The next watchdog. */
  lemma PassesOn(v: View, watchdogs: seq<Timer>, floor: int, now: int, c: Cell, d: Cell, k: Elev)
    requires ReadyToCheck(v, watchdogs) && IsFloor(floor) && WithCheapest(v, watchdogs, floor, now, c, d, k)
    ensures var w := v.(states := StatesAfter(v.states, watchdogs, now, k + 1));
      var q := if watchdogs[k].Expired(now) then Move(w, floor, now, d, k) else d;
      WithCheapest(v, watchdogs, floor, now, c, q, k + 1)
  {
    if watchdogs[k].Expired(now) && d.order.assignee == k {
      FireGives(v, watchdogs, floor, now, c, d, k);
    } else {
      StillCheapest(v, watchdogs, floor, now, d.order.assignee, k);
    }
  }

  lemma {:induction false} PassLeavesBefore(v: View, watchdogs: seq<Timer>, floor: int, now: int, c: Cell,
      e: Elev, k: nat)
    requires |watchdogs| == ELEVS && k <= e && c.order.AssignedTo(e)
    ensures WatchdogPhase(v, watchdogs, floor, now, c, k) == c
  {
    if k > 0 {
      PassLeavesBefore(v, watchdogs, floor, now, c, e, k - 1);
    }
  }

  lemma FirstToFire(v: View, watchdogs: seq<Timer>, floor: int, now: int, c: Cell, e: Elev, k: nat)
    requires ReadyToCheck(v, watchdogs) && IsFloor(floor) && c.order.AssignedTo(e) && watchdogs[e].Expired(now)
    requires k == e + 1
    ensures WithCheapest(v, watchdogs, floor, now, c, WatchdogPhase(v, watchdogs, floor, now, c, k), k)
  {
    PassLeavesBefore(v, watchdogs, floor, now, c, e, e);
    FireGives(v, watchdogs, floor, now, c, c, e);
    PassStep(v, watchdogs, floor, now, c, e);
  }

  lemma NextToFire(v: View, watchdogs: seq<Timer>, floor: int, now: int, c: Cell, j: Elev, k: nat)
    requires ReadyToCheck(v, watchdogs) && IsFloor(floor) && k == j + 1
    requires WithCheapest(v, watchdogs, floor, now, c, WatchdogPhase(v, watchdogs, floor, now, c, j), j)
    ensures WithCheapest(v, watchdogs, floor, now, c, WatchdogPhase(v, watchdogs, floor, now, c, k), k)
  {
    PassesOn(v, watchdogs, floor, now, c, WatchdogPhase(v, watchdogs, floor, now, c, j), j);
    PassStep(v, watchdogs, floor, now, c, j);
  }

  /** The watchdog pass takes an order from an elevator that has fallen silent to the one that is the cheapest
      in the end, however many others fall silent with it. */
  lemma {:induction false} SilentGivesToCheapest(v: View, watchdogs: seq<Timer>, floor: int, now: int, c: Cell,
      e: Elev, k: nat)
    requires ReadyToCheck(v, watchdogs) && IsFloor(floor) && e < k <= ELEVS
    requires c.order.AssignedTo(e) && watchdogs[e].Expired(now)
    ensures WithCheapest(v, watchdogs, floor, now, c, WatchdogPhase(v, watchdogs, floor, now, c, k), k)
  {
    if k == e + 1 {
      FirstToFire(v, watchdogs, floor, now, c, e, k);
    } else {
      SilentGivesToCheapest(v, watchdogs, floor, now, c, e, k - 1);
      NextToFire(v, watchdogs, floor, now, c, k - 1, k);
    }
  }

  lemma {:induction false} FaultsLeaveBefore(v: View, floor: int, now: int, c: Cell, e: Elev, k: nat)
    requires k <= e && c.order.AssignedTo(e)
    ensures FaultPhase(v, floor, now, c, k) == c
  {
    if k > 0 {
      FaultsLeaveBefore(v, floor, now, c, e, k - 1);
    }
  }

  lemma FaultStep(v: View, floor: int, now: int, c: Cell, h: Elev, k: Elev)
    requires h !in Faulty(v.states) && FaultPhase(v, floor, now, c, k).order.AssignedTo(h)
    ensures FaultPhase(v, floor, now, c, k + 1) == FaultPhase(v, floor, now, c, k)
  {
  }

  /** The fault pass takes it from a faulty one, if the cheapest works. */
  lemma {:induction false} FaultyGivesToCheapest(v: View, floor: int, now: int, c: Cell, e: Elev, h: Elev, k: nat)
    requires Ready(v) && IsFloor(floor) && v.numElevs != 1 && e < k <= ELEVS
    requires c.order.AssignedTo(e) && e in Faulty(v.states) && Cheapest(v.states, floor, h) && h !in Faulty(v.states)
    ensures GivenTo(c, FaultPhase(v, floor, now, c, k), h, v.self, now)
  {
    if k == e + 1 {
      FaultsLeaveBefore(v, floor, now, c, e, e);
      MoveGives(v, floor, now, c, e, h);
    } else {
      FaultyGivesToCheapest(v, floor, now, c, e, h, k - 1);
      FaultStep(v, floor, now, c, h, k - 1);
    }
  }

  // The outcome for a confirmed order

  lemma PassesLeave(v: View, watchdogs: seq<Timer>, floor: int, now: int, c: Cell, e: Elev)
    requires ReadyToCheck(v, watchdogs) && c.order.AssignedTo(e) && !Loses(v, watchdogs, now, e)
    ensures var d := WatchdogPhase(v, watchdogs, floor, now, c, ELEVS);
      FaultPhase(Checked(v, watchdogs, now), floor, now, d, ELEVS) == c
  {
    if v.states[e].active {
      PassLeavesActive(v, watchdogs, floor, now, c, e, ELEVS);
    } else {
      PassLeavesInactive(v, watchdogs, floor, now, c, e, ELEVS);
    }
    FaultsLeaveWorking(Checked(v, watchdogs, now), floor, now, c, e, ELEVS);
  }

  lemma OneCheapest(states: StateSeq, floor: int, d: Elev, e: Elev)
    requires Cheapest(states, floor, d) && Cheapest(states, floor, e)
    ensures d == e
  {
    assert Cheaper(states, floor, d, e) && Cheaper(states, floor, e, d);
  }

  lemma SilentPassesGive(v: View, watchdogs: seq<Timer>, floor: int, now: int, c: Cell, e: Elev, h: Elev)
    requires ReadyToCheck(v, watchdogs) && IsFloor(floor) && c.order.AssignedTo(e) && watchdogs[e].Expired(now)
    requires var w := Checked(v, watchdogs, now); Cheapest(w.states, floor, h) && h !in Faulty(w.states)
    ensures var d := WatchdogPhase(v, watchdogs, floor, now, c, ELEVS);
      GivenTo(c, FaultPhase(Checked(v, watchdogs, now), floor, now, d, ELEVS), h, v.self, now)
  {
    var w, d := Checked(v, watchdogs, now), WatchdogPhase(v, watchdogs, floor, now, c, ELEVS);
    SilentGivesToCheapest(v, watchdogs, floor, now, c, e, ELEVS);
    OneCheapest(w.states, floor, d.order.assignee, h);
    FaultsLeaveWorking(w, floor, now, d, h, ELEVS);
  }

  lemma TwoRemain(v: View, watchdogs: seq<Timer>, now: int, e: Elev, h: Elev)
    requires ReadyToCheck(v, watchdogs) && e != h
    requires Checked(v, watchdogs, now).states[e].active && Checked(v, watchdogs, now).states[h].active
    ensures v.numElevs >= 2
  {
    TwoActive(v.states, if e < h then e else h, if e < h then h else e);
  }

  lemma FaultyPassesGive(v: View, watchdogs: seq<Timer>, floor: int, now: int, c: Cell, e: Elev, h: Elev)
    requires ReadyToCheck(v, watchdogs) && IsFloor(floor) && c.order.AssignedTo(e) && !watchdogs[e].Expired(now)
    requires var w := Checked(v, watchdogs, now);
      e in Faulty(w.states) && Cheapest(w.states, floor, h) && h !in Faulty(w.states)
    ensures var d := WatchdogPhase(v, watchdogs, floor, now, c, ELEVS);
      GivenTo(c, FaultPhase(Checked(v, watchdogs, now), floor, now, d, ELEVS), h, v.self, now)
  {
    var w := Checked(v, watchdogs, now);
    CheckedIsReady(v, watchdogs, now, ELEVS);
    PassLeavesActive(v, watchdogs, floor, now, c, e, ELEVS);
    TwoRemain(v, watchdogs, now, e, h);
    FaultyGivesToCheapest(w, floor, now, c, e, h, ELEVS);
  }

  lemma PassesGive(v: View, watchdogs: seq<Timer>, floor: int, now: int, c: Cell, e: Elev, h: Elev)
    requires ReadyToCheck(v, watchdogs) && IsFloor(floor) && c.order.AssignedTo(e) && Loses(v, watchdogs, now, e)
    requires var w := Checked(v, watchdogs, now); Cheapest(w.states, floor, h) && h !in Faulty(w.states)
    ensures var d := WatchdogPhase(v, watchdogs, floor, now, c, ELEVS);
      GivenTo(c, FaultPhase(Checked(v, watchdogs, now), floor, now, d, ELEVS), h, v.self, now)
  {
    if watchdogs[e].Expired(now) {
      SilentPassesGive(v, watchdogs, floor, now, c, e, h);
    } else {
      FaultyPassesGive(v, watchdogs, floor, now, c, e, h);
    }
  }

  /** From `e` to whoever takes over, in a newer version. A single elevator keeps it. */
  ghost predicate Reassigned(w: View, floor: int, e: Elev, o: Order, q: Order) {
    && q.status.Confirmed? && IsElev(q.assignee) && q.version > o.version && q.mask == o.mask
    && if w.numElevs == 1 then q.assignee == e else TakesOver(w, floor, e, q.assignee)
  }

  lemma LateReassigned(w: View, floor: int, now: int, d: Cell, e: Elev)
    requires Ready(w) && IsFloor(floor) && d.order.AssignedTo(e) && d.timer.Expired(now)
    ensures var q := TimeoutPhase(w, floor, now, d).order;
      Reassigned(w, floor, e, d.order, q) && q.version == d.order.version + 1
  {
    if w.numElevs != 1 {
      TargetTakesOver(w, floor, e);
    }
  }

  lemma ConfirmedDecide(w: View, floor: int, now: int, c: Cell)
    requires FaultPhase(w, floor, now, c, ELEVS).order.status.Confirmed?
    ensures Decide(w, floor, now, c) == TimeoutPhase(w, floor, now, FaultPhase(w, floor, now, c, ELEVS))
  {
  }

  /** Its time is up, unless it comes to this node in this very step. */
  ghost predicate Due(v: View, watchdogs: seq<Timer>, now: int, c: Cell, e: Elev, h: Elev)
    requires |watchdogs| == ELEVS
  {
    c.timer.Expired(now) && !(Loses(v, watchdogs, now, e) && h == v.self)
  }

  /** What becomes of a confirmed order, all phases together. An elevator that falls silent or is faulty
      loses it to the cheapest one; and if its time is up, the one that has it by then loses it to
      whoever takes over. Otherwise it stays as it is. */
  lemma ConfirmedOutcome(v: View, watchdogs: seq<Timer>, floor: int, now: int, c: Cell, e: Elev, h: Elev)
    requires ReadyToCheck(v, watchdogs) && IsFloor(floor) && c.order.AssignedTo(e)
    requires var w := Checked(v, watchdogs, now);
      Cheapest(w.states, floor, h) && (Loses(v, watchdogs, now, e) ==> h !in Faulty(w.states))
    ensures var q, w := CellStep(v, watchdogs, floor, now, c).order, Checked(v, watchdogs, now);
      var taken := Loses(v, watchdogs, now, e);
      if Due(v, watchdogs, now, c, e, h) then
        Reassigned(w, floor, if taken then h else e, c.order, q) && (!taken ==> q.version == c.order.version + 1)
      else if taken then q.AssignedTo(h) && q.version > c.order.version && q.mask == c.order.mask
      else q == c.order
  {
    var w := Checked(v, watchdogs, now);
    var p := WatchdogPhase(v, watchdogs, floor, now, c, ELEVS);
    var d := FaultPhase(w, floor, now, p, ELEVS);
    CheckedIsReady(v, watchdogs, now, ELEVS);
    if Loses(v, watchdogs, now, e) {
      PassesGive(v, watchdogs, floor, now, c, e, h);
    } else {
      PassesLeave(v, watchdogs, floor, now, c, e);
    }
    ConfirmedDecide(w, floor, now, p);
    if d.timer.Expired(now) {
      LateReassigned(w, floor, now, d, d.order.assignee);
    }
  }

  // The outcome for other orders

  /** All active elevators have seen the request once this node has. */
  ghost predicate SeenByAll(w: View, o: Order) {
    forall e: Elev :: w.states[e].active && e != w.self ==> e in o.mask
  }

  lemma SeenIs(w: View, o: Order)
    ensures SeenByAll(w, o) <==> ObservedByAll(w.states, o.(mask := o.mask + {w.self}))
  {
    if SeenByAll(w, o) {
      forall e | 0 <= e < ELEVS && w.states[e].active
        ensures e in o.mask + {w.self}
      {
        var d: Elev := e;
      }
    } else {
      var e: Elev :| w.states[e].active && e != w.self && e !in o.mask;
      assert e !in o.mask + {w.self};
    }
  }

  lemma ObservePhaseIs(w: View, c: Cell)
    requires c.order.status.Requested?
    ensures ObservePhase(w, c) == c.(order := c.order.(mask := c.order.mask + {w.self}))
  {
    if w.self in c.order.mask {
      assert c.order.mask + {w.self} == c.order.mask;
    }
  }

  lemma RequestDecide(w: View, floor: int, now: int, c: Cell, h: Elev)
    requires Ready(w) && IsFloor(floor) && c.order.status.Requested? && Cheapest(w.states, floor, h)
    ensures var q, seen := Decide(w, floor, now, c).order, c.order.mask + {w.self};
      if !SeenByAll(w, c.order) then q == c.order.(mask := seen)
      else if c.timer.Expired(now) && h != w.self then
        Reassigned(w, floor, h, Order(c.order.version + 1, Confirmed, h, seen), q)
      else q == Order(c.order.version + 1, Confirmed, h, seen)
  {
    FaultsLeaveUnconfirmed(w, floor, now, c, ELEVS);
    ObservePhaseIs(w, c);
    SeenIs(w, c.order);
    HeadIsCheapest(w, floor, h);
    CheapestIsActive(w, floor);
    var d := ConfirmPhase(w, floor, now, ObservePhase(w, c));
    if d.order.status.Confirmed? && d.timer.Expired(now) {
      LateReassigned(w, floor, now, d, h);
    }
  }

  /** What becomes of a request: this node has seen it, and once all active elevators have, the cheapest
      one gets it. (A timer that has been left running since it was an order of this node's takes it away
      again at once.) */
  lemma RequestOutcome(v: View, watchdogs: seq<Timer>, floor: int, now: int, c: Cell, h: Elev)
    requires ReadyToCheck(v, watchdogs) && IsFloor(floor) && c.order.status.Requested?
    requires Cheapest(Checked(v, watchdogs, now).states, floor, h)
    ensures var q, w := CellStep(v, watchdogs, floor, now, c).order, Checked(v, watchdogs, now);
      var seen := c.order.mask + {v.self};
      if !SeenByAll(w, c.order) then q == c.order.(mask := seen)
      else if c.timer.Expired(now) && h != v.self then
        Reassigned(w, floor, h, Order(c.order.version + 1, Confirmed, h, seen), q)
      else q == Order(c.order.version + 1, Confirmed, h, seen)
  {
    CheckedIsReady(v, watchdogs, now, ELEVS);
    PassLeavesUnconfirmed(v, watchdogs, floor, now, c, ELEVS);
    RequestDecide(Checked(v, watchdogs, now), floor, now, c, h);
  }

  /** A cleared order becomes blank in the next version, and a blank one stays as it is. */
  lemma RestOutcome(v: View, watchdogs: seq<Timer>, floor: int, now: int, c: Cell)
    requires |watchdogs| == ELEVS && IsElev(v.self) && (c.order.status.Clear? || c.order.status.NoOrder?)
    ensures CellStep(v, watchdogs, floor, now, c).order ==
      if c.order.status.Clear? then c.order.(version := c.order.version + 1, status := NoOrder) else c.order
  {
    PassLeavesUnconfirmed(v, watchdogs, floor, now, c, ELEVS);
    FaultsLeaveUnconfirmed(Checked(v, watchdogs, now), floor, now, c, ELEVS);
  }

  // Timers

  /** The order is as it was, and so is its timer; or it is newer, and if it has come to this node, its timer
      has been started in this step. */
  predicate Timed(c: Cell, d: Cell, self: int, now: int) {
    || d == c.(live := d.live)
    || (c.order.version < d.order.version && (d.order.AssignedTo(self) ==> d.timer == Timer(true, now + REASSIGN_TIME)))
  }

  lemma {:induction false} PassTimes(v: View, watchdogs: seq<Timer>, floor: int, now: int, c: Cell, k: nat)
    requires |watchdogs| == ELEVS && k <= ELEVS
    ensures var d := WatchdogPhase(v, watchdogs, floor, now, c, k); d.live ==> Timed(c, d, v.self, now)
  {
    if k > 0 {
      PassTimes(v, watchdogs, floor, now, c, k - 1);
    }
  }

  lemma {:induction false} FaultsTime(v: View, floor: int, now: int, c: Cell, d: Cell, k: nat)
    requires k <= ELEVS && (d.live ==> Timed(c, d, v.self, now))
    ensures var q := FaultPhase(v, floor, now, d, k); q.live ==> Timed(c, q, v.self, now)
  {
    if k > 0 {
      FaultsTime(v, floor, now, c, d, k - 1);
    }
  }

  /** A node whose door is obstructed keeps its orders a short time only. */
  function Limited(v: View, now: int, t: Timer): Timer
    requires IsElev(v.self)
  {
    if v.states[v.self].obstruction && t.deadline - now > OBSTRUCTION_REASSIGN_TIME + 5 * SAMPLE_TIME then
      Timer(true, now + OBSTRUCTION_REASSIGN_TIME)
    else t
  }

  lemma DecideTimes(w: View, floor: int, now: int, c: Cell, d: Cell)
    requires IsElev(w.self) && (d.live ==> Timed(c, d, w.self, now)) && Decide(w, floor, now, d).live
    requires Decide(w, floor, now, d).order.AssignedTo(w.self)
    ensures var q := Decide(w, floor, now, d);
      if q.order == c.order then q.timer == c.timer else q.timer == Timer(true, now + REASSIGN_TIME)
  {
    FaultsTime(w, floor, now, c, d, ELEVS);
  }

  /** The timer of an order that is this node's after a step: it goes on if the order is the same as before
      and its timer ran, and starts afresh otherwise. Only one that runs already is cut short. */
  lemma TimerOutcome(v: View, watchdogs: seq<Timer>, floor: int, now: int, c: Cell)
    requires ReadyToCheck(v, watchdogs) && IsFloor(floor) && Avoids(c, {})
    requires CellStep(v, watchdogs, floor, now, c).order.AssignedTo(v.self)
    ensures var d := CellStep(v, watchdogs, floor, now, c);
      d.timer ==
        if d.order != c.order then Limited(v, now, Timer(true, now + REASSIGN_TIME))
        else if c.timer.active then Limited(v, now, c.timer)
        else Timer(true, now + REASSIGN_TIME)
  {
    var w := Checked(v, watchdogs, now);
    HandOver(v, watchdogs, floor, now, c);
    PassTimes(v, watchdogs, floor, now, c, ELEVS);
    DecideTimes(w, floor, now, c, WatchdogPhase(v, watchdogs, floor, now, c, ELEVS));
  }
}
