/** Work and faults: when an elevator that reports a fault is left without hall orders. */
module Faults {
  import opened Allocator
  import opened AllocatorProperties
  import opened Config
  import opened Costs
  import opened ElevatorStates
  import opened Orders
  import opened Timers

  function Faulty(states: StateSeq): set<int> {
    set e | 0 <= e < ELEVS && states[e].active && states[e].fault
  }

  /** An elevator that works, though its door may be obstructed or it may be stopped, and that comes before
      `e` in the table of costs. */
  predicate Ahead(states: StateSeq, floor: int, u: Elev, e: Elev) {
    && states[u].active && !states[u].fault
    && u != e && Before((Cost(states[u], floor), u), (Cost(states[e], floor), e))
  }

  /** There is a usable one ahead of `e`, or there are two. */
  ghost predicate SparedBy(states: StateSeq, floor: int, e: Elev) {
    exists u: Elev, t: Elev ::
      Ahead(states, floor, u, e) && Ahead(states, floor, t, e) && (u != t || states[u].Usable())
  }

  /** That is so for every faulty elevator. */
  ghost predicate Spared(states: StateSeq, floor: int) {
    forall e: Elev {:trigger SparedBy(states, floor, e)} :: e in Faulty(states) ==> SparedBy(states, floor, e)
  }

  /** In a building that is not too tall one usable elevator is enough. */
  lemma LowBuilding(states: StateSeq, floor: int)
    requires FLOORS <= 55 && IsFloor(floor) && Reporting(states) && SomeUsable(states)
    ensures Spared(states, floor)
  {
    var u: Elev :| states[u].Usable();
    CostBounds(states[u], floor);
    forall e: Elev | e in Faulty(states)
      ensures SparedBy(states, floor, e)
    {
      CostBounds(states[e], floor);
      assert Ahead(states, floor, u, e);
    }
  }

  // Choices

  /** Also without `prev`, if that one is not usable. */
  lemma CandidateAhead(v: View, floor: int, prev: Elev, e: Elev) returns (w: Elev)
    requires Ready(v) && IsFloor(floor) && SparedBy(v.states, floor, e) && !v.states[prev].Usable()
    ensures Ahead(v.states, floor, w, e) && Candidate(v.states, floor, prev, false, w)
  {
    var u: Elev, t: Elev :| Ahead(v.states, floor, u, e) && Ahead(v.states, floor, t, e)
      && (u != t || v.states[u].Usable());
    w := if u != prev then u else t;
    ActiveCostsLess(v.states[w], floor);
  }

  /** What is taken from an elevator that is not usable goes to the cheapest other one. */
  lemma FirstOther(v: View, floor: int, prev: Elev, e: Elev, w: Elev)
    requires Candidate(v.states, floor, prev, false, w) && Ahead(v.states, floor, w, e)
    requires v.numElevs != 1 && !v.states[prev].Usable()
    ensures ReassignTarget(v, floor, prev) != e
  {
    CheapestCandidate(v.states, floor, prev, false);
  }

  lemma TargetIsNotFaulty(v: View, floor: int, prev: int)
    requires Ready(v) && IsFloor(floor) && Spared(v.states, floor)
    requires IsElev(prev) && (prev !in Faulty(v.states) || v.numElevs != 1)
    ensures IsElev(ReassignTarget(v, floor, prev)) && ReassignTarget(v, floor, prev) !in Faulty(v.states)
  {
    TargetIsActive(v, floor, prev);
    if v.numElevs != 1 {
      if v.states[prev].Usable() {
        CheapestCandidate(v.states, floor, prev, true);
      } else {
        forall e: Elev | e in Faulty(v.states)
          ensures ReassignTarget(v, floor, prev) != e
        {
          assert SparedBy(v.states, floor, e);
          var w := CandidateAhead(v, floor, prev, e);
          FirstOther(v, floor, prev, e, w);
        }
      }
    }
  }

  lemma CheapestIsNotFaulty(v: View, floor: int)
    requires Ready(v) && IsFloor(floor) && Spared(v.states, floor)
    ensures var best := SortedCosts(v.states, floor)[0];
      IsElev(best.1) && best.1 !in Faulty(v.states)
  {
    CheapestElevator(v.states, floor);
    var best := SortedCosts(v.states, floor)[0].1;
    assert best in Faulty(v.states) ==> SparedBy(v.states, floor, best);
  }

  lemma FaultyAreShunned(v: View, floor: int)
    requires Ready(v) && IsFloor(floor) && Spared(v.states, floor)
    ensures Shuns(v, floor, Faulty(v.states))
  {
    forall prev | IsElev(prev) && prev !in Faulty(v.states)
      ensures IsElev(ReassignTarget(v, floor, prev)) && ReassignTarget(v, floor, prev) !in Faulty(v.states)
    {
      TargetIsNotFaulty(v, floor, prev);
    }
    CheapestIsNotFaulty(v, floor);
  }

  // The step

  ghost function FaultyBelow(states: StateSeq, k: nat): set<int> { set e | e in Faulty(states) && e < k }

  lemma {:induction false} FaultPhaseEvicts(v: View, floor: int, now: int, c: Cell, k: nat)
    requires forall e :: e in Faulty(v.states) ==>
      IsElev(ReassignTarget(v, floor, e)) && ReassignTarget(v, floor, e) !in Faulty(v.states)
    requires k <= ELEVS && Avoids(c, {})
    ensures Avoids(FaultPhase(v, floor, now, c, k), FaultyBelow(v.states, k))
  {
    if k > 0 {
      FaultPhaseEvicts(v, floor, now, c, k - 1);
      var d := FaultPhase(v, floor, now, c, k - 1);
      if k - 1 in Faulty(v.states) && d.order.AssignedTo(k - 1) {
        GiveToAvoids(d, ReassignTarget(v, floor, k - 1), v.self, now, FaultyBelow(v.states, k));
      }
    }
  }

  /** A faulty elevator and one ahead of it make two, so the single-elevator rule does not apply. */
  lemma FaultyLeavesTwo(v: View, watchdogs: seq<Timer>, floor: int, now: int, e: Elev)
    requires ReadyToCheck(v, watchdogs) && e in Faulty(Checked(v, watchdogs, now).states)
    requires SparedBy(Checked(v, watchdogs, now).states, floor, e)
    ensures v.numElevs >= 2
  {
    var u: Elev :| Ahead(Checked(v, watchdogs, now).states, floor, u, e);
    TwoActive(v.states, if e < u then e else u, if e < u then u else e);
  }

  lemma DecideEvicts(v: View, floor: int, now: int, c: Cell)
    requires Ready(v) && IsFloor(floor) && Spared(v.states, floor)
    requires Faulty(v.states) != {} ==> v.numElevs != 1
    requires Avoids(c, {})
    ensures Avoids(Decide(v, floor, now, c), Faulty(v.states))
  {
    forall e | e in Faulty(v.states)
      ensures IsElev(ReassignTarget(v, floor, e)) && ReassignTarget(v, floor, e) !in Faulty(v.states)
    {
      TargetIsNotFaulty(v, floor, e);
    }
    FaultPhaseEvicts(v, floor, now, c, ELEVS);
    assert FaultyBelow(v.states, ELEVS) == Faulty(v.states);
    FaultyAreShunned(v, floor);
    LaterPhasesAvoid(v, floor, now, FaultPhase(v, floor, now, c, ELEVS), Faulty(v.states));
  }

  /** Faulty elevators hold no work, in any building: if the working ones come first as `Spared` says,
      after the watchdog pass, then no confirmed hall order is left with an active faulty elevator. */
  lemma FaultyHoldNoWork(v: View, watchdogs: seq<Timer>, floor: int, now: int, c: Cell)
    requires ReadyToCheck(v, watchdogs) && IsFloor(floor) && Avoids(c, {})
    requires Spared(Checked(v, watchdogs, now).states, floor)
    ensures Avoids(CellStep(v, watchdogs, floor, now, c), Faulty(Checked(v, watchdogs, now).states))
  {
    var w := Checked(v, watchdogs, now);
    var d := WatchdogPhase(v, watchdogs, floor, now, c, ELEVS);
    CheckedIsReady(v, watchdogs, now, ELEVS);
    WatchdogPhaseAvoids(v, watchdogs, floor, now, c, ELEVS);
    AvoidsFewer(d, FiredBelow(watchdogs, now, ELEVS), {});
    if e: Elev :| e in Faulty(w.states) {
      assert SparedBy(w.states, floor, e);
      FaultyLeavesTwo(v, watchdogs, floor, now, e);
    }
    DecideEvicts(w, floor, now, d);
  }

  // Where it fails

  /** A faulty elevator that is the cheapest of all gets every request that has been seen. */
  lemma FaultyGetsRequests(v: View, watchdogs: seq<Timer>, floor: int, now: int, c: Cell)
    requires ReadyToCheck(v, watchdogs) && IsFloor(floor) && c.order.status.Requested? && !c.timer.active
    requires ObservedByAll(Checked(v, watchdogs, now).states, c.order.AfterObserve(v.self))
    requires SortedCosts(Checked(v, watchdogs, now).states, floor)[0].1 in Faulty(Checked(v, watchdogs, now).states)
    ensures !Avoids(CellStep(v, watchdogs, floor, now, c), Faulty(Checked(v, watchdogs, now).states))
  {
    RequestGoesToHead(v, watchdogs, floor, now, c);
  }

  /** If it comes right after one that is not usable, it gets the order that this one is too slow for. */
  lemma FaultyIsNext(w: View, floor: int, h: Elev, e: Elev)
    requires Ready(w) && IsFloor(floor) && w.numElevs != 1
    requires h == SortedCosts(w.states, floor)[0].1 && h !in Faulty(w.states)
    requires e in Faulty(w.states) && !SparedBy(w.states, floor, e)
    ensures w.states[h].active && !w.states[h].Usable() && ReassignTarget(w, floor, h) in Faulty(w.states)
  {
    CheapestElevator(w.states, floor);
    CheapestIsActive(w, floor);
    assert Ahead(w.states, floor, h, e);
    CheapestCandidate(w.states, floor, h, false);
    ActiveCostsLess(w.states[e], floor);
    var t := ReassignTarget(w, floor, h);
    assert Candidate(w.states, floor, h, false, e) && IsElev(t);
    ActiveCostsLess(w.states[t], floor);
    assert Ahead(w.states, floor, t, e) ==> t == h;
  }

  /** What it takes over: an order of `h` whose time is up. */
  function Late(h: Elev, now: int): Cell { Cell(Order(1, Confirmed, h, {}), Timer(true, now), true) }

  lemma {:induction false} PassLeavesActive(v: View, watchdogs: seq<Timer>, floor: int, now: int, c: Cell,
      h: Elev, k: nat)
    requires |watchdogs| == ELEVS && k <= ELEVS && c.order.AssignedTo(h) && Checked(v, watchdogs, now).states[h].active
    ensures WatchdogPhase(v, watchdogs, floor, now, c, k) == c
  {
    if k > 0 {
      PassLeavesActive(v, watchdogs, floor, now, c, h, k - 1);
    }
  }

  lemma {:induction false} FaultsLeaveWorking(v: View, floor: int, now: int, c: Cell, h: Elev, k: nat)
    requires k <= ELEVS && c.order.AssignedTo(h) && h !in Faulty(v.states)
    ensures FaultPhase(v, floor, now, c, k) == c
  {
    if k > 0 {
      FaultsLeaveWorking(v, floor, now, c, h, k - 1);
    }
  }

  lemma LatePassed(v: View, watchdogs: seq<Timer>, floor: int, now: int, h: Elev)
    requires ReadyToCheck(v, watchdogs) && IsFloor(floor)
    requires var w := Checked(v, watchdogs, now);
      && w.states[h].active && h !in Faulty(w.states)
      && ReassignTarget(w, floor, h) in Faulty(w.states)
    ensures !Avoids(CellStep(v, watchdogs, floor, now, Late(h, now)), Faulty(Checked(v, watchdogs, now).states))
  {
    var w, c := Checked(v, watchdogs, now), Late(h, now);
    PassLeavesActive(v, watchdogs, floor, now, c, h, ELEVS);
    FaultsLeaveWorking(w, floor, now, c, h, ELEVS);
    assert Decide(w, floor, now, c) == TimeoutPhase(w, floor, now, c);
  }

  /** In this view a step leaves no order with a faulty elevator, whatever the order and its timer. */
  ghost predicate RelievesAll(v: View, watchdogs: seq<Timer>, floor: int, now: int)
    requires |watchdogs| == ELEVS && IsElev(v.self)
  {
    forall c: Cell :: Avoids(c, {}) ==>
      Avoids(CellStep(v, watchdogs, floor, now, c), Faulty(Checked(v, watchdogs, now).states))
  }

  ghost const SEEN_REQUEST := Cell(Order(1, Requested, -1, Everyone()), OFF, true)

  lemma FaultyGetsSeen(v: View, watchdogs: seq<Timer>, floor: int, now: int)
    requires ReadyToCheck(v, watchdogs) && IsFloor(floor)
    requires SortedCosts(Checked(v, watchdogs, now).states, floor)[0].1 in Faulty(Checked(v, watchdogs, now).states)
    ensures !RelievesAll(v, watchdogs, floor, now)
  {
    assert SEEN_REQUEST.order.AfterObserve(v.self) == SEEN_REQUEST.order;
    assert Avoids(SEEN_REQUEST, {});
    FaultyGetsRequests(v, watchdogs, floor, now, SEEN_REQUEST);
  }

  lemma FaultyGetsLate(v: View, watchdogs: seq<Timer>, floor: int, now: int, h: Elev, e: Elev)
    requires ReadyToCheck(v, watchdogs) && IsFloor(floor) && e in Faulty(Checked(v, watchdogs, now).states)
    requires !SparedBy(Checked(v, watchdogs, now).states, floor, e)
    requires h == SortedCosts(Checked(v, watchdogs, now).states, floor)[0].1
    requires Checked(v, watchdogs, now).states[h].active && h !in Faulty(Checked(v, watchdogs, now).states)
    ensures !RelievesAll(v, watchdogs, floor, now)
  {
    CheckedIsReady(v, watchdogs, now, ELEVS);
    TwoActive(v.states, if e < h then e else h, if e < h then h else e);
    FaultyIsNext(Checked(v, watchdogs, now), floor, h, e);
    LatePassed(v, watchdogs, floor, now, h);
    assert Avoids(Late(h, now), {});
  }

  lemma FaultyGetsSome(v: View, watchdogs: seq<Timer>, floor: int, now: int, e: Elev)
    requires ReadyToCheck(v, watchdogs) && IsFloor(floor) && e in Faulty(Checked(v, watchdogs, now).states)
    requires !SparedBy(Checked(v, watchdogs, now).states, floor, e)
    ensures !RelievesAll(v, watchdogs, floor, now)
  {
    var w := Checked(v, watchdogs, now);
    CheckedIsReady(v, watchdogs, now, ELEVS);
    CheapestIsActive(w, floor);
    var h := SortedCosts(w.states, floor)[0].1;
    if h in Faulty(w.states) {
      FaultyGetsSeen(v, watchdogs, floor, now);
    } else {
      FaultyGetsLate(v, watchdogs, floor, now, h, e);
    }
  }

  /** The condition is exact. */
  lemma FaultyRelieved(v: View, watchdogs: seq<Timer>, floor: int, now: int)
    requires ReadyToCheck(v, watchdogs) && IsFloor(floor)
    ensures RelievesAll(v, watchdogs, floor, now) <==> Spared(Checked(v, watchdogs, now).states, floor)
  {
    var states := Checked(v, watchdogs, now).states;
    if Spared(states, floor) {
      forall c: Cell | Avoids(c, {})
        ensures Avoids(CellStep(v, watchdogs, floor, now, c), Faulty(states))
      {
        FaultyHoldNoWork(v, watchdogs, floor, now, c);
      }
    } else {
      var e: Elev :| e in Faulty(states) && !SparedBy(states, floor, e);
      FaultyGetsSome(v, watchdogs, floor, now, e);
    }
  }

  // Buildings

  /** One step, in one view: with a usable elevator left, no faulty one holds the order afterwards. */
  ghost predicate Relieved(v: View, watchdogs: seq<Timer>, floor: int, now: int, c: Cell)
    requires |watchdogs| == ELEVS && IsElev(v.self)
  {
    SomeUsable(Checked(v, watchdogs, now).states) ==>
      Avoids(CellStep(v, watchdogs, floor, now, c), Faulty(Checked(v, watchdogs, now).states))
  }

  /** That this is so whatever the elevators report. */
  ghost predicate FaultyRule() {
    forall v: View, watchdogs: seq<Timer>, floor, now, c: Cell ::
      ReadyToCheck(v, watchdogs) && Reporting(v.states) && IsFloor(floor) && Avoids(c, {}) ==>
        Relieved(v, watchdogs, floor, now, c)
  }

  lemma LowBuildingRelieves(v: View, watchdogs: seq<Timer>, floor: int, now: int, c: Cell)
    requires ReadyToCheck(v, watchdogs) && Reporting(v.states) && IsFloor(floor) && Avoids(c, {})
    requires FLOORS <= 55 || ELEVS == 1
    ensures Relieved(v, watchdogs, floor, now, c)
  {
    var w := Checked(v, watchdogs, now);
    if SomeUsable(w.states) {
      if FLOORS <= 55 {
        LowBuilding(w.states, floor);
      } else {
        assert Faulty(w.states) == {};
      }
      FaultyHoldNoWork(v, watchdogs, floor, now, c);
    }
  }

  /** A usable elevator with all its work ahead of it, and a faulty one that stands where it is
      needed. */
  function TallStates(): StateSeq
    requires ELEVS > 1
  {
    [Busiest(), NearestFaulty()] + seq(ELEVS - 2, _ => Unknown())
  }

  function TallView(): View
    requires ELEVS > 1
  {
    View(0, ActiveCount(TallStates()), TallStates())
  }

  const QUIET: seq<Timer> := seq(ELEVS, _ => OFF)

  lemma TallViewIsReady()
    requires FLOORS > 1 && ELEVS > 1
    ensures ReadyToCheck(TallView(), QUIET) && Reporting(TallStates()) && SomeUsable(TallStates())
    ensures Checked(TallView(), QUIET, 0) == TallView()
    ensures Avoids(SEEN_REQUEST, {}) && ObservedByAll(TallStates(), SEEN_REQUEST.order.AfterObserve(0))
  {
    ExtremeCosts();
    assert TallStates()[0].Usable();
    assert StatesAfter(TallStates(), QUIET, 0, ELEVS) == TallStates();
  }

  /** In a tall building the faulty one is cheaper. */
  lemma FaultyIsCheapest()
    requires FLOORS > 55 && ELEVS > 1
    ensures SortedCosts(TallStates(), FLOORS - 1)[0].1 == 1
  {
    ExtremeCosts();
    forall e | IsElev(e) && e != 1
      ensures Cost(TallStates()[e], FLOORS - 1) > PENALTY_FAULT
    {
    }
    CheapestElevator(TallStates(), FLOORS - 1);
    assert Cost(TallStates()[1], FLOORS - 1) == PENALTY_FAULT;
  }

  lemma TallBuilding()
    requires FLOORS > 55 && ELEVS > 1
    ensures !Relieved(TallView(), QUIET, FLOORS - 1, 0, SEEN_REQUEST)
  {
    TallViewIsReady();
    FaultyIsCheapest();
    FaultyGetsRequests(TallView(), QUIET, FLOORS - 1, 0, SEEN_REQUEST);
  }

  /** The rule holds exactly in buildings of at most 55 floors, or with a single elevator. */
  lemma FaultyRuleLimit()
    ensures FaultyRule() <==> FLOORS <= 55 || ELEVS == 1
  {
    if FLOORS > 55 && ELEVS > 1 {
      TallViewIsReady();
      TallBuilding();
    } else {
      forall v: View, watchdogs: seq<Timer>, floor, now, c: Cell
        | ReadyToCheck(v, watchdogs) && Reporting(v.states) && IsFloor(floor) && Avoids(c, {})
        ensures Relieved(v, watchdogs, floor, now, c)
      {
        LowBuildingRelieves(v, watchdogs, floor, now, c);
      }
    }
  }
}
