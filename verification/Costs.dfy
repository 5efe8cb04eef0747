/** What serving a floor would cost each elevator, and the elevators in the order of their cost
    (Peers::CalculateElevatorCosts in libs/network/src/peers.cpp). */
module Costs {
  import opened Config
  import opened ElevatorStates
  import opened Orders
  import opened Requests

  function Abs(x: int): nat { if x < 0 then -x else x }

  /** The travel direction is wrong for an order at `floor`, or the elevator is passing it. */
  predicate WrongDir(s: ElevatorState, floor: int) {
    && !s.motorDir.Stop?
    && (|| floor == s.floor
        || (floor < s.floor && s.inertia.Up?)
        || (floor > s.floor && s.inertia.Down?))
  }

  function Cost(s: ElevatorState, floor: int): int {
    if !s.active then MAX_COST
    else
      Abs(s.floor - floor) * PENALTY_FLOOR_DIFF
      + (if s.obstruction then PENALTY_OBSTRUCTION else 0)
      + (if s.fault then PENALTY_FAULT else 0)
      + (if s.stopped then PENALTY_STOPPED else 0)
      + Pending(s.requests) * PENALTY_PER_ORDER
      + (if s.doorOpen then PENALTY_DOOR_OPEN else 0)
      + (if WrongDir(s, floor) then PENALTY_WRONG_DIR else 0)
  }

  // Sorting pairs of a cost and an elevator

  predicate Before(a: (int, int), b: (int, int)) {
    a.0 < b.0 || (a.0 == b.0 && a.1 <= b.1)
  }

  ghost predicate Sorted(s: seq<(int, int)>) {
    forall i, j :: 0 <= i < j < |s| ==> Before(s[i], s[j])
  }

  function Insert(x: (int, int), s: seq<(int, int)>): (r: seq<(int, int)>)
    ensures multiset(r) == multiset(s) + multiset{x}
  {
    if s == [] || Before(x, s[0]) then [x] + s
    else
      assert s == [s[0]] + s[1..];
      [s[0]] + Insert(x, s[1..])
  }

  lemma {:induction false} InsertSorted(x: (int, int), s: seq<(int, int)>)
    requires Sorted(s)
    ensures Sorted(Insert(x, s))
  {
    if s != [] && !Before(x, s[0]) {
      var t := Insert(x, s[1..]);
      InsertSorted(x, s[1..]);
      forall y | y in t
        ensures Before(s[0], y)
      {
        assert y in multiset(t);
      }
    }
  }

  function Sort(s: seq<(int, int)>): (r: seq<(int, int)>)
    ensures multiset(r) == multiset(s)
  {
    if s == [] then []
    else
      assert s == [s[0]] + s[1..];
      Insert(s[0], Sort(s[1..]))
  }

  lemma {:induction false} SortSorted(s: seq<(int, int)>)
    ensures Sorted(Sort(s))
  {
    if s != [] {
      SortSorted(s[1..]);
      InsertSorted(s[0], Sort(s[1..]));
    }
  }

  function CostPairs(states: StateSeq, floor: int): seq<(int, int)> {
    seq(ELEVS, e requires IsElev(e) => (Cost(states[e], floor), e))
  }

  function SortedCosts(states: StateSeq, floor: int): (r: seq<(int, int)>)
    ensures |r| == ELEVS
  {
    var pairs := CostPairs(states, floor);
    assert |multiset(Sort(pairs))| == |multiset(pairs)|;
    Sort(pairs)
  }

  /** The sorted table lists every elevator with its cost. */
  lemma SortedCostsMembers(states: StateSeq, floor: int, p: (int, int))
    ensures p in SortedCosts(states, floor) <==> IsElev(p.1) && p.0 == Cost(states[p.1], floor)
  {
    var pairs := CostPairs(states, floor);
    assert p in SortedCosts(states, floor) <==> p in multiset(pairs);
    if IsElev(p.1) && p.0 == Cost(states[p.1], floor) {
      assert pairs[p.1] == p;
    }
  }

  // Choosing from the sorted table

  /** May `e` take over an order from `prev`? */
  predicate Candidate(states: StateSeq, floor: int, prev: int, usable: bool, e: int) {
    && IsElev(e)
    && e != prev
    && Cost(states[e], floor) != MAX_COST
    && (usable ==> states[e].Usable())
  }

  /** The first candidate in the list, or -1. */
  function FirstCandidate(costs: seq<(int, int)>, states: StateSeq, prev: int, usable: bool): int {
    if costs == [] then -1
    else
      var e := costs[0].1;
      if e != prev && costs[0].0 != MAX_COST && (usable ==> IsElev(e) && states[e].Usable()) then e
      else FirstCandidate(costs[1..], states, prev, usable)
  }

  lemma {:induction false} FirstCandidateIsFirst(costs: seq<(int, int)>, states: StateSeq, floor: int, prev: int,
      usable: bool)
    requires Sorted(costs)
    requires forall p :: p in costs ==> IsElev(p.1) && p.0 == Cost(states[p.1], floor)
    ensures var e := FirstCandidate(costs, states, prev, usable);
      && (e != -1 ==> Candidate(states, floor, prev, usable, e))
      && (forall d :: Candidate(states, floor, prev, usable, d) && (Cost(states[d], floor), d) in costs ==>
            e != -1 && Before((Cost(states[e], floor), e), (Cost(states[d], floor), d)))
  {
    if costs != [] {
      assert costs[0] in costs;
      FirstCandidateIsFirst(costs[1..], states, floor, prev, usable);
      forall d | Candidate(states, floor, prev, usable, d) && (Cost(states[d], floor), d) in costs
        ensures var e := FirstCandidate(costs, states, prev, usable);
          e != -1 && Before((Cost(states[e], floor), e), (Cost(states[d], floor), d))
      {
        assert (Cost(states[d], floor), d) == costs[0] || (Cost(states[d], floor), d) in costs[1..];
      }
    }
  }

  /** The search over the sorted table finds the candidate with the least cost, and among those the
      one with the least id; it finds none only if there is none. */
  lemma CheapestCandidate(states: StateSeq, floor: int, prev: int, usable: bool)
    ensures var e := FirstCandidate(SortedCosts(states, floor), states, prev, usable);
      && (e == -1 <==> forall d :: IsElev(d) ==> !Candidate(states, floor, prev, usable, d))
      && (e != -1 ==> Candidate(states, floor, prev, usable, e))
      && (forall d :: Candidate(states, floor, prev, usable, d) ==>
            Before((Cost(states[e], floor), e), (Cost(states[d], floor), d)))
  {
    var costs := SortedCosts(states, floor);
    SortSorted(CostPairs(states, floor));
    forall p | p in costs
      ensures IsElev(p.1) && p.0 == Cost(states[p.1], floor)
    {
      SortedCostsMembers(states, floor, p);
    }
    FirstCandidateIsFirst(costs, states, floor, prev, usable);
    forall d | IsElev(d)
      ensures (Cost(states[d], floor), d) in costs
    {
      SortedCostsMembers(states, floor, (Cost(states[d], floor), d));
    }
  }

  /** The head of the table is the cheapest elevator of all. */
  lemma CheapestElevator(states: StateSeq, floor: int)
    ensures var p := SortedCosts(states, floor)[0];
      && IsElev(p.1) && p.0 == Cost(states[p.1], floor)
      && forall d :: IsElev(d) ==> Before(p, (Cost(states[d], floor), d))
  {
    var costs := SortedCosts(states, floor);
    SortSorted(CostPairs(states, floor));
    assert costs[0] in costs;
    SortedCostsMembers(states, floor, costs[0]);
    forall d | IsElev(d)
      ensures Before(costs[0], (Cost(states[d], floor), d))
    {
      SortedCostsMembers(states, floor, (Cost(states[d], floor), d));
    }
  }

  // Separation

  /** More than any usable elevator costs: a full table, the longest way and the wrong direction. An
      open door does not come on top, since the car does not move then. */
  const USABLE_LIMIT := (FLOORS - 1) * PENALTY_FLOOR_DIFF + BUTTONS * FLOORS * PENALTY_PER_ORDER + PENALTY_WRONG_DIR

  lemma CostBounds(s: ElevatorState, floor: int)
    requires IsFloor(floor) && IsFloor(s.floor)
    ensures s.Usable() && s.Consistent() ==> Cost(s, floor) <= USABLE_LIMIT
    ensures s.active && !s.Usable() ==> PENALTY_OBSTRUCTION <= Cost(s, floor)
    ensures s.active && s.fault ==> PENALTY_FAULT <= Cost(s, floor)
    ensures Cost(s, floor) == MAX_COST <==> !s.active
    ensures Cost(s, floor) <= MAX_COST
  {
  }

  lemma {:induction false} FullCount(t: BoolTable, n: nat)
    requires n <= FLOORS
    requires forall f, b :: IsButton(f, b) ==> t[f][b]
    ensures Count(t, n) == 3 * n
  {
    if n > 0 {
      FullCount(t, n - 1);
    }
  }

  /** The two reports that show what a building with too many floors does: the busiest usable elevator,
      which has just left the top for the bottom and is nearly there, and an obstructed one that
      stands where it is needed. */
  function Busiest(): ElevatorState {
    ElevatorState(0, 1, true, false, false, false, false, MotorDir.Down, MovingState.Moving, 1,
                  seq(FLOORS, _ => seq(BUTTONS, _ => true)), Inertia.Down)
  }

  function Nearest(): ElevatorState {
    ElevatorState(0, FLOORS - 1, true, true, false, false, false, MotorDir.Stop, MovingState.Idle, 1,
                  NoRequests(), NoInertia)
  }

  function NearestFaulty(): ElevatorState { Nearest().(id := 1, obstruction := false, fault := true) }

  /** All of them are states of cars that behave, inside the shaft. */
  lemma ExtremeCosts()
    requires FLOORS > 1
    ensures Busiest().Consistent() && Busiest().Usable() && Cost(Busiest(), FLOORS - 1) == 18 * FLOORS + 4
    ensures Nearest().Consistent() && Nearest().active && Nearest().obstruction
    ensures Cost(Nearest(), FLOORS - 1) == PENALTY_OBSTRUCTION
    ensures NearestFaulty().Consistent() && NearestFaulty().active && NearestFaulty().fault
    ensures Cost(NearestFaulty(), FLOORS - 1) == PENALTY_FAULT
  {
    FullCount(Busiest().requests, FLOORS);
    assert forall f :: 0 <= f < FLOORS ==> !RequestHere(NoRequests(), f);
    CountZero(NoRequests(), FLOORS);
  }

  /** Separated: at every floor a usable elevator is cheaper than an active one that is obstructed,
      stopped or faulty, whatever their cars can report. */
  ghost predicate Separated() {
    forall s: ElevatorState, t: ElevatorState, floor ::
      IsFloor(floor) && s.Consistent() && t.Consistent() && s.Usable() && t.active && !t.Usable() ==>
        Cost(s, floor) < Cost(t, floor)
  }

  /** The penalties separate exactly the buildings of at most five floors, which covers the four of
      the shipped configuration. */
  lemma SeparationLimit()
    ensures Separated() <==> FLOORS <= 5
  {
    if FLOORS <= 5 {
      forall s: ElevatorState, t: ElevatorState, floor
        | IsFloor(floor) && s.Consistent() && t.Consistent() && s.Usable() && t.active && !t.Usable()
        ensures Cost(s, floor) < Cost(t, floor)
      {
        CostBounds(s, floor);
        CostBounds(t, floor);
      }
    } else {
      ExtremeCosts();
    }
  }
}
