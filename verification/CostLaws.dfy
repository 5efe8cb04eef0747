/** What an order costs an elevator, by laws that leave no other cost: each law compares two reports that
    differ in one respect. */
module CostLaws {
  import opened Config
  import opened Costs
  import opened ElevatorStates
  import opened Orders
  import opened Requests

  type CostFunction = (ElevatorState, int) -> int

  // Upside down

  function Turned(dir: MotorDir): MotorDir {
    match dir
    case Up => MotorDir.Down
    case Down => MotorDir.Up
    case Stop => MotorDir.Stop
    case Err => MotorDir.Err
  }

  function TurnedRound(inertia: Inertia): Inertia {
    match inertia
    case Up => Inertia.Down
    case Down => Inertia.Up
    case NoInertia => NoInertia
  }

  function Opposite(f: int): int { FLOORS - 1 - f }

  function TurnedTable(t: BoolTable): BoolTable {
    var u := seq(FLOORS, f requires IsFloor(f) =>
      [t[Opposite(f)][HALL_DOWN], t[Opposite(f)][HALL_UP], t[Opposite(f)][CAB]]);
    assert forall f :: IsFloor(f) ==> |u[f]| == BUTTONS;
    u
  }

  /** The report of the same elevator in the building turned upside down. */
  function UpsideDown(s: ElevatorState): ElevatorState {
    s.(floor := Opposite(s.floor), motorDir := Turned(s.motorDir), inertia := TurnedRound(s.inertia),
       requests := TurnedTable(s.requests))
  }

  lemma {:induction false} TurnedCount(t: BoolTable, n: nat)
    requires n <= FLOORS
    ensures Count(TurnedTable(t), n) == Pending(t) - Count(t, FLOORS - n)
  {
    if n > 0 {
      TurnedCount(t, n - 1);
      assert CountRow(TurnedTable(t), n - 1) == CountRow(t, FLOORS - n);
    }
  }

  /** Up and down are treated alike. */
  lemma UpsideDownCostsTheSame(s: ElevatorState, floor: int)
    ensures Cost(UpsideDown(s), Opposite(floor)) == Cost(s, floor)
  {
    TurnedCount(s.requests, FLOORS);
  }

  // One respect at a time

  /** The elevator stands, in `t` one floor further from the order than in `s`. */
  predicate OneFurther(s: ElevatorState, t: ElevatorState, floor: int) {
    && s.motorDir.Stop?
    && (|| (floor <= s.floor && t == s.(floor := s.floor + 1))
        || (s.floor <= floor && t == s.(floor := s.floor - 1)))
  }

  /** It has one request more. */
  ghost predicate OneMore(s: ElevatorState, t: ElevatorState) {
    exists f, b :: IsButton(f, b) && !s.requests[f][b] && t == s.(requests := t.requests)
      && t.requests == s.requests[f := s.requests[f][b := true]]
  }

  /** Something stands against it. */
  predicate Hindered(s: ElevatorState, t: ElevatorState, penalty: int) {
    || (!s.doorOpen && t == s.(doorOpen := true) && penalty == 2)
    || (!s.obstruction && t == s.(obstruction := true) && penalty == 100)
    || (!s.fault && t == s.(fault := true) && penalty == 1000)
    || (!s.stopped && t == s.(stopped := true) && penalty == 1000)
  }

  /** Is the order ahead of a car with this direction of travel? A car without one has nothing behind it. */
  predicate InFront(inertia: Inertia, from: int, floor: int) {
    match inertia
    case Up => from < floor
    case Down => floor < from
    case NoInertia => from != floor
  }

  /** Its motor runs, which does not matter as long as the order is ahead. */
  predicate Running(s: ElevatorState, t: ElevatorState, floor: int, penalty: int) {
    && s.motorDir.Stop? && !t.motorDir.Stop? && t == s.(motorDir := t.motorDir)
    && penalty == if InFront(s.inertia, s.floor, floor) then 0 else 10
  }

  /** In one respect the order is dearer for `t` than for `s`. */
  ghost predicate DearerBy(s: ElevatorState, t: ElevatorState, floor: int, penalty: int) {
    || (OneFurther(s, t, floor) && penalty == 3)
    || (OneMore(s, t) && penalty == 5)
    || Hindered(s, t, penalty)
    || Running(s, t, floor, penalty)
  }

  /** The elevator stands at the floor and has nothing to do. */
  predicate AtHand(s: ElevatorState, floor: int) {
    && s.floor == floor && s.motorDir.Stop? && !NonEmpty(s.requests)
    && !s.doorOpen && !s.obstruction && !s.fault && !s.stopped
  }

  lemma FurtherCosts(s: ElevatorState, t: ElevatorState, floor: int)
    requires s.active && OneFurther(s, t, floor)
    ensures Cost(t, floor) == Cost(s, floor) + 3
  {
  }

  lemma MoreCosts(s: ElevatorState, t: ElevatorState, floor: int)
    requires s.active && OneMore(s, t)
    ensures Cost(t, floor) == Cost(s, floor) + 5
    ensures Pending(t.requests) == Pending(s.requests) + 1
  {
    var f, b :| IsButton(f, b) && !s.requests[f][b] && t.requests == s.requests[f := s.requests[f][b := true]];
    CountOneRow(t.requests, s.requests, f, FLOORS);
    assert CountRow(t.requests, f) == CountRow(s.requests, f) + 1;
  }

  lemma HindranceCosts(s: ElevatorState, t: ElevatorState, floor: int, penalty: int)
    requires s.active && Hindered(s, t, penalty)
    ensures Cost(t, floor) == Cost(s, floor) + penalty
  {
  }

  lemma RunningCosts(s: ElevatorState, t: ElevatorState, floor: int, penalty: int)
    requires s.active && Running(s, t, floor, penalty)
    ensures Cost(t, floor) == Cost(s, floor) + penalty
  {
  }

  /** Each respect costs its penalty, whatever the others. */
  lemma EachRespectCosts(s: ElevatorState, t: ElevatorState, floor: int, penalty: int)
    requires s.active && DearerBy(s, t, floor, penalty)
    ensures Cost(t, floor) == Cost(s, floor) + penalty
  {
    if OneFurther(s, t, floor) && penalty == 3 {
      FurtherCosts(s, t, floor);
    } else if OneMore(s, t) && penalty == 5 {
      MoreCosts(s, t, floor);
    } else if Hindered(s, t, penalty) {
      HindranceCosts(s, t, floor, penalty);
    } else {
      RunningCosts(s, t, floor, penalty);
    }
  }

  lemma AtHandCostsNothing(s: ElevatorState, floor: int)
    requires s.active && AtHand(s, floor)
    ensures Cost(s, floor) == 0
  {
    PendingZero(s.requests);
  }

  // No other cost

  /** The laws, for any way to cost reports. */
  ghost predicate Lawful(cost: CostFunction) {
    && (forall s: ElevatorState, floor {:trigger cost(s, floor)} :: !s.active ==> cost(s, floor) == MAX_COST)
    && (forall s: ElevatorState, floor {:trigger AtHand(s, floor)} ::
          s.active && AtHand(s, floor) ==> cost(s, floor) == 0)
    && (forall s: ElevatorState, t: ElevatorState, floor, penalty {:trigger DearerBy(s, t, floor, penalty)} ::
          s.active && DearerBy(s, t, floor, penalty) ==> cost(t, floor) == cost(s, floor) + penalty)
  }

  function Hindrances(s: ElevatorState): nat {
    (if s.doorOpen then 1 else 0) + (if s.obstruction then 1 else 0) + (if s.fault then 1 else 0)
    + (if s.stopped then 1 else 0) + if s.motorDir.Stop? then 0 else 1
  }

  function Distance(s: ElevatorState, floor: int): nat {
    if s.floor < floor then floor - s.floor else s.floor - floor
  }

  /** What is left of the report without one hindrance. */
  lemma OneHindranceLess(t: ElevatorState, floor: int) returns (s: ElevatorState, penalty: int)
    requires Hindrances(t) > 0
    ensures DearerBy(s, t, floor, penalty) && Hindrances(s) < Hindrances(t) && s.active == t.active
  {
    if !t.motorDir.Stop? {
      s, penalty := t.(motorDir := MotorDir.Stop), if InFront(t.inertia, t.floor, floor) then 0 else 10;
      assert Running(s, t, floor, penalty);
    } else if t.doorOpen {
      s, penalty := t.(doorOpen := false), 2;
    } else if t.obstruction {
      s, penalty := t.(obstruction := false), 100;
    } else if t.fault {
      s, penalty := t.(fault := false), 1000;
    } else {
      s, penalty := t.(stopped := false), 1000;
    }
  }

  lemma OneRequestLess(t: ElevatorState) returns (s: ElevatorState)
    requires NonEmpty(t.requests)
    ensures OneMore(s, t) && s.active == t.active && Hindrances(s) == Hindrances(t)
  {
    var f :| IsFloor(f) && RequestHere(t.requests, f);
    var b :| 0 <= b < BUTTONS && t.requests[f][b];
    var row := t.requests[f][b := false];
    var table: BoolTable := t.requests[f := row];
    s := t.(requests := table);
    assert row[b := true] == t.requests[f];
    assert table[f := table[f][b := true]] == t.requests;
    assert IsButton(f, b) && !s.requests[f][b];
  }

  lemma {:induction false} LawsLeaveOneCost(cost: CostFunction, t: ElevatorState, floor: int)
    requires Lawful(cost)
    ensures cost(t, floor) == Cost(t, floor)
    decreases Hindrances(t), Pending(t.requests), Distance(t, floor)
  {
    if t.active {
      if Hindrances(t) > 0 {
        var s, penalty := OneHindranceLess(t, floor);
        LawsLeaveOneCost(cost, s, floor);
        EachRespectCosts(s, t, floor, penalty);
      } else if NonEmpty(t.requests) {
        var s := OneRequestLess(t);
        MoreCosts(s, t, floor);
        LawsLeaveOneCost(cost, s, floor);
        assert DearerBy(s, t, floor, 5);
      } else if t.floor != floor {
        var s := t.(floor := if t.floor < floor then t.floor + 1 else t.floor - 1);
        LawsLeaveOneCost(cost, s, floor);
        FurtherCosts(s, t, floor);
        assert DearerBy(s, t, floor, 3);
      } else {
        assert AtHand(t, floor);
        AtHandCostsNothing(t, floor);
      }
    }
  }

  /** The laws say all: they hold of a way to cost reports if and only if it is that of the allocator. */
  lemma CostIsDetermined(cost: CostFunction)
    ensures Lawful(cost) <==> forall s, floor {:trigger cost(s, floor)} :: cost(s, floor) == Cost(s, floor)
  {
    if Lawful(cost) {
      forall s, floor
        ensures cost(s, floor) == Cost(s, floor)
      {
        LawsLeaveOneCost(cost, s, floor);
      }
    }
    if forall s, floor {:trigger cost(s, floor)} :: cost(s, floor) == Cost(s, floor) {
      forall s: ElevatorState, floor | s.active && AtHand(s, floor)
        ensures cost(s, floor) == 0
      {
        AtHandCostsNothing(s, floor);
      }
      forall s: ElevatorState, t, floor, penalty | s.active && DearerBy(s, t, floor, penalty)
        ensures cost(t, floor) == cost(s, floor) + penalty
      {
        EachRespectCosts(s, t, floor, penalty);
      }
    }
  }
}
