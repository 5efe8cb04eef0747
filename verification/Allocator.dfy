/** What Peers::Step (libs/network/src/peers.cpp) does to one hall order and its timer.

    Within a step, what happens to an order depends on no other order: costs are taken from the
    elevators' own reports. So each phase is a function of one cell and of the node's view. */
module Allocator {
  import opened Config
  import opened Costs
  import opened ElevatorStates
  import opened Orders
  import opened Timers

  /** What a node knows about the elevators: its own id, how many were active when the step began,
      and the states. */
  datatype View = View(self: int, numElevs: int, states: StateSeq)

  /** A hall order, this node's timer for it, and whether the process is still alive: a failed
      assertion or an abort ends it. */
  datatype Cell = Cell(order: Order, timer: Timer, live: bool)
  {
    function StartTimer(now: int): Cell { this.(timer := timer.Start(now, REASSIGN_TIME)) }
  }

  function ActiveCount(states: seq<ElevatorState>): nat {
    if states == [] then 0 else ActiveCount(states[..|states| - 1]) + if states[|states| - 1].active then 1 else 0
  }

  // Reassignment

  /** The new assignee, or -1 when the program aborts. */
  function ReassignTarget(v: View, floor: int, prev: int): int
    requires IsElev(prev)
  {
    if v.numElevs == 1 then prev
    else
      var e := FirstCandidate(SortedCosts(v.states, floor), v.states, prev, v.states[prev].Usable());
      if e != -1 then e
      else if v.states[prev].Usable() || v.states[prev].active then prev
      else -1
  }

  /** The same for the order of a cell, whose assignee is asserted to be in range. */
  function Target(v: View, floor: int, c: Cell): int {
    if IsElev(c.order.assignee) then ReassignTarget(v, floor, c.order.assignee) else -1
  }

  /** Give the order to `target`; the node `self` starts its timer when the order is its own now. */
  function GiveTo(c: Cell, target: int, self: int, now: int): Cell {
    var d := if target == -1 then c.(live := false) else c.(order := c.order.AfterReassignment(target));
    if d.order.assignee == self then d.StartTimer(now) else d
  }

  /** Take a confirmed order away from `e`. */
  function Move(v: View, floor: int, now: int, c: Cell, e: int): Cell {
    if c.order.AssignedTo(e) then GiveTo(c, Target(v, floor, c), v.self, now) else c
  }

  // The watchdog pass

  /** The states once the elevators below `k` have been checked. */
  function StatesAfter(states: StateSeq, watchdogs: seq<Timer>, now: int, k: nat): StateSeq
    requires |watchdogs| == ELEVS
  {
    seq(ELEVS, e requires IsElev(e) =>
      if e < k && watchdogs[e].Expired(now) then states[e].AfterWatchdogTimeout() else states[e])
  }

  /** And their watchdogs: one that has fired is stopped. */
  function WatchdogsAfter(watchdogs: seq<Timer>, now: int, k: nat): (r: seq<Timer>)
    requires |watchdogs| == ELEVS
  {
    seq(ELEVS, e requires IsElev(e) => if e < k && watchdogs[e].Expired(now) then watchdogs[e].Stop() else watchdogs[e])
  }

  function WatchdogPhase(v: View, watchdogs: seq<Timer>, floor: int, now: int, c: Cell, k: nat): Cell
    requires |watchdogs| == ELEVS && k <= ELEVS
  {
    if k == 0 then c
    else
      var d := WatchdogPhase(v, watchdogs, floor, now, c, k - 1);
      if watchdogs[k - 1].Expired(now) then
        Move(v.(states := StatesAfter(v.states, watchdogs, now, k)), floor, now, d, k - 1)
      else d
  }

  // The phases after it

  function FaultPhase(v: View, floor: int, now: int, c: Cell, k: nat): Cell
    requires k <= ELEVS
  {
    if k == 0 then c
    else
      var d := FaultPhase(v, floor, now, c, k - 1);
      if v.states[k - 1].active && v.states[k - 1].fault then Move(v, floor, now, d, k - 1) else d
  }

  function ObservePhase(v: View, c: Cell): Cell {
    if v.self !in c.order.mask && c.order.status.Requested? then c.(order := c.order.AfterObserve(v.self)) else c
  }

  predicate ObservedByAll(states: StateSeq, o: Order) {
    forall e :: 0 <= e < ELEVS && states[e].active ==> e in o.mask
  }

  /** Confirm to the cheapest elevator, unless no elevator is active. */
  function ConfirmTo(c: Cell, best: (int, int), self: int, now: int): Cell {
    if best.0 == MAX_COST then c
    else
      var d := c.(order := c.order.AfterConfirm(best.1));
      if best.1 == self then d.StartTimer(now) else d
  }

  function ConfirmPhase(v: View, floor: int, now: int, c: Cell): Cell {
    if !ObservedByAll(v.states, c.order) || !c.order.status.Requested? then c
    else ConfirmTo(c, SortedCosts(v.states, floor)[0], v.self, now)
  }

  function ResetPhase(c: Cell): Cell { c.(order := c.order.AfterReset()) }

  function TimeoutPhase(v: View, floor: int, now: int, c: Cell): Cell {
    if !c.timer.Expired(now) then c
    else
      var d := c.(timer := c.timer.Stop());
      if c.order.status.Confirmed? then GiveTo(d, Target(v, floor, d), v.self, now) else d
  }

  /** Start, stop or shorten this node's timer. */
  function ControlTimer(v: View, now: int, o: Order, t: Timer): Timer
    requires IsElev(v.self)
  {
    if o.AssignedTo(v.self) && !t.active then t.Start(now, REASSIGN_TIME)
    else if t.active && !o.AssignedTo(v.self) then t.Stop()
    else if v.states[v.self].obstruction && o.AssignedTo(v.self) && t.active
            && t.TimeLeft(now) > OBSTRUCTION_REASSIGN_TIME + 5 * SAMPLE_TIME then
      t.Start(now, OBSTRUCTION_REASSIGN_TIME)
    else t
  }

  function ControlPhase(v: View, now: int, c: Cell): Cell
    requires IsElev(v.self)
  {
    c.(timer := ControlTimer(v, now, c.order, c.timer))
  }

  /** The view after the watchdog pass. */
  function Checked(v: View, watchdogs: seq<Timer>, now: int): View
    requires |watchdogs| == ELEVS
  {
    v.(states := StatesAfter(v.states, watchdogs, now, ELEVS))
  }

  /** All that decides, after the watchdog pass, who is to serve the order. */
  function Decide(w: View, floor: int, now: int, c: Cell): Cell {
    var d := FaultPhase(w, floor, now, c, ELEVS);
    var e := ConfirmPhase(w, floor, now, ObservePhase(w, d));
    TimeoutPhase(w, floor, now, ResetPhase(e))
  }

  /** The whole step for one hall order. `v.numElevs` was counted before the watchdog pass. */
  function CellStep(v: View, watchdogs: seq<Timer>, floor: int, now: int, c: Cell): Cell
    requires |watchdogs| == ELEVS && IsElev(v.self)
  {
    var w := Checked(v, watchdogs, now);
    var d := WatchdogPhase(v, watchdogs, floor, now, c, ELEVS);
    ControlPhase(w, now, Decide(w, floor, now, d))
  }
}
