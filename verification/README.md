# A model of the distributed elevator system

Several elevators, each run by one node, share the hall calls of a building without a master. Every
node keeps a copy of all orders, broadcasts it over UDP and merges what it receives; from its copy it
decides which elevator serves which hall call, and drives its own car. This project models

- the replicated order and its merge, in place and as a function, and the semilattice behind it,
- the allocator that confirms hall orders, takes them from elevators that are silent, faulty or too
  slow, and times its own,
- the controller of one car: doors, motor, timers, emergency stop and the sweep over the floors,
- the node, which ties them together in two locked sections per step and one for each packet,
- the whole system: any number of nodes, and a network that loses, repeats, delays and reorders
  packets, with nodes that restart blank at any time.

The numbers of floors and elevators are symbolic, so the theorems are about all buildings of up to
1,000,000 floors and 31 elevators, and about runs of every length.

## How it is laid out

Each component exists twice. The objects of the program (`OrderTable.dfy`, `RequestTable.dfy`,
`Car.dfy`, `Peers.dfy`, `ElevatorNode.dfy`) are classes and in-place methods with the loops, early
returns and branches of the source. Each method is proved to leave exactly what a function of the old
state says. These functions (`Order.dfy`, `Timer.dfy`, `ElevatorState.dfy`, `Requests.dfy`,
`Controller.dfy`, `Costs.dfy`, `Allocator.dfy`, `Node.dfy`) are what the theorems talk about.

`dafny verify dfyconfig.toml` checks the whole project.

`System.dfy` makes a state machine of the nodes and the network. A `Run` is any interleaving of its
actions: the first locked section of a step with the event after it (`Begin`), the second locked
section (`Finish`), `Send`, `Deliver`, `Lose` and `Restart`.

| file | what it proves |
|---|---|
| `OrderLattice.dfy` | merging is the join of a semilattice, up to the assignee of unconfirmed orders |
| `Costs.dfy`, `AllocatorProperties.dfy` | who gets an order, hand-over, and the exact building sizes for which the penalties separate |
| `CostLaws.dfy` | the laws that determine the costs |
| `Decisions.dfy` | what a whole step makes of a hall order and its timer |
| `Faults.dfy` | exactly when faulty elevators are left without work |
| `ControllerSafety.dfy`, `ControllerRounds.dfy` | joint invariant of a car, shaft bounds and wake-ups with their exact conditions |
| `Sweep.dfy`, `Doors.dfy` | what a round does to motor, direction, calls, door, timers and fault, told from what the car reads |
| `ControllerFailures.dfy` | histories in which those conditions fail |
| `ControllerLiveness.dfy` | a ranking by which every request is served |
| `RunInvariants.dfy`, `RunSafety.dfy` | what holds in every run: nothing aborts, hand-over, safety of every car |
| `RunTimers.dfy`, `RunLiveness.dfy` | timers and deadlines, and service of all orders, in every run |
| `RunSweep.dfy`, `RunDecisions.dfy` | the sweep, fair service, door times, the allocator's decisions and button presses, in every run |
| `Reports.dfy` | failure detection, and what nodes know about each other |
| `Orphans.dfy` | orders with elevators that a node takes for inactive: how they come about, and how long they last |
| `Gossip.dfy` | growth, convergence and the single executor |
| `GossipLimit.dfy` | the exact condition for convergence, and a run in which it fails |
| `CabOrders.dfy`, `CabRecovery.dfy` | cab orders as a replicated maximum, and their recovery after restarts |

## Findings

- Merging is not commutative on the raw record: between two unconfirmed orders of one version, each
  side keeps its own left-over assignee (`RawMergeIsNotCommutative`, exactly `RawMergeCommutes`). It is
  commutative up to `Same`, which compares the assignee of confirmed orders only.
- A restart can leave the newest copy of an order in flight only (`RestartLosesTheNewest`). Replicas
  then need not agree: convergence holds exactly if nothing in flight is newer (`ConvergenceLimit`).
- The penalties rank every usable elevator before every obstructed one in buildings of at most five
  floors and in no others (`SeparationLimit`). In taller ones a busy usable elevator can cost more.
- With a usable elevator in sight, faulty ones are left without hall orders in buildings of at most 55
  floors or with a single elevator, and in no others (`FaultyRuleLimit`). `FaultyRelieved` says for
  which views, in all buildings.
- The reset of an emergency stop follows the inertia alone, so it can set a car going upwards at the top
  floor (`ResetRunsIntoTheTop`). A floor that is reached in the very round in which the stop button is
  handled is not remembered, with the same effect later (`ForgottenFloorRunsIntoTheTop`).
  `RunsStayInShaft` has the exact condition.
- An obstruction uses up the change of the table that an idle car would set off for, and the call waits
  until the table changes again (`ObstructionLosesTheCall`). `RunsStayAwake` has the exact condition.
- A node that is told of an order before it has heard of the elevator that serves it runs no watchdog for
  that elevator and never takes the order away from it (`HearsayOrphans`, `OrphansLast`).
- In `Controller::FsmFloorArrival` the test for the top floor compares with `kFloors`, which no floor
  equals (libs/control/src/controller.cpp:131). The motor stops at the top because a car with nothing
  above it stops anyway.
- With one active elevator `Peers::ReassignHallOrder` is commented as reassigning to the node itself;
  the code gives the order back to its previous assignee (libs/network/src/peers.cpp:234-238). The
  model follows the code.

## Model

| member | source | states |
|---|---|---|
| OrderTables.OnUpdate | libs/ordersync/src/ordersync.cpp:63-88 | the field-by-field update of one stored order is `Merge`, and no other order changes |
| OrderTables.Observe | libs/ordersync/src/ordersync.cpp:90 | the observer is added to the mask of one order |
| OrderTables.OnRequest | libs/ordersync/src/ordersync.cpp:94-101 | a blank or cleared order becomes requested in a new version, seen by the requester alone; any other stays |
| OrderTables.OnConfirm | libs/ordersync/src/ordersync.cpp:103-109 | only a requested order is confirmed, to the given elevator, in a new version |
| OrderTables.OnClear | libs/ordersync/src/ordersync.cpp:111-116 | only a confirmed order is cleared, in a new version |
| OrderTables.OnReset | libs/ordersync/src/ordersync.cpp:118-123 | only a cleared order becomes blank again, in a new version |
| OrderTables.OnReassignment | libs/ordersync/src/ordersync.cpp:136-139 | the assignee changes and the version grows whatever the status |
| OrderTables.CheckOrder | libs/ordersync/src/ordersync.cpp:55-61 | accepts exactly the orders with an assignee and observers in range |
| OrderTables.OrderTable.CheckOrders | libs/ordersync/src/ordersync.cpp:33-40 | accepts a table if and only if every order in it is valid |
| OrderTables.OrderTable.ToBoolTable | libs/ordersync/src/ordersync.cpp:21-31 | an entry is true if and only if the order is confirmed and assigned to the elevator |
| OrderTables.OrderTable.Join | libs/ordersync/src/ordersync.cpp:42-53 | every hall order is merged with the received one and every cab order is left alone |
| OrderLattice.MergeIsJoin | libs/ordersync/src/ordersync.cpp:63-88 | a merge knows all that both sides know, and nothing that a common upper bound does not |
| OrderLattice.LeqAntisymmetric | libs/ordersync/src/ordersync.cpp:63-88 | two orders know the same if and only if they agree in all that a node acts on |
| OrderLattice.MergeLaws | libs/ordersync/src/ordersync.cpp:63-88 | merging is idempotent and associative, and commutative up to `Same` |
| OrderLattice.MergeRespectsSame | libs/ordersync/src/ordersync.cpp:63-88 | merging equivalent orders gives equivalent orders |
| OrderLattice.RawMergeIsNotCommutative | libs/ordersync/src/ordersync.cpp:72-79 | two given orders whose merge depends on who receives: why commutativity holds only up to `Same` |
| OrderLattice.RawMergeCommutes | libs/ordersync/src/ordersync.cpp:63-88 | exactly when the merge of two records does not depend on who receives |
| OrderLattice.MergeAllIsJoin | libs/ordersync/src/ordersync.cpp:63-88 | after any list of receptions an order is the least upper bound of itself and of all received ones |
| OrderLattice.DeliveryOrderIsIrrelevant | libs/ordersync/src/ordersync.cpp:63-88 | only the set of received orders counts, not their sequence or repetitions |
| OrderLattice.TransitionsInflate | libs/ordersync/src/ordersync.cpp:90-139 | every local operation that nodes use only adds knowledge |
| RequestTables.RequestTable.SetValue | libs/control/src/requests.cpp:11-15 | sets one entry and ignores indices outside the table |
| RequestTables.RequestTable.Value | libs/control/src/requests.cpp:17-20 | the entry, or false outside the shaft |
| RequestTables.RequestTable.IsRequestHere | libs/control/src/requests.cpp:22-27 | true if and only if some button of the floor has a request |
| RequestTables.RequestTable.IsRequestAbove | libs/control/src/requests.cpp:29-33 | true if and only if some higher floor has a request |
| RequestTables.RequestTable.IsRequestBelow | libs/control/src/requests.cpp:35-38 | true if and only if some lower floor has a request |
| RequestTables.RequestTable.SetAll | libs/control/src/controller.cpp:41-45 | the table becomes the given one, entry by entry |
| Requests.SomewhereToGo | libs/control/src/requests.cpp:22-38 | there is a request if and only if there is one here, above or below, wherever the car stands |
| Cars.Elevator.constructor | libs/elevator/src/elevator.cpp:15 | a car before its initialization |
| Cars.Elevator.InitToFloor | libs/elevator/src/elevator.cpp:17-23 | the drive ends at the first reading that is not between floors, with the motor off |
| Cars.Elevator.Init | libs/elevator/src/elevator.cpp:31-44 | a car after its initialization: standing still, door closed, version 1, at the floor that the sensor shows |
| Cars.Elevator.Step | libs/elevator/src/elevator.cpp:25-29 | readings are taken over; a reading between floors keeps the last floor |
| Cars.Elevator.HitNewFloor | libs/elevator/src/elevator.cpp:46-54 | true if and only if the floor differs from the one remembered, which is then remembered |
| Cars.Elevator.SetMotorDir | libs/elevator/src/elevator.cpp:64-74 | the motor gets the direction, or a stop while the car is stopped, and the state agrees with it |
| Cars.Elevator.OpenDoor | libs/elevator/src/elevator.cpp:80-84 | door and state open together |
| Cars.Elevator.CloseDoor | libs/elevator/src/elevator.cpp:86-89 | door and state close together |
| Cars.Controller.SetInertia | libs/control/src/controller.cpp:34-39 | controller and state keep the same inertia; a stop keeps the last direction |
| Cars.Controller.ExecuteDecision | libs/control/src/controller.cpp:197-210 | motor, moving state, floor timer and inertia after a decision, and nothing for a stopped car |
| Cars.Controller.TryCloseDoor | libs/control/src/controller.cpp:212-220 | the door closes unless it is obstructed; then an expired door timer starts again |
| Cars.Controller.StopAndOpenDoor | libs/control/src/controller.cpp:190-195 | motor off, door open, door timer on, floor timer off |
| Cars.Controller.ChooseDirection | libs/control/src/controller.cpp:222-245 | the sweep: on in the direction of travel while requests lie that way, then here, then back |
| Cars.Controller.ShouldStop | libs/control/src/controller.cpp:247-262 | stop for a call in the direction of travel, for the cab, or when nothing lies ahead |
| Cars.Controller.ClearCurrentFloor | libs/control/src/controller.cpp:272-304 | which of the floor's calls a stop serves |
| Cars.Controller.RequestTableUpdated | libs/control/src/controller.cpp:306-313 | true if and only if the table differs from the one remembered, which is then remembered |
| Cars.Controller.FsmEmergencyStop | libs/control/src/controller.cpp:48-64 | the whole car and the calls to clear after an emergency stop |
| Cars.Controller.FsmEmergencyStopReset | libs/control/src/controller.cpp:67-87 | the same after its reset |
| Cars.Controller.FsmTableUpdate | libs/control/src/controller.cpp:89-121 | the same after a change of the table |
| Cars.Controller.FsmFloorArrival | libs/control/src/controller.cpp:123-146 | the same after the arrival at a floor |
| Cars.Controller.FsmDoorTimeout | libs/control/src/controller.cpp:148-174 | the same after the door has been open long enough |
| Cars.Controller.FsmFloorTimeout | libs/control/src/controller.cpp:177-188 | the same after no floor has been reached in time |
| ControllerSafety.DispatchIsSafe | libs/control/src/controller.cpp:48-220 | every event keeps the joint invariant: a running motor means moving, door closed, not stopped and inertia along the motor; an open door has its timer running; a moving car has its floor timer running or reports a fault |
| ControllerSafety.EmergencyStopIsSafe | libs/control/src/controller.cpp:48-64 | an emergency stop keeps it from any safe state |
| ControllerSafety.EmergencyStopHalts | libs/control/src/controller.cpp:48-64 | whatever a safe car was doing, an emergency stop leaves its motor off, its state idle, and at a floor its door open with the timer running |
| ControllerSafety.StoppedStaysStopped | libs/elevator/src/elevator.cpp:64-74 | a stopped car stays stopped with its motor off, whichever event comes, until the button is pressed again |
| ControllerSafety.ResetIsSafe | libs/control/src/controller.cpp:67-87 | the reset of a stopped car keeps it |
| ControllerSafety.FloorArrivalIsSafe | libs/control/src/controller.cpp:123-146 | an arrival keeps it, also while stopped or idle |
| ControllerSafety.TableUpdateIsSafe | libs/control/src/controller.cpp:89-121 | a change of the table keeps it, obstructed or not |
| ControllerSafety.DoorTimeoutIsSafe | libs/control/src/controller.cpp:148-174 | an expired door timer keeps it |
| ControllerSafety.ChooseDirectionFits | libs/control/src/controller.cpp:222-245 | the choice goes where a request is, and is to idle if and only if there is none |
| ControllerSafety.DispatchKeepsReport | libs/control/src/controller.cpp:48-220 | events leave identity, activity, version, floor and table of a car alone |
| ControllerSafety.SafeCarsReport | libs/control/src/controller.cpp:48-220 | a state is consistent if and only if some safe car has it: what the allocator can be told |
| ControllerRounds.RoundClears | libs/control/src/controller.cpp:67-146 | after a round of any safe car, whatever the sensor reads, the motor runs up at the top or down at the bottom if and only if the car overran: a reset set it going there, or it came there unnoticed |
| ControllerRounds.RoundStaysInShaft | libs/control/src/controller.cpp:123-146 | without the stop button a round never does that |
| ControllerRounds.RoundWakes | libs/control/src/controller.cpp:306-313 | after a round an idle car remembers an empty table if and only if the round did not sleep: an obstruction used up the change of the table |
| ControllerRounds.IdleCarReacts | services/elevator-node/src/elevator_node.cpp:44-67 | an idle car with a request opens its door or sets off in the next round if and only if the round heeds it: no new floor, no stop and no obstructed departure |
| ControllerFailures.ResetRunsIntoTheTop | libs/control/src/controller.cpp:81-86 | a history from the start after which a safe car runs upwards at the top floor |
| ControllerFailures.ForgottenFloorRunsIntoTheTop | services/elevator-node/src/elevator_node.cpp:44-51 | another one, with a floor that was reached while the stop button was handled |
| ControllerFailures.ObstructionLosesTheCall | libs/control/src/controller.cpp:118-121 | a history after which a car stays idle with a call outstanding, for as long as the table does not change |
| Sweep.RoundSweeps | libs/control/src/controller.cpp:48-304 | for every round of every safe car, told from readings and calls alone: exactly when the motor runs up or down, when the car turns round (never while there are calls ahead or at its floor), when it stops at a floor, and which calls the stop clears (none against its direction while it has calls ahead or somebody there goes its way) |
| Doors.RoundFits | libs/control/src/controller.cpp:48-220 | likewise the door (it never closes while obstructed), both timers, when a fault begins and ends, and the report |
| RunSweep.DirectionNext | libs/control/src/controller.cpp:222-245 | in every run the direction of travel is that in which the car has set off last |
| RunSweep.RunsDoNotReverse | libs/control/src/controller.cpp:222-245 | a car does not turn round as long as there are calls at its floor or ahead, over any stretch of any run |
| RunSweep.RunsServeFairly | libs/control/src/controller.cpp:272-304 | in every run the end of a step takes an order from its node if and only if in that step the car stopped at the floor and it was fair to serve the call |
| RunSweep.RunsServeOwn | libs/network/src/peers.cpp:164-184 | and it changes no hall order of another elevator |
| RunSweep.RunsReportOrders | services/elevator-node/src/elevator_node.cpp:135-154 | after a step with an event the report and the car have exactly the orders of the node |
| RunSweep.DoorsStayOpen | libs/control/src/controller.cpp:148-220 | a door that opened for a stop stays open for its time, with the motor off, in every run without the stop button |
| ControllerLiveness.StopServes | libs/control/src/controller.cpp:247-304 | a stop at a floor with a request, if the car should stop there, serves at least one |
| ControllerLiveness.RoundKeepsWork | services/elevator-node/src/elevator_node.cpp:28-69 | in a calm world, whatever the table, a round keeps what the liveness proof needs of a car |
| ControllerLiveness.RoundLowersRank | services/elevator-node/src/elevator_node.cpp:28-69 | a round never adds a request, and every event in it lowers the rank (pending requests, phase and distance) |
| ControllerLiveness.BoundedEvents | services/elevator-node/src/elevator_node.cpp:28-69 | at most `Rank` events happen before the table is empty |
| ControllerLiveness.NeverStuck | libs/control/src/controller.cpp:89-174 | with a request outstanding and something due, an event does happen |
| ControllerLiveness.EveryRequestIsServed | libs/control/src/controller.cpp:89-174 | the table is empty after at most `Rank` rounds in which something was due |
| ControllerLiveness.RankBound | libs/control/src/controller.cpp:89-174 | the rank is at most quadratic in the number of floors |
| Network.Peers.UpdateNumElevs | libs/network/src/peers.cpp:186-192 | counts the active elevators |
| Network.Peers.ObservedByAll | libs/network/src/peers.cpp:89-97 | true if and only if every active elevator has observed the order |
| Network.Peers.CalculateElevatorCosts | libs/network/src/peers.cpp:99-153 | every elevator with its cost, sorted by cost and id |
| Network.Peers.ElevatorCost | libs/network/src/peers.cpp:113-145 | the accumulated cost of one active elevator |
| Network.Peers.FirstInTable | libs/network/src/peers.cpp:248-267 | the two searches over the sorted table find its first candidate |
| Network.Peers.ReassignHallOrder | libs/network/src/peers.cpp:224-284 | one order goes to the target in a new version; it fails if and only if the assignee is out of range or the program would abort |
| Network.Peers.ReassignHallOrders | libs/network/src/peers.cpp:310-328 | exactly the confirmed hall orders of the elevator move, and the node's timer starts for those it gets |
| Network.Peers.MonitorWatchdogTimers | libs/network/src/peers.cpp:290-299 | states, watchdogs, orders and timers after one pass in which several watchdogs may fire |
| Network.Peers.OnWatchdogTimeout | libs/elevator/src/elevator_state.cpp:110-113 | the state is inactive and its version starts again |
| Network.Peers.OnStateUpdate | libs/elevator/src/elevator_state.cpp:99-102 | a received state replaces an older one only |
| Network.Peers.CopyFrom | libs/elevator/src/elevator_state.cpp:75-88 | all fields are taken over |
| Network.Peers.UpdateWatchdogTimer | libs/network/src/peers.cpp:286-288 | the watchdog of one elevator starts |
| Network.Peers.MonitorFault | libs/network/src/peers.cpp:301-308 | orders move away from active faulty elevators, in the sequence of their ids |
| Network.Peers.ObserveOrders | libs/network/src/peers.cpp:35-50 | requested hall orders are marked as seen |
| Network.Peers.ConfirmHallOrders | libs/network/src/peers.cpp:53-78 | requests seen by all active elevators are confirmed to the head of the table |
| Network.Peers.ResetHallOrders | libs/network/src/peers.cpp:80-87 | cleared hall orders become blank |
| Network.Peers.MonitorHallOrderTimers | libs/network/src/peers.cpp:202-222 | confirmed orders whose timer has run out are reassigned |
| Network.Peers.ControlHallOrderTimers | libs/network/src/peers.cpp:333-378 | timers start, stop or are shortened as the orders say |
| Network.Peers.Step | libs/network/src/peers.cpp:23-32 | the whole step equals its specification; no hall order stays with an elevator whose watchdog fired, and timers run exactly for the node's own orders |
| Network.Peers.ClearOrders | libs/network/src/peers.cpp:164-184 | served orders are cleared in table and backup, a hall order only while it is the node's |
| Costs.CheapestCandidate | libs/network/src/peers.cpp:244-272 | the search finds the candidate with the least cost and then the least id, and none only if there is none |
| Costs.CheapestElevator | libs/network/src/peers.cpp:63-69 | the head of the table is the least in cost and id of all elevators |
| Costs.SortSorted | libs/network/src/peers.cpp:150 | the table is sorted by cost and then id |
| Costs.SortedCostsMembers | libs/network/src/peers.cpp:99-153 | the table lists each elevator with its own cost and nothing else |
| Costs.CostBounds | libs/network/src/peers.cpp:104-147 | costs of usable, unusable and inactive elevators stay in their ranges, and the sentinel is reached by inactive ones only |
| Costs.SeparationLimit | libs/common/include/common/config.hpp:25-31 | over the states that cars can report, usable elevators are always cheaper than active unusable ones if and only if the building has at most five floors |
| Costs.ExtremeCosts | libs/common/include/common/config.hpp:25-31 | the bounds are attained by consistent states |
| CostLaws.UpsideDownCostsTheSame | libs/network/src/peers.cpp:104-147 | turning the building upside down changes no cost |
| CostLaws.EachRespectCosts | libs/network/src/peers.cpp:104-147 | a floor more to the order, a request more, an open door, an obstruction, a fault, a stop and a motor that runs past or away from the order each cost their penalty, whatever else holds |
| CostLaws.CostIsDetermined | libs/network/src/peers.cpp:104-147 | these laws and two base cases hold of no other cost |
| AllocatorProperties.ReassignmentChoice | libs/network/src/peers.cpp:240-282 | without the table: who gets a reassigned order, and that the abort is reached exactly if no elevator is active |
| AllocatorProperties.TargetIsActive | libs/network/src/peers.cpp:224-284 | an order goes to an active elevator or stays, and leaves an inactive one unless it is the only one counted |
| AllocatorProperties.ConfirmsCheapest | libs/network/src/peers.cpp:53-78 | confirmation goes to the least cost and id among active elevators, to a usable one if the penalties separate and there is one |
| AllocatorProperties.ConfirmsWhenSeen | libs/network/src/peers.cpp:53-97 | an order is confirmed if and only if it is requested and every active elevator has observed it |
| AllocatorProperties.FiredLeavesTwo | libs/network/src/peers.cpp:186-192 | an elevator that times out and the node itself were both counted, so the rule for a single elevator does not apply |
| AllocatorProperties.HandOver | libs/network/src/peers.cpp:290-328 | after a step no confirmed hall order is with an elevator whose watchdog fired in it, and nothing has aborted |
| AllocatorProperties.StepAvoidsInactive | libs/network/src/peers.cpp:23-32 | a step that finds no confirmed hall order with an inactive elevator leaves none there |
| AllocatorProperties.OrphanStays | libs/network/src/peers.cpp:202-238 | one that it does find stays, exactly unless the node's own timer for it has run out and more than one elevator was counted |
| AllocatorProperties.RequestGoesToHead | libs/network/src/peers.cpp:53-78 | through the whole step a request seen by all active elevators is confirmed to the head of the table |
| Faults.FaultyHoldNoWork | libs/network/src/peers.cpp:301-308 | in any building, if before every faulty elevator there is a usable one or there are two working ones in the table of costs, no confirmed hall order stays with an active faulty one |
| Faults.FaultyRelieved | libs/network/src/peers.cpp:224-308 | and only then: in any other view some order, which the proof gives, does stay or go there |
| Faults.FaultyRuleLimit | libs/network/src/peers.cpp:23-32 | one usable elevator is enough, whatever cars can report, if and only if there are at most 55 floors or one elevator |
| Decisions.SilentGivesToCheapest | libs/network/src/peers.cpp:290-328 | an order of an elevator that falls silent goes to the one that is the cheapest after the whole pass, however many fall silent at once |
| Decisions.ConfirmedOutcome | libs/network/src/peers.cpp:23-32 | what all phases together make of a confirmed order, if the cheapest active elevator works: a silent or faulty assignee loses it to the cheapest; an expired timer takes it from whoever has it by then, usable or not, to the cheapest other that may take over; otherwise it stays as it is |
| Decisions.RequestOutcome | libs/network/src/peers.cpp:35-78 | a request is seen by this node, and confirmed to the cheapest active elevator if and only if all others have seen it |
| Decisions.RestOutcome | libs/network/src/peers.cpp:80-87 | a cleared order becomes blank in the next version, and a blank one stays |
| Decisions.TimerOutcome | libs/network/src/peers.cpp:333-378 | the timer of an order of this node goes on, starts afresh or is cut short for an obstructed node |
| AllocatorProperties.CellStepInflates | libs/network/src/peers.cpp:23-32 | a step only adds knowledge to an order |
| AllocatorProperties.TimerAgrees | libs/network/src/peers.cpp:333-378 | after a step the timer is active if and only if the order is confirmed and the node's own |
| AllocatorProperties.DeadlineHolds | libs/network/src/peers.cpp:23-32 | while a node that is not faulty serves an order in time, a step neither moves the order nor its deadline later, and brings the deadline of an obstructed node near |
| ElevatorNodes.ElevatorNode.constructor | services/elevator-node/src/elevator_node.cpp:108-120 | a node after its initialization knows nobody, not even itself, and holds blank orders |
| ElevatorNodes.ElevatorNode.SyncButtonSignals | services/elevator-node/src/elevator_node.cpp:159-185 | presses request hall orders, and confirm cab orders in both of the node's copies |
| ElevatorNodes.ElevatorNode.SyncPeers | services/elevator-node/src/elevator_node.cpp:72-82 | table and state are synchronized after the presses |
| ElevatorNodes.ElevatorNode.RxPacketProcessing | services/elevator-node/src/elevator_node.cpp:84-106 | watchdog, state, hall orders and both sides of the cab backup after a packet; the node's own packets are ignored |
| ElevatorNodes.ElevatorNode.TxPacketCopy | services/elevator-node/src/elevator_node.cpp:124-133 | a packet is a copy of the node's orders, state and backup |
| ElevatorNodes.ElevatorNode.NextEvent | services/elevator-node/src/elevator_node.cpp:44-67 | the first event that fires, by priority, and what is remembered on the way |
| ElevatorNodes.ElevatorNode.BeginStep | services/elevator-node/src/elevator_node.cpp:28-69 | a step up to its event, from any state that a run can reach |
| ElevatorNodes.ElevatorNode.Event | services/elevator-node/src/elevator_node.cpp:135-154 | the second locked section |
| ElevatorNodes.ElevatorNode.Step | services/elevator-node/src/elevator_node.cpp:28-69 | a step with its event equals the two actions of the state machine and keeps the node's invariant |
| RunInvariants.AlwaysOk | services/elevator-node/src/elevator_node.cpp:28-154 | in every run, restarts included, confirmed orders have an assignee in range, nodes know only reports, a running watchdog belongs to an active peer, and cars are safe |
| RunInvariants.StepIsReady | services/elevator-node/src/elevator_node.cpp:72-82 | a node's own entry is active and its view fits its watchdogs whenever the allocator runs |
| RunSafety.NothingHalts | libs/network/src/peers.cpp:231-283 | no run reaches the failing assertion or the abort, and every packet in flight passes the receiver's check |
| RunSafety.CarsAreSafe | libs/control/src/controller.cpp:48-220 | the joint invariant holds for every car at every moment |
| RunSafety.RunsHandOver | libs/network/src/peers.cpp:290-328 | hand-over in every run |
| RunSafety.RunsRelieveFaulty | libs/network/src/peers.cpp:301-308 | under the same exact condition faulty elevators hold no work, in every run and every building |
| RunSafety.RunsRelieveInLowBuildings | libs/network/src/peers.cpp:301-308 | with at most 55 floors one usable elevator is enough, in every run |
| RunDecisions.RunsDecideConfirmed | libs/network/src/peers.cpp:23-32 | the outcome for confirmed orders in every step of every run |
| RunDecisions.RunsDecideRequest | libs/network/src/peers.cpp:35-78 | and for requests |
| RunDecisions.RunsPassOnLate | libs/network/src/peers.cpp:202-222 | in every run a node without fault whose time for an order is up gives it, in the next version, to the cheapest other that may take it over, and keeps it only if there is none |
| RunDecisions.RunsTimeOrders | libs/network/src/peers.cpp:333-378 | the timers of a node's orders after every step of every run |
| RunDecisions.RunsHearHallCalls | services/elevator-node/src/elevator_node.cpp:159-185 | in every run a press on a hall button makes a new request, or a confirmed order if the node knows of nobody else |
| RunDecisions.RunsResetCleared | libs/network/src/peers.cpp:80-87 | without a press a cleared order is blank after the next step |
| RunDecisions.RunsHearCabCalls | services/elevator-node/src/elevator_node.cpp:159-185 | a press in the cab makes an order of the node at once |
| Reports.SilenceIsDetected | libs/network/src/peers.cpp:286-299 | in every run an elevator is inactive for a node after a step if and only if nothing has been heard of it for 600 ms, and then it has no hall order |
| Reports.ReportsAreBehind | libs/elevator/src/elevator_state.cpp:99-113 | until an elevator restarts, nobody knows anything newer than its own report, and what is as new is that report |
| Reports.ViewsGrow | libs/elevator/src/elevator_state.cpp:99-102 | what a node knows about an elevator never falls back while it takes it for active |
| Reports.ExchangeInforms | services/elevator-node/src/elevator_node.cpp:84-106 | after one packet a node knows at least what the sender has reported |
| Reports.ExchangeReports | services/elevator-node/src/elevator_node.cpp:84-106 | and exactly that, if there is nothing newer |
| RunSafety.RunsStayInShaft | libs/control/src/controller.cpp:67-146 | in every run, emergency stops included, the motor never ran against an end of the shaft if and only if no step overran |
| RunSafety.UnstoppedStaysInShaft | libs/control/src/controller.cpp:123-146 | in particular it never does in a run without an emergency stop at that car |
| RunSafety.RunsStayAwake | libs/control/src/controller.cpp:306-313 | in every run an idle car always remembered an empty table if and only if no step slept |
| RunSafety.RunsReact | services/elevator-node/src/elevator_node.cpp:44-67 | in every run an idle car that is awake opens its door or sets off for an order if and only if its step heeds it |
| Orphans.OrphanedNext | services/elevator-node/src/elevator_node.cpp:28-133 | exactly which actions orphan a hall order in a node's copy, keep it orphaned or end that |
| Orphans.OrphansComeByPacket | libs/network/src/peers.cpp:290-328 | in every run no order is ever confirmed to an elevator that the node takes for inactive if and only if no packet brings such an order: no watchdog, fault, timeout or restart does |
| Orphans.OrphansLast | libs/network/src/peers.cpp:202-222 | once the node does not time such an order, it keeps it unchanged until a packet or a restart comes |
| Orphans.HearsayOrphans | services/elevator-node/src/elevator_node.cpp:84-106 | a run from any start with three nodes in which that happens |
| RunTimers.RunsTimersAgree | libs/network/src/peers.cpp:333-378 | timer agreement after every step of every run |
| RunTimers.DeadlineNeverMovesLater | libs/network/src/peers.cpp:202-222 | a deadline never moves later while the node serves the order in time, over any steps and packets |
| RunLiveness.ClearingServes | libs/network/src/peers.cpp:164-184 | what the controller means to clear is exactly what leaves the node's table |
| RunLiveness.StaysAtWork | services/elevator-node/src/elevator_node.cpp:28-69 | in a calm run the car keeps what the liveness proof needs, whatever orders come and go |
| RunLiveness.RunIsRounds | services/elevator-node/src/elevator_node.cpp:28-154 | a run shows a node that is left alone the rounds of a car alone |
| RunLiveness.EveryOrderIsServed | services/elevator-node/src/elevator_node.cpp:135-154 | from any moment of a calm run on, a node that is left alone has served all its orders after a bounded number of steps in which something was due |
| Gossip.ApplyInflates | libs/ordersync/src/ordersync.cpp:63-139 | no action but a restart takes knowledge from a copy |
| Gossip.RunInflates | libs/ordersync/src/ordersync.cpp:63-139 | so copies only grow between any two moments without restarts |
| Gossip.NothingNewInFlight | services/elevator-node/src/elevator_node.cpp:84-133 | in a run without restarts no packet knows more than its sender |
| Gossip.NothingNewerWithoutRestarts | services/elevator-node/src/elevator_node.cpp:84-133 | so the greatest version is always held by a node, never only in flight |
| Gossip.JoinExists | libs/ordersync/src/ordersync.cpp:42-53 | the nodes' copies have a least upper bound: their merge in any sequence |
| Gossip.Converges | libs/ordersync/src/ordersync.cpp:42-53 | after local operations stop, if nothing in flight is newer than all copies together, one exchange with every other replica makes a node's copy the least upper bound of all copies at that moment, whatever is lost, repeated, delayed, interleaved or restarted before |
| GossipLimit.ConvergenceLimit | libs/ordersync/src/ordersync.cpp:42-53 | and only then: all continuations of a run converge to that bound if and only if nothing in flight is newer |
| GossipLimit.NewsOverrunsJoin | services/elevator-node/src/elevator_node.cpp:84-106 | for any newer packet there is a continuation that goes above the bound |
| GossipLimit.RestartLosesTheNewest | services/elevator-node/src/elevator_node.cpp:108-133 | a run from any start that leaves such a packet: a node is called, sends and restarts |
| Gossip.ReplicasAgree | libs/ordersync/src/ordersync.cpp:42-53 | so two such nodes agree on version, status, observers and, when confirmed, assignee |
| Gossip.SingleExecutor | libs/ordersync/src/ordersync.cpp:21-31 | at both of them a confirmed order is in the table of the same one elevator, any other in nobody's |
| CabOrders.CabMergeIsMax | libs/ordersync/src/ordersync.cpp:63-88 | merging cab orders of one owner takes the greater version |
| CabOrders.CabsAlwaysOk | services/elevator-node/src/elevator_node.cpp:97-105 | in every run each copy of a cab order is determined by its version, and a node's two own copies are equal field for field |
| CabRecovery.OwnIsNewest | services/elevator-node/src/elevator_node.cpp:97-105 | until it restarts, no copy of a node's cab order is newer than its own |
| CabRecovery.OwnStaysNewest | services/elevator-node/src/elevator_node.cpp:97-105 | the same from any moment at which it holds, while the node stays up |
| CabRecovery.EchoIsHarmless | services/elevator-node/src/elevator_node.cpp:97-105 | so packets never change the cab orders of a node that has stayed up |
| CabRecovery.CabRecovers | services/elevator-node/src/elevator_node.cpp:97-105 | a restarted node gets its cab order back with one packet of a peer that held it, whatever else happens, and holds the newest copy again |
| CabRecovery.BackupRecovers | services/elevator-node/src/elevator_node.cpp:97-105 | after a first crash it is enough that the peer holds the last cab order |
| CabRecovery.DeliveryBacksUp | services/elevator-node/src/elevator_node.cpp:97-105 | a receiver backs up the cab orders of the sender, unless it has newer ones |
| CabRecovery.ExchangeKeeps | services/elevator-node/src/elevator_node.cpp:97-105 | after one packet of a node that leaves its cab order alone, the receiver keeps its newest copy |
| CabRecovery.FirstCrashRecovers | services/elevator-node/src/elevator_node.cpp:97-105 | end to end: one packet to a peer before a first crash and one back after it restore the cab order, in any interleaving |

## Left out

- RunLiveness.EveryOrderIsServed: asks for a calm world: no emergency stop or obstruction at that car, and a sensor that reads one floor after the other.
- Decisions.ConfirmedOutcome: leaves open who gets an order that is taken away while the cheapest active elevator is faulty itself; `FaultyRelieved` says when faulty ones get none.
- Network.Peers.CalculateElevatorCosts: does not model the algorithm of `std::sort`; the table is sorted by a specification function.
- OrderTables.OnRequest: does not model the overflow of 64-bit versions, here and in all other operations; versions are unbounded and times are whole milliseconds. Costs stay below the sentinel because floors are limited to 1,000,000, and observed masks are sets of at most 31 elevators.
- Systems.Initial: takes a node to start at a floor. `InitToFloor` ends at one, but the sensor is read once more after it; if that reading is between floors, `Init` leaves the floor at -1. The door is taken to be closed when a node starts.
- `Order`, `Timer` and `ElevatorState` as objects: the source stores them by value in fixed arrays and fields, so here they are values in arrays and fields whose parts are overwritten. What is lost is only that two references could name one of them.
- Sockets, packet bytes, threads and sleeps (libs/network/src/udp_bcast.cpp, services/elevator-node/src/main.cpp): a packet is a record and every locked section is one atomic action.
- Hardware access, lamps, printing, button edge detection and command line: readings are arbitrary inputs, motor and door are ghost fields of the elevator.
- `OnRevoke`, `SetAssignedId` and `ShouldClearImmediately`: no node uses them.
- Several readings of the clock within one locked section, or within one event: the model takes one for each action.
- Packets before the first step: a node sends and receives only once its first step has begun, as `main` starts the threads after it. Packets between the two sections of that first step are allowed, which the program does not do.
- What a process does after an abort: a node that has halted takes no further action until it restarts. No run reaches that state.
