/** The constants of libs/common/include/common/config.hpp.

    The two building sizes are left symbolic, so every theorem is about tables of any size within
    the stated limits. The upper limit on floors keeps costs inside a 32-bit int, the upper limit
    on elevators is the one at which `(1u << kElevs) - 1u` still fits the observed mask. */
module Config {
  type FloorCount = n: int | 1 <= n <= 1_000_000 witness 4
  type ElevCount = n: int | 1 <= n <= 31 witness 4

  const FLOORS: FloorCount
  const ELEVS: ElevCount
  const BUTTONS := 3

  // Button columns
  const HALL_UP := 0
  const HALL_DOWN := 1
  const CAB := 2

  const BETWEEN_FLOORS := -1

  // Times in milliseconds
  const SAMPLE_TIME := 40
  const DOOR_OPEN_TIME := 3000
  const REASSIGN_TIME := 25000
  const OBSTRUCTION_REASSIGN_TIME := 4800
  const WATCHDOG_TIME := 600
  const FAULT_TIMEOUT := 5000

  // Cost penalties
  const PENALTY_DOOR_OPEN := 2
  const PENALTY_FLOOR_DIFF := 3
  const PENALTY_PER_ORDER := 5
  const PENALTY_WRONG_DIR := 10
  const PENALTY_OBSTRUCTION := 100
  const PENALTY_FAULT := 1000
  const PENALTY_STOPPED := 1000

  // The sentinel cost of an inactive elevator: the greatest 32-bit int
  const MAX_COST := 0x7FFF_FFFF

  predicate IsFloor(f: int) { 0 <= f < FLOORS }

  predicate IsElev(e: int) { 0 <= e < ELEVS }

  predicate IsHall(f: int, b: int) { IsFloor(f) && 0 <= b < CAB }

  predicate IsButton(f: int, b: int) { IsFloor(f) && 0 <= b < BUTTONS }

  // Indices that are in range
  type Elev = e: int | 0 <= e < ELEVS witness 0
  type Floor = f: int | 0 <= f < FLOORS witness 0
  type HallButton = b: int | 0 <= b < CAB witness 0

  ghost function Everyone(): set<Elev> { set n: Elev | IsElev(n) }
}
