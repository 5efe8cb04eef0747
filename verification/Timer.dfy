/** Deadline timers (libs/common/include/common/timer.hpp). The clock reading is a parameter. */
module Timers {
  import opened Config

  datatype Timer = Timer(active: bool, deadline: int)
  {
    function Start(now: int, duration: int): Timer { Timer(true, now + duration) }

    function Stop(): Timer { this.(active := false) }

    predicate Expired(now: int) { active && now >= deadline }

    function TimeLeft(now: int): int {
      if !active || deadline - now <= 0 then 0 else deadline - now
    }
  }

  const OFF := Timer(false, 0)

  type TimerGrid = t: seq<seq<Timer>> | |t| == FLOORS && forall f :: IsFloor(f) ==> |t[f]| == BUTTONS
    witness seq(FLOORS, _ => seq(BUTTONS, _ => OFF))
}
