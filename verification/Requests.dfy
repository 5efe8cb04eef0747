/** Queries on a table of requests (libs/control/src/requests.cpp). */
module Requests {
  import opened Config
  import opened Orders

  predicate Value(t: BoolTable, f: int, b: int)
    requires 0 <= b < BUTTONS
  {
    IsFloor(f) && t[f][b]
  }

  predicate RequestHere(t: BoolTable, f: int) {
    Value(t, f, HALL_UP) || Value(t, f, HALL_DOWN) || Value(t, f, CAB)
  }

  predicate RequestAbove(t: BoolTable, f: int) {
    exists g :: 0 <= g < FLOORS && f < g && RequestHere(t, g)
  }

  predicate RequestBelow(t: BoolTable, f: int) {
    exists g :: 0 <= g < FLOORS && g < f && RequestHere(t, g)
  }

  predicate NonEmpty(t: BoolTable) {
    exists g :: 0 <= g < FLOORS && RequestHere(t, g)
  }

  /** Wherever the car stands, an outstanding request is here, above or below. */
  lemma SomewhereToGo(t: BoolTable, f: int)
    ensures NonEmpty(t) <==> RequestHere(t, f) || RequestAbove(t, f) || RequestBelow(t, f)
  {
  }

  function CountRow(t: BoolTable, f: int): (c: nat)
    requires IsFloor(f)
    ensures c <= 3
  {
    (if t[f][HALL_UP] then 1 else 0) + (if t[f][HALL_DOWN] then 1 else 0) + (if t[f][CAB] then 1 else 0)
  }

  /** The number of requests on the floors below `n`. */
  function Count(t: BoolTable, n: nat): (c: nat)
    requires n <= FLOORS
    ensures c <= 3 * n
  {
    if n == 0 then 0 else Count(t, n - 1) + CountRow(t, n - 1)
  }

  function Pending(t: BoolTable): nat { Count(t, FLOORS) }

  lemma {:induction false} CountZero(t: BoolTable, n: nat)
    requires n <= FLOORS
    ensures Count(t, n) == 0 <==> forall f :: 0 <= f < n ==> !RequestHere(t, f)
  {
    if n > 0 {
      CountZero(t, n - 1);
      assert RequestHere(t, n - 1) <==> CountRow(t, n - 1) > 0;
    }
  }

  lemma PendingZero(t: BoolTable)
    ensures Pending(t) == 0 <==> !NonEmpty(t)
  {
    CountZero(t, FLOORS);
  }

  /** Tables that differ in one row differ in count by that row. */
  lemma {:induction false} CountOneRow(t: BoolTable, u: BoolTable, f: int, n: nat)
    requires n <= FLOORS && IsFloor(f)
    requires forall g :: IsFloor(g) && g != f ==> t[g] == u[g]
    ensures Count(t, n) - Count(u, n) == if f < n then CountRow(t, f) - CountRow(u, f) else 0
  {
    if n > 0 {
      CountOneRow(t, u, f, n - 1);
    }
  }
}
