/** The controller's table of requests in place (libs/control/src/requests.cpp). */
module RequestTables {
  import opened Config
  import opened ElevatorStates
  import opened Orders
  import opened Requests

  class RequestTable {
    const table: array2<bool>

    ghost predicate Valid() { table.Length0 == FLOORS && table.Length1 == BUTTONS }

    /** The table by value. */
    function Contents(): BoolTable
      requires Valid()
      reads table
    {
      var t := seq(FLOORS, f requires IsFloor(f) reads table =>
        seq(BUTTONS, b requires IsButton(f, b) reads table => table[f, b]));
      assert forall f :: IsFloor(f) ==> |t[f]| == BUTTONS;
      t
    }

    constructor ()
      ensures Valid() && fresh(table)
      ensures Contents() == NoRequests()
    {
      table := new bool[FLOORS, BUTTONS]((f, b) => false);
      new;
      forall f | IsFloor(f)
        ensures Contents()[f] == NoRequests()[f]
      {
      }
    }

    /** Entries outside the table are ignored. */
    method SetValue(floor: int, btn: int, value: bool)
      requires Valid()
      modifies table
      ensures forall f, b :: IsButton(f, b) ==>
        table[f, b] == if f == floor && b == btn then value else old(table[f, b])
    {
      if floor < 0 || floor >= FLOORS { return; }
      if btn < 0 || btn >= BUTTONS { return; }
      table[floor, btn] := value;
    }

    method Value(floor: int, btn: int) returns (r: bool)
      requires Valid() && 0 <= btn < BUTTONS
      ensures r == Requests.Value(Contents(), floor, btn)
    {
      if floor < 0 || floor >= FLOORS { return false; }
      return table[floor, btn];
    }

    method IsRequestHere(floor: int) returns (r: bool)
      requires Valid()
      ensures r == RequestHere(Contents(), floor)
    {
      if floor < 0 || floor >= FLOORS { return false; }
      for b := 0 to BUTTONS
        invariant forall c :: 0 <= c < b ==> !table[floor, c]
      {
        if table[floor, b] {
          assert Contents()[floor][b];
          return true;
        }
      }
      return false;
    }

    method IsRequestAbove(floor: int) returns (r: bool)
      requires Valid()
      ensures r == RequestAbove(Contents(), floor)
    {
      var f := floor + 1;
      while f < FLOORS
        invariant floor < f
        invariant forall g :: floor < g < f ==> !RequestHere(Contents(), g)
      {
        var here := IsRequestHere(f);
        if here { return true; }
        f := f + 1;
      }
      return false;
    }

    method IsRequestBelow(floor: int) returns (r: bool)
      requires Valid()
      ensures r == RequestBelow(Contents(), floor)
    {
      var f := floor - 1;
      while f >= 0
        invariant f < floor
        invariant forall g :: f < g < floor ==> !RequestHere(Contents(), g)
      {
        var here := IsRequestHere(f);
        if here { return true; }
        f := f - 1;
      }
      return false;
    }

    method SetAll(values: BoolTable)
      requires Valid()
      modifies table
      ensures Contents() == values
    {
      for f := 0 to FLOORS
        invariant forall g, c :: IsButton(g, c) && g < f ==> table[g, c] == values[g][c]
      {
        for b := 0 to BUTTONS
          invariant forall g, c :: IsButton(g, c) && (g < f || (g == f && c < b)) ==> table[g, c] == values[g][c]
        {
          SetValue(f, b, values[f][b]);
        }
      }
      forall f: Floor
        ensures Contents()[f] == values[f]
      {
      }
      assert Contents() == values;
    }
  }
}
