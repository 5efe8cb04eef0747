/** The shared order table in place (libs/ordersync/src/ordersync.cpp). The source keeps its orders by
    value in fixed arrays; the methods below overwrite the fields of one cell of such an array. */
module OrderTables {
  import opened Config
  import opened Orders

  // One order of a table

  method OnUpdate(t: array2<Order>, i: int, j: int, rcv: Order)
    requires 0 <= i < t.Length0 && 0 <= j < t.Length1
    modifies t
    ensures forall x, y :: 0 <= x < t.Length0 && 0 <= y < t.Length1 ==>
      t[x, y] == if x == i && y == j then old(t[x, y]).Merge(rcv) else old(t[x, y])
  {
    if rcv.version > t[i, j].version {
      t[i, j] := t[i, j].(version := rcv.version);
      t[i, j] := t[i, j].(status := rcv.status);
      t[i, j] := t[i, j].(assignee := rcv.assignee);
      t[i, j] := t[i, j].(mask := rcv.mask);
      return;
    }
    if rcv.version == t[i, j].version {
      t[i, j] := t[i, j].(mask := t[i, j].mask + rcv.mask);
      if rcv.status.Rank() > t[i, j].status.Rank() {
        t[i, j] := t[i, j].(status := rcv.status);
        t[i, j] := t[i, j].(assignee := rcv.assignee);
        return;
      }
      // both sides have confirmed the order
      if t[i, j].status.Confirmed? && rcv.status.Confirmed? && rcv.assignee < t[i, j].assignee {
        t[i, j] := t[i, j].(assignee := rcv.assignee);
        return;
      }
    }
  }

  method Observe(t: array2<Order>, i: int, j: int, e: int)
    requires 0 <= i < t.Length0 && 0 <= j < t.Length1
    modifies t
    ensures forall x, y :: 0 <= x < t.Length0 && 0 <= y < t.Length1 ==>
      t[x, y] == if x == i && y == j then old(t[x, y]).AfterObserve(e) else old(t[x, y])
  {
    t[i, j] := t[i, j].(mask := t[i, j].mask + {e});
  }

  method OnRequest(t: array2<Order>, i: int, j: int, e: int)
    requires 0 <= i < t.Length0 && 0 <= j < t.Length1
    modifies t
    ensures forall x, y :: 0 <= x < t.Length0 && 0 <= y < t.Length1 ==>
      t[x, y] == if x == i && y == j then old(t[x, y]).AfterRequest(e) else old(t[x, y])
  {
    if t[i, j].status.NoOrder? || t[i, j].status.Clear? {
      t[i, j] := t[i, j].(status := Requested);
      t[i, j] := t[i, j].(version := t[i, j].version + 1);
      t[i, j] := t[i, j].(mask := {});
      Observe(t, i, j, e);
    }
  }

  method OnConfirm(t: array2<Order>, i: int, j: int, e: int)
    requires 0 <= i < t.Length0 && 0 <= j < t.Length1
    modifies t
    ensures forall x, y :: 0 <= x < t.Length0 && 0 <= y < t.Length1 ==>
      t[x, y] == if x == i && y == j then old(t[x, y]).AfterConfirm(e) else old(t[x, y])
  {
    if t[i, j].status.Requested? {
      t[i, j] := t[i, j].(status := Confirmed);
      t[i, j] := t[i, j].(assignee := e);
      t[i, j] := t[i, j].(version := t[i, j].version + 1);
    }
  }

  method OnClear(t: array2<Order>, i: int, j: int)
    requires 0 <= i < t.Length0 && 0 <= j < t.Length1
    modifies t
    ensures forall x, y :: 0 <= x < t.Length0 && 0 <= y < t.Length1 ==>
      t[x, y] == if x == i && y == j then old(t[x, y]).AfterClear() else old(t[x, y])
  {
    if t[i, j].status.Confirmed? {
      t[i, j] := t[i, j].(status := Clear);
      t[i, j] := t[i, j].(version := t[i, j].version + 1);
    }
  }

  method OnReset(t: array2<Order>, i: int, j: int)
    requires 0 <= i < t.Length0 && 0 <= j < t.Length1
    modifies t
    ensures forall x, y :: 0 <= x < t.Length0 && 0 <= y < t.Length1 ==>
      t[x, y] == if x == i && y == j then old(t[x, y]).AfterReset() else old(t[x, y])
  {
    if t[i, j].status.Clear? {
      t[i, j] := t[i, j].(status := NoOrder);
      t[i, j] := t[i, j].(version := t[i, j].version + 1);
    }
  }

  method OnReassignment(t: array2<Order>, i: int, j: int, e: int)
    requires 0 <= i < t.Length0 && 0 <= j < t.Length1
    modifies t
    ensures forall x, y :: 0 <= x < t.Length0 && 0 <= y < t.Length1 ==>
      t[x, y] == if x == i && y == j then old(t[x, y]).AfterReassignment(e) else old(t[x, y])
  {
    t[i, j] := t[i, j].(assignee := e);
    t[i, j] := t[i, j].(version := t[i, j].version + 1);
  }

  // The table

  method CheckOrder(o: Order) returns (ok: bool)
    ensures ok <==> o.Valid()
  {
    if o.assignee < -1 || o.assignee >= ELEVS { return false; }
    // a bit outside the building's elevators
    if exists e :: e in o.mask && !(0 <= e < ELEVS) { return false; }
    return true;
  }

  class OrderTable {
    const table: array2<Order>

    ghost predicate Valid() { table.Length0 == FLOORS && table.Length1 == BUTTONS }

    /** The table by value, as packets carry it. */
    function Contents(): OrderGrid
      requires Valid()
      reads table
    {
      var t := seq(FLOORS, f requires IsFloor(f) reads table =>
        seq(BUTTONS, b requires IsButton(f, b) reads table => table[f, b]));
      assert forall f :: IsFloor(f) ==> |t[f]| == BUTTONS;
      t
    }

    constructor ()
      ensures Valid() && fresh(table)
      ensures forall f, b :: IsButton(f, b) ==> Contents()[f][b] == BLANK
    {
      table := new Order[FLOORS, BUTTONS]((f, b) => BLANK);
    }

    /** The receiver's check, order by order. */
    method CheckOrders() returns (ok: bool)
      requires Valid()
      ensures ok <==> ValidGrid(Contents())
    {
      for f := 0 to FLOORS
        invariant forall g, c :: 0 <= g < f && IsButton(g, c) ==> table[g, c].Valid()
      {
        for b := 0 to BUTTONS
          invariant forall g, c :: IsButton(g, c) && (g < f || (g == f && c < b)) ==> table[g, c].Valid()
        {
          var good := CheckOrder(table[f, b]);
          if !good {
            assert !Contents()[f][b].Valid();
            return false;
          }
        }
      }
      return true;
    }

    method ToBoolTable(elev: int) returns (result: BoolTable)
      requires Valid()
      ensures result == Orders.ToBoolTable(Contents(), elev)
    {
      var rows: seq<seq<bool>> := [];
      for f := 0 to FLOORS
        invariant |rows| == f
        invariant forall g :: 0 <= g < f ==> rows[g] == Orders.ToBoolTable(Contents(), elev)[g]
      {
        var row: seq<bool> := [];
        for b := 0 to BUTTONS
          invariant |row| == b
          invariant forall c :: 0 <= c < b ==> row[c] == table[f, c].AssignedTo(elev)
        {
          row := row + [table[f, b].status.Confirmed? && table[f, b].assignee == elev];
        }
        assert row == Orders.ToBoolTable(Contents(), elev)[f];
        rows := rows + [row];
      }
      assert rows == Orders.ToBoolTable(Contents(), elev);
      return rows;
    }

    /** Hall orders are merged one by one; cab orders are local. */
    method Join(rcv: OrderGrid)
      requires Valid()
      modifies table
      ensures forall f, b :: IsButton(f, b) ==>
        table[f, b] == if b == CAB then old(table[f, b]) else old(table[f, b]).Merge(rcv[f][b])
    {
      for f := 0 to FLOORS
        invariant forall g, c :: IsButton(g, c) ==>
          table[g, c] == if g < f && c != CAB then old(table[g, c]).Merge(rcv[g][c]) else old(table[g, c])
      {
        for b := 0 to BUTTONS
          invariant forall g, c :: IsButton(g, c) ==>
            table[g, c] ==
              if (g < f || (g == f && c < b)) && c != CAB then old(table[g, c]).Merge(rcv[g][c]) else old(table[g, c])
        {
          if b == CAB { continue; }
          OnUpdate(table, f, b, rcv[f][b]);
        }
      }
    }
  }
}
