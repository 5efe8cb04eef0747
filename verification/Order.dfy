/** One replicated order: the value that `Order` objects hold and that packets carry
    (libs/ordersync). The transitions are written here as functions of the value. */
module Orders {
  import opened Config

  datatype OrderStatus = NoOrder | Requested | Confirmed | Clear
  {
    function Rank(): nat {
      match this
      case NoOrder => 0
      case Requested => 1
      case Confirmed => 2
      case Clear => 3
    }
  }

  datatype Order = Order(version: nat, status: OrderStatus, assignee: int, mask: set<int>)
  {
    ghost predicate Valid() {
      && -1 <= assignee < ELEVS
      && forall e :: e in mask ==> IsElev(e)
    }

    predicate AssignedTo(e: int) { status.Confirmed? && assignee == e }

    function AfterObserve(e: int): Order { this.(mask := mask + {e}) }

    function AfterRequest(e: int): Order {
      if status.NoOrder? || status.Clear? then Order(version + 1, Requested, assignee, {e}) else this
    }

    function AfterConfirm(e: int): Order {
      if status.Requested? then Order(version + 1, Confirmed, e, mask) else this
    }

    function AfterClear(): Order {
      if status.Confirmed? then this.(version := version + 1, status := Clear) else this
    }

    function AfterReset(): Order {
      if status.Clear? then this.(version := version + 1, status := NoOrder) else this
    }

    function AfterReassignment(e: int): Order { this.(version := version + 1, assignee := e) }

    /** What receiving `rcv` leaves: the newer order; between two of one version the further
        status and all observers; between two confirmed ones the lower assignee. */
    function Merge(rcv: Order): Order {
      if version != rcv.version then
        if version < rcv.version then rcv else this
      else
        var winner :=
          if status.Rank() < rcv.status.Rank() then rcv
          else if status.Confirmed? && rcv.status.Confirmed? && rcv.assignee < assignee then rcv
          else this;
        winner.(mask := mask + rcv.mask)
    }
  }

  const BLANK := Order(0, NoOrder, -1, {})

  type OrderGrid = t: seq<seq<Order>> | |t| == FLOORS && forall f :: IsFloor(f) ==> |t[f]| == BUTTONS
    witness seq(FLOORS, _ => seq(BUTTONS, _ => BLANK))

  /** The backup of everyone's cab orders: one row for each elevator. */
  type CabGrid = t: seq<seq<Order>> | |t| == ELEVS && forall e :: IsElev(e) ==> |t[e]| == FLOORS
    witness seq(ELEVS, _ => seq(FLOORS, _ => BLANK))

  type BoolTable = t: seq<seq<bool>> | |t| == FLOORS && forall f :: IsFloor(f) ==> |t[f]| == BUTTONS
    witness seq(FLOORS, _ => seq(BUTTONS, _ => false))

  /** The orders that `elev` is to serve. */
  function ToBoolTable(t: OrderGrid, elev: int): BoolTable {
    seq(FLOORS, f requires IsFloor(f) => seq(BUTTONS, b requires IsButton(f, b) => t[f][b].AssignedTo(elev)))
  }

  ghost predicate ValidGrid(t: OrderGrid) {
    forall f, b :: IsButton(f, b) ==> t[f][b].Valid()
  }
}
