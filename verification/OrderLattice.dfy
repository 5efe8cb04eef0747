/** Merging is the join of a semilattice: what the replicas agree on, whatever the network does. */
module OrderLattice {
  import opened Orders

  /** Equal in everything a replica acts on. The assignee of an order that is not Confirmed is a
      left-over that no decision reads. */
  predicate Same(a: Order, b: Order) {
    && a.version == b.version
    && a.status == b.status
    && a.mask == b.mask
    && (a.status.Confirmed? ==> a.assignee == b.assignee)
  }

  /** `b` knows at least as much as `a`. */
  predicate Leq(a: Order, b: Order) {
    || a.version < b.version
    || (&& a.version == b.version
        && a.mask <= b.mask
        && (|| a.status.Rank() < b.status.Rank()
            || (a.status == b.status && (a.status.Confirmed? ==> b.assignee <= a.assignee))))
  }

  lemma LeqTransitive(a: Order, b: Order, c: Order)
    requires Leq(a, b) && Leq(b, c)
    ensures Leq(a, c)
  {
  }

  lemma LeqAntisymmetric(a: Order, b: Order)
    ensures Leq(a, b) && Leq(b, a) <==> Same(a, b)
  {
  }

  /** `Merge` is the least upper bound. */
  lemma MergeIsJoin(a: Order, b: Order, u: Order)
    ensures Leq(a, a.Merge(b)) && Leq(b, a.Merge(b))
    ensures Leq(a, u) && Leq(b, u) ==> Leq(a.Merge(b), u)
  {
  }

  /** Merging a list of receptions does not depend on how it is grouped; it depends on the sequence only
      up to `Same`. */
  lemma MergeLaws(a: Order, b: Order, c: Order)
    ensures a.Merge(a) == a
    ensures a.Merge(b).Merge(c) == a.Merge(b.Merge(c))
    ensures Same(a.Merge(b), b.Merge(a))
  {
  }

  lemma MergeRespectsSame(a: Order, a': Order, b: Order, b': Order)
    requires Same(a, a') && Same(b, b')
    ensures Same(a.Merge(b), a'.Merge(b'))
  {
  }

  /** The raw assignee is why: each of two orders that are not confirmed keeps its own left-over. */
  lemma RawMergeIsNotCommutative()
    ensures var a, b := Order(5, Requested, 0, {0}), Order(5, Requested, 1, {0});
      a.Merge(b) == a && b.Merge(a) == b && a != b
  {
  }

  /** On the raw record merging commutes exactly if there is no such left-over to keep. */
  lemma RawMergeCommutes(a: Order, b: Order)
    ensures a.Merge(b) == b.Merge(a) <==>
      a.version != b.version || a.status != b.status || a.status.Confirmed? || a.assignee == b.assignee
  {
  }

  /** Every transition that a node applies to its own copy only adds knowledge. */
  lemma TransitionsInflate(o: Order, e: int)
    ensures Leq(o, o.AfterObserve(e))
    ensures Leq(o, o.AfterRequest(e)) && Leq(o, o.AfterConfirm(e))
    ensures Leq(o, o.AfterClear()) && Leq(o, o.AfterReset())
    ensures Leq(o, o.AfterReassignment(e))
  {
  }

  /** An order that has received `xs`, in that sequence. */
  function MergeAll(o: Order, xs: seq<Order>): Order {
    if xs == [] then o else MergeAll(o, xs[..|xs| - 1]).Merge(xs[|xs| - 1])
  }

  lemma {:induction false} MergeAllIsJoin(o: Order, xs: seq<Order>, u: Order)
    ensures Leq(o, MergeAll(o, xs))
    ensures forall x :: x in xs ==> Leq(x, MergeAll(o, xs))
    ensures Leq(o, u) && (forall x :: x in xs ==> Leq(x, u)) ==> Leq(MergeAll(o, xs), u)
  {
    if xs != [] {
      var front, last := xs[..|xs| - 1], xs[|xs| - 1];
      assert xs == front + [last];
      MergeAllIsJoin(o, front, u);
      MergeIsJoin(MergeAll(o, front), last, u);
      forall x | x in xs || x == o
        ensures Leq(x, MergeAll(o, xs))
      {
        if x in front || x == o {
          LeqTransitive(x, MergeAll(o, front), MergeAll(o, xs));
        }
      }
    }
  }

  /** Reordering, repeating or delaying what is received changes nothing: only the set of received
      orders counts. */
  lemma DeliveryOrderIsIrrelevant(o: Order, xs: seq<Order>, ys: seq<Order>)
    requires forall x :: x in xs <==> x in ys
    ensures Same(MergeAll(o, xs), MergeAll(o, ys))
  {
    MergeAllIsJoin(o, xs, MergeAll(o, ys));
    MergeAllIsJoin(o, ys, MergeAll(o, xs));
    LeqAntisymmetric(MergeAll(o, xs), MergeAll(o, ys));
  }
}
