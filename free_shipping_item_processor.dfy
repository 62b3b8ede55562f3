/**
 * FreeShippingItemProcessor: sets the free-shipping flag from the cost and
 * lets through only the orders that ship free.
 */
module FreeShippingItemProcessor {
  import opened Wrappers
  import opened Orders

  /** The threshold the cost must strictly exceed. */
  const FREE_SHIPPING_THRESHOLD: real := 80.0

  predicate ShipsFree(o: Order) {
    o.cost > FREE_SHIPPING_THRESHOLD
  }

  /** The value `process` returns for a tracked order: the order, with the
      flag set, when it ships free; None (Java's null) otherwise. */
  function Filter(t: Tracked): (r: Option<Tracked>)
    ensures r.Some? <==> t.order.cost > 80.0
    ensures r.Some? ==> r.value == t.(freeShipping := true)
  {
    var flagged := t.(freeShipping := ShipsFree(t.order));
    if flagged.freeShipping then Some(flagged) else None
  }

  /** The comparison is strict: a cost of exactly 80 does not ship free. */
  lemma ExactlyEightyIsFiltered(t: Tracked)
    requires t.order.cost == 80.0
    ensures Filter(t) == None
  {
  }

  /** Every kept item has the flag set and is otherwise unchanged, and
      processing it again keeps it as it is. */
  lemma KeptItemsAreStable(t: Tracked)
    requires Filter(t).Some?
    ensures Filter(t).value.freeShipping
    ensures Filter(t).value.order == t.order && Filter(t).value.trackingNumber == t.trackingNumber
    ensures Filter(Filter(t).value) == Filter(t)
  {
  }

  /** process: the flag is written on the argument in every case (false for
      an item that is then filtered out), and the same object is returned
      when it ships free, null otherwise. */
  method Process(trackedOrder: TrackedOrder) returns (r: TrackedOrder?)
    modifies trackedOrder
    ensures trackedOrder.Value() == old(trackedOrder.Value()).(freeShipping := ShipsFree(trackedOrder.order))
    ensures r == null <==> Filter(old(trackedOrder.Value())).None?
    ensures r != null ==> r == trackedOrder && r.Value() == Filter(old(trackedOrder.Value())).value
  {
    trackedOrder.SetFreeShipping(trackedOrder.Cost() > FREE_SHIPPING_THRESHOLD);
    if trackedOrder.freeShipping {
      return trackedOrder;
    }
    return null;
  }
}
