/**
 * The records the chunk step moves: a shipped order as read from the
 * SHIPPED_ORDER table, and the tracked order the processors build from it.
 */
module Orders {
  import opened Wrappers

  /** A shipped order, with the eight columns the reader selects. `cost` is a
      decimal amount; the ship date is kept as its text. */
  datatype Order = Order(
    orderId: int,
    firstName: string,
    lastName: string,
    email: string,
    cost: real,
    itemId: string,
    itemName: string,
    shipDate: string)

  /** The errors the item processors raise. */
  datatype ErrorKind =
    | OrderProcessingException  // no tracking number could be obtained
    | ValidationException       // the order breaks its validation constraints

  /** The value of a tracked order at one moment: the order it was built
      from, its tracking number (None until set) and its free-shipping flag. */
  datatype Tracked = Tracked(order: Order, trackingNumber: Option<string>, freeShipping: bool)

  /** A tracked order as an object whose setters change it in place. */
  class TrackedOrder {
    const order: Order
    var trackingNumber: Option<string>
    var freeShipping: bool

    function Value(): (t: Tracked)
      reads this
      ensures t.order == order
    {
      Tracked(order, trackingNumber, freeShipping)
    }

    /** A new tracked order copies the order; it has no tracking number yet
        and no free shipping. */
    constructor (o: Order)
      ensures Value() == Tracked(o, None, false)
    {
      order := o;
      trackingNumber := None;
      freeShipping := false;
    }

    function Cost(): real
      reads this
    {
      order.cost
    }

    method SetTrackingNumber(n: string)
      modifies this
      ensures Value() == old(Value()).(trackingNumber := Some(n))
    {
      trackingNumber := Some(n);
    }

    method SetFreeShipping(b: bool)
      modifies this
      ensures Value() == old(Value()).(freeShipping := b)
    {
      freeShipping := b;
    }
  }
}
