/**
 * TrackedOrderItemProcessor: wraps an order into a tracked order and gives
 * it a tracking number, or fails with OrderProcessingException.
 */
module TrackedOrderItemProcessor {
  import opened Wrappers
  import opened Orders

  /** The outcome of the random choice getTrackingNumber makes: the draw below
      3% that throws, or a freshly generated UUID string. */
  datatype Draw = Fail | Uuid(value: string)

  /** getTrackingNumber: a failed draw is an OrderProcessingException, any
      other draw is the tracking number. */
  function GetTrackingNumber(d: Draw): (r: Result<string, ErrorKind>)
    ensures r.Failure? <==> d == Fail
    ensures r.Failure? ==> r.error == OrderProcessingException
    ensures d.Uuid? ==> r == Success(d.value)
  {
    match d
    case Fail => Failure(OrderProcessingException)
    case Uuid(u) => Success(u)
  }

  /** The value `process` returns for an order and a draw. */
  function Track(o: Order, d: Draw): (r: Result<Tracked, ErrorKind>)
    ensures r.Failure? <==> d == Fail
    ensures r.Failure? ==> r.error == OrderProcessingException
    ensures r.Success? ==> r.value.order == o && r.value.trackingNumber == Some(d.value) && !r.value.freeShipping
  {
    match GetTrackingNumber(d)
    case Failure(e) => Failure(e)
    case Success(n) => Success(Tracked(o, Some(n), false))
  }

  /** `process` never filters: it throws or returns a tracked order, and
      only the draw decides which. */
  lemma NeverFilters(o: Order, d: Draw)
    ensures Track(o, d).Success? || Track(o, d) == Failure(OrderProcessingException)
    ensures forall o' :: Track(o', d).Success? == Track(o, d).Success?
  {
  }

  /** process: build the tracked order, then ask for its tracking number; a
      failure lets no object escape. */
  method Process(o: Order, d: Draw) returns (r: Result<TrackedOrder, ErrorKind>)
    ensures r.Failure? <==> Track(o, d).Failure?
    ensures r.Failure? ==> r.error == Track(o, d).error
    ensures r.Success? ==> fresh(r.value) && r.value.Value() == Track(o, d).value
  {
    var trackedOrder := new TrackedOrder(o);
    var n := GetTrackingNumber(d);
    if n.Failure? {
      return Failure(n.error);
    }
    trackedOrder.SetTrackingNumber(n.value);
    return Success(trackedOrder);
  }
}
