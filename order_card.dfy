/**
 * The order record, its three-valued status and the card's "advance" button
 * (src/components/OrderCard.tsx).
 */
module OrderCard {
  import opened Wrappers

  /** The stages of the delivery pipeline; the status field takes exactly these values. */
  datatype Status = Pending | Preparing | Delivered

  /**
   * An order total. The source stores a floating-point number; here it is a whole
   * number of cents, or NotANumber for what parseFloat yields on unparsable text.
   */
  datatype Amount = Cents(cents: int) | NotANumber

  datatype Order = Order(
    id: string,
    customerName: string,
    phone: string,
    deliveryAddress: string,
    deliveryDate: string,
    arrangement: string,
    status: Status,
    total: Amount)

  /** An order without its id and status: what the new-order form hands to the store. */
  datatype OrderDraft = OrderDraft(
    customerName: string,
    phone: string,
    deliveryAddress: string,
    deliveryDate: string,
    arrangement: string,
    total: Amount)

  /** The status field takes exactly three values, and they are distinct. */
  lemma StatusValues(s: Status)
    ensures s == Pending || s == Preparing || s == Delivered
    ensures |{Pending, Preparing, Delivered}| == 3
  {
  }

  /** Position of a status in the pipeline, a reference order independent of NextStatus. */
  function Rank(s: Status): nat
  {
    match s
    case Pending => 0
    case Preparing => 1
    case Delivered => 2
  }

  /** getNextStatus: the status the card offers to move to, if any. */
  function NextStatus(s: Status): (r: Option<Status>)
    ensures r.Some? <==> s != Delivered
    ensures r.Some? ==> Rank(r.value) == Rank(s) + 1
  {
    if s.Pending? then Some(Preparing)
    else if s.Preparing? then Some(Delivered)
    else None
  }

  /** NextStatus is exactly the one-stage-later relation of the pipeline order. */
  lemma NextStatusIsRankSuccessor(s: Status, t: Status)
    ensures NextStatus(s) == Some(t) <==> Rank(t) == Rank(s) + 1
  {
  }

  /** The successor table of the pipeline, value by value. */
  lemma NextStatusTable()
    ensures NextStatus(Pending) == Some(Preparing)
    ensures NextStatus(Preparing) == Some(Delivered)
    ensures NextStatus(Delivered) == None
  {
  }

  /** No status is its own successor. */
  lemma NoSelfSuccessor(s: Status)
    ensures NextStatus(s) != Some(s)
  {
  }

  /**
   * The statuses an order passes through when advanced from s, one NextStatus at a
   * time, until none is offered: it ends at Delivered after at most two steps.
   */
  function Pipeline(s: Status): (r: seq<Status>)
    decreases 2 - Rank(s)
    ensures |r| == 3 - Rank(s) && |r| <= 3
    ensures r[0] == s && r[|r| - 1] == Delivered
    ensures forall i :: 0 <= i < |r| - 1 ==> NextStatus(r[i]) == Some(r[i + 1])
    ensures NextStatus(r[|r| - 1]) == None
  {
    match NextStatus(s)
    case None => [s]
    case Some(t) => [s] + Pipeline(t)
  }

  /** The arguments the advance button passes to onStatusChange. */
  datatype StatusChange = StatusChange(orderId: string, newStatus: Status)

  /**
   * The advance button of a card: present exactly when a next status exists, and
   * pressing it calls back with the card's own id and that next status.
   */
  function AdvanceAction(o: Order): (r: Option<StatusChange>)
    ensures r.Some? <==> o.status != Delivered
    ensures r.Some? ==> r.value.orderId == o.id && NextStatus(o.status) == Some(r.value.newStatus)
    ensures r.Some? ==> Rank(r.value.newStatus) == Rank(o.status) + 1
  {
    match NextStatus(o.status)
    case None => None
    case Some(n) => Some(StatusChange(o.id, n))
  }
}
