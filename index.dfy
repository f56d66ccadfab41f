/**
 * The dashboard page (src/pages/Index.tsx): the in-memory list of orders, the two
 * handlers that replace it, and the status views and counters derived from it.
 */
module Index {
  import opened Wrappers
  import opened OrderCard
  import opened IdFormat
  import NewOrderDialog

  /** The three orders the page starts with. */
  function Seed(): (r: seq<Order>)
    ensures |r| == 3
    ensures r[0].status == Pending && r[1].status == Preparing && r[2].status == Delivered
    ensures r[0].total == Cents(15000) && r[1].total == Cents(22000) && r[2].total == Cents(18000)
  {
    [ Order("001", "Maria Silva", "(11) 98765-4321", "Rua das Flores, 123 - Jardim Primavera",
            "2024-11-15", "Buquê de rosas vermelhas - 12 unidades", Pending, Cents(15000)),
      Order("002", "João Santos", "(11) 97654-3210", "Av. Paulista, 1000 - Apto 501",
            "2024-11-15", "Arranjo misto com lírios e gerberas", Preparing, Cents(22000)),
      Order("003", "Ana Costa", "(11) 96543-2109", "Rua Aurora, 456",
            "2024-11-14", "Cesta de café da manhã com flores", Delivered, Cents(18000)) ]
  }

  // ---------------------------------------------------------------------------
  // handleAddOrder

  /**
   * The list handleAddOrder installs: every earlier order in place, then one new
   * pending order whose id is Pad3 of the new length and whose other fields are
   * the draft's.
   */
  function Added(orders: seq<Order>, d: OrderDraft): (r: seq<Order>)
    ensures |r| == |orders| + 1
    ensures r[..|orders|] == orders
    ensures r[|orders|].id == Pad3(|orders| + 1) && r[|orders|].status == Pending
    ensures r[|orders|].customerName == d.customerName && r[|orders|].phone == d.phone
    ensures r[|orders|].deliveryAddress == d.deliveryAddress
    ensures r[|orders|].deliveryDate == d.deliveryDate
    ensures r[|orders|].arrangement == d.arrangement && r[|orders|].total == d.total
  {
    orders + [Order(Pad3(|orders| + 1), d.customerName, d.phone, d.deliveryAddress,
                    d.deliveryDate, d.arrangement, Pending, d.total)]
  }

  /** The ids are "001", "002", ... in list order, as in the seed. */
  predicate SequentialIds(orders: seq<Order>)
  {
    forall i :: 0 <= i < |orders| ==> orders[i].id == Pad3(i + 1)
  }

  predicate IdsUnique(orders: seq<Order>)
  {
    forall i, j :: 0 <= i < j < |orders| ==> orders[i].id != orders[j].id
  }

  lemma SeedSequential()
    ensures SequentialIds(Seed())
  {
    var seed := Seed();
    assert seed[0].id == "001" && seed[1].id == "002" && seed[2].id == "003";
    Pad3Examples();
    ThreeSequential(seed);
  }

  lemma ThreeSequential(orders: seq<Order>)
    requires |orders| == 3
    requires orders[0].id == Pad3(1) && orders[1].id == Pad3(2) && orders[2].id == Pad3(3)
    ensures SequentialIds(orders)
  {
  }

  /** Adding to a list with sequential ids keeps them sequential. */
  lemma AddedSequential(orders: seq<Order>, d: OrderDraft)
    requires SequentialIds(orders)
    ensures SequentialIds(Added(orders, d))
  {
    var r := Added(orders, d);
    forall i | 0 <= i < |r| ensures r[i].id == Pad3(i + 1) {
      if i < |orders| {
        assert r[i] == r[..|orders|][i];
      }
    }
  }

  /** The id at position i of a list with sequential ids reads back as i + 1. */
  lemma IdValueAt(orders: seq<Order>, i: nat)
    requires SequentialIds(orders) && i < |orders|
    ensures AllDigits(orders[i].id) && Value(orders[i].id) == i + 1
  {
    Pad3Value(i + 1);
  }

  /** Sequential ids are pairwise different. */
  lemma SequentialIdsUnique(orders: seq<Order>)
    requires SequentialIds(orders)
    ensures IdsUnique(orders)
  {
    forall i, j | 0 <= i < j < |orders| ensures orders[i].id != orders[j].id {
      IdValueAt(orders, i);
      IdValueAt(orders, j);
    }
  }

  // ---------------------------------------------------------------------------
  // handleStatusChange

  /**
   * The list handleStatusChange installs (orders.map): every order whose id is the
   * given one gets the new status; everything else is copied as it was.
   */
  function Updated(orders: seq<Order>, id: string, s: Status): (r: seq<Order>)
    ensures |r| == |orders|
    ensures forall i :: 0 <= i < |orders| && orders[i].id == id ==> r[i] == orders[i].(status := s)
    ensures forall i :: 0 <= i < |orders| && orders[i].id != id ==> r[i] == orders[i]
  {
    if orders == [] then []
    else
      var o := orders[0];
      [if o.id == id then o.(status := s) else o] + Updated(orders[1..], id, s)
  }

  /** A status change for an id that is not in the list leaves the list identical. */
  lemma UpdatedUnknownId(orders: seq<Order>, id: string, s: Status)
    requires forall i :: 0 <= i < |orders| ==> orders[i].id != id
    ensures Updated(orders, id, s) == orders
  {
  }

  /** A status change never touches an id, so sequential ids stay sequential. */
  lemma UpdatedSequential(orders: seq<Order>, id: string, s: Status)
    requires SequentialIds(orders)
    ensures SequentialIds(Updated(orders, id, s))
  {
  }

  /**
   * The store itself does not enforce the pipeline: any of the three statuses is
   * installed on a matching order, whatever its current status.
   */
  lemma UpdatedAcceptsAnyStatus(orders: seq<Order>, k: nat, s: Status)
    requires k < |orders|
    ensures Updated(orders, orders[k].id, s)[k].status == s
  {
  }

  /** For instance, the delivered seed order can be sent back to pending. */
  lemma StoreAllowsBackwardStep()
    ensures Seed()[2].status == Delivered
    ensures Updated(Seed(), "003", Pending)[2].status == Pending
    ensures Rank(Updated(Seed(), "003", Pending)[2].status) < Rank(Seed()[2].status)
  {
  }

  /**
   * Only the card's offer keeps the pipeline forward: when the advance button of
   * order k is pressed and ids are unique, order k moves exactly one stage on and
   * every other order is unchanged.
   */
  lemma AdvanceMovesOneStageForward(orders: seq<Order>, k: nat)
    requires k < |orders| && IdsUnique(orders)
    requires AdvanceAction(orders[k]).Some?
    ensures var c := AdvanceAction(orders[k]).value;
            var r := Updated(orders, c.orderId, c.newStatus);
            Rank(r[k].status) == Rank(orders[k].status) + 1 &&
            r[k] == orders[k].(status := c.newStatus) &&
            forall i :: 0 <= i < |orders| && i != k ==> r[i] == orders[i]
  {
  }

  // ---------------------------------------------------------------------------
  // Derived views and counters

  /** orders.filter(o => o.status === s). */
  function FilterByStatus(orders: seq<Order>, s: Status): (r: seq<Order>)
    ensures |r| <= |orders|
    ensures forall i :: 0 <= i < |r| ==> r[i].status == s
    ensures forall o :: o in r ==> o in orders
  {
    if orders == [] then []
    else if orders[0].status == s then [orders[0]] + FilterByStatus(orders[1..], s)
    else FilterByStatus(orders[1..], s)
  }

  /** a is an order-preserving subsequence of b. */
  predicate IsSubsequence(a: seq<Order>, b: seq<Order>)
    decreases |b|
  {
    a == [] ||
    (b != [] && if a[0] == b[0] then IsSubsequence(a[1..], b[1..]) else IsSubsequence(a, b[1..]))
  }

  /**
   * A status view is the subsequence, in list order, of exactly the orders with
   * that status: each such order occurs as often as in the list, no other at all.
   */
  lemma {:induction false} FilterIsStatusSubsequence(orders: seq<Order>, s: Status)
    ensures IsSubsequence(FilterByStatus(orders, s), orders)
    ensures forall o :: multiset(FilterByStatus(orders, s))[o] ==
                        if o.status == s then multiset(orders)[o] else 0
  {
    if orders != [] {
      var rest := orders[1..];
      FilterIsStatusSubsequence(rest, s);
      assert orders == [orders[0]] + rest;
      var r := FilterByStatus(orders, s);
      if orders[0].status == s {
        assert r[1..] == FilterByStatus(rest, s);
      }
    }
  }

  /** Filtering distributes over appending. */
  lemma {:induction false} FilterAppend(orders: seq<Order>, o: Order, s: Status)
    ensures FilterByStatus(orders + [o], s) ==
            FilterByStatus(orders, s) + (if o.status == s then [o] else [])
  {
    if orders != [] {
      assert (orders + [o])[1..] == orders[1..] + [o];
      FilterAppend(orders[1..], o, s);
    } else {
      assert [o][1..] == [];
    }
  }

  /** The three status views partition the list. */
  lemma {:induction false} FilterPartition(orders: seq<Order>)
    ensures |FilterByStatus(orders, Pending)| + |FilterByStatus(orders, Preparing)| +
            |FilterByStatus(orders, Delivered)| == |orders|
  {
    if orders != [] {
      FilterPartition(orders[1..]);
    }
  }

  /** The four counters of the page: all orders, pending, preparing, delivered. */
  datatype Counters = Counters(total: nat, pending: nat, preparing: nat, delivered: nat)

  function Count(orders: seq<Order>): (c: Counters)
    ensures c.total == |orders|
    ensures c.pending + c.preparing + c.delivered == c.total
  {
    FilterPartition(orders);
    Counters(|orders|, |FilterByStatus(orders, Pending)|,
             |FilterByStatus(orders, Preparing)|, |FilterByStatus(orders, Delivered)|)
  }

  /** Adding an order adds one to the total and to the pending counter only. */
  lemma AddedCounts(orders: seq<Order>, d: OrderDraft)
    ensures var before, after := Count(orders), Count(Added(orders, d));
            after == before.(total := before.total + 1, pending := before.pending + 1)
  {
    var o := Added(orders, d)[|orders|];
    assert Added(orders, d) == orders + [o];
    FilterAppend(orders, o, Pending);
    FilterAppend(orders, o, Preparing);
    FilterAppend(orders, o, Delivered);
  }

  /** The counters of the seed, and after advancing its pending order. */
  lemma SeedScenario()
    ensures Count(Seed()) == Counters(3, 1, 1, 1)
    ensures AdvanceAction(Seed()[0]) == Some(StatusChange("001", Preparing))
    ensures Count(Updated(Seed(), "001", Preparing)) == Counters(3, 0, 2, 1)
  {
  }

  // ---------------------------------------------------------------------------
  // The page's state cell

  /** The orders state of the page; each handler replaces it in one step. */
  class OrderStore {
    var orders: seq<Order>

    constructor ()
      ensures orders == Seed() && SequentialIds(orders)
    {
      orders := Seed();
      SeedSequential();
    }

    /** handleAddOrder. */
    method Add(d: OrderDraft)
      modifies this
      ensures orders == Added(old(orders), d)
      ensures old(SequentialIds(orders)) ==> SequentialIds(orders) && IdsUnique(orders)
    {
      if SequentialIds(orders) {
        AddedSequential(orders, d);
        SequentialIdsUnique(Added(orders, d));
      }
      orders := Added(orders, d);
    }

    /** handleStatusChange. */
    method ChangeStatus(id: string, s: Status)
      modifies this
      ensures orders == Updated(old(orders), id, s)
      ensures old(SequentialIds(orders)) ==> SequentialIds(orders)
    {
      if SequentialIds(orders) {
        UpdatedSequential(orders, id, s);
      }
      orders := Updated(orders, id, s);
    }

    /** The counters shown on the page for the current list. */
    function Counts(): (c: Counters)
      reads this
      ensures c.total == |orders| && c.pending + c.preparing + c.delivered == |orders|
    {
      Count(orders)
    }
  }

  /**
   * The page hands handleAddOrder to the dialog as onAddOrder: a submission that
   * passes the guard appends its draft; one that does not leaves the list as it was.
   */
  method SubmitNewOrder(dialog: NewOrderDialog.Dialog, store: OrderStore, parseTotal: string -> Amount)
    returns (notice: NewOrderDialog.Notice)
    modifies dialog, store
    ensures var sent := NewOrderDialog.SubmittedDraft(old(dialog.form), parseTotal);
            store.orders == (if sent.Some? then Added(old(store.orders), sent.value) else old(store.orders))
    ensures notice == NewOrderDialog.MissingFields <==> !NewOrderDialog.RequiredFilled(old(dialog.form))
    ensures NewOrderDialog.RequiredFilled(old(dialog.form)) ==>
              dialog.form == NewOrderDialog.Blank && !dialog.open
    ensures !NewOrderDialog.RequiredFilled(old(dialog.form)) ==>
              dialog.form == old(dialog.form) && dialog.open == old(dialog.open)
  {
    var added;
    added, notice := dialog.Submit(parseTotal);
    if added.Some? {
      store.Add(added.value);
    }
  }

  /**
   * A filled form appends order "004" to the seed with an empty address and status
   * pending; the same form without a customer name appends nothing.
   */
  lemma NewOrderScenario(parseTotal: string -> Amount)
    ensures var f := NewOrderDialog.FormData("Maria", "11999999999", "", "2024-12-01", "Buquê", "99.90");
            var sent := NewOrderDialog.SubmittedDraft(f, parseTotal);
            sent.Some? &&
            Added(Seed(), sent.value)[3] ==
              Order("004", "Maria", "11999999999", "", "2024-12-01", "Buquê", Pending, parseTotal("99.90")) &&
            NewOrderDialog.SubmittedDraft(f.(customerName := ""), parseTotal).None?
  {
    assert Pad3(4) == "004";
  }
}
