/**
 * The vendor's order list: a status select narrows the orders, and each order's action
 * menu offers the next status in the progression pending, processing, shipped.
 */
module VendorOrders {
  import opened Common
  import opened Seqs

  datatype OrderLine = OrderLine(productId: int, name: string, price: int, quantity: int)

  datatype ShippingAddress = ShippingAddress(street: string, city: string, state: string, zipCode: string)

  /** An order as the vendor sees it; money in cents. */
  datatype VendorOrder = VendorOrder(
    id: int,
    customerId: int,
    customerName: string,
    customerEmail: string,
    items: seq<OrderLine>,
    total: int,
    status: string,
    orderDate: string,
    shippingAddress: ShippingAddress)

  function OrderId(o: VendorOrder): int { o.id }

  /** The status effect: "all" shows every order, any other value the orders with that status. */
  function ByStatus(orders: seq<VendorOrder>, statusFilter: string): seq<VendorOrder> {
    if statusFilter == "all" then orders else Filter(orders, (o: VendorOrder) => o.status == statusFilter)
  }

  /** "all" keeps the list; any other value keeps, in order, exactly the orders with that status. */
  lemma ByStatusExactly(orders: seq<VendorOrder>, statusFilter: string)
    ensures statusFilter == "all" ==> ByStatus(orders, statusFilter) == orders
    ensures statusFilter != "all" ==> forall o :: o in ByStatus(orders, statusFilter) <==> o in orders && o.status == statusFilter
    ensures IsSubsequence(ByStatus(orders, statusFilter), orders)
  {
    if statusFilter == "all" {
      SubsequenceReflexive(orders);
    } else {
      FilterIsSubsequence(orders, (o: VendorOrder) => o.status == statusFilter);
    }
  }

  /** `updateOrderStatus(orderId, newStatus)`. */
  function SetStatus(orders: seq<VendorOrder>, orderId: int, newStatus: string): seq<VendorOrder> {
    UpdateKey(orders, OrderId, orderId, (o: VendorOrder) => o.(status := newStatus))
  }

  /**
   * Updating keeps the length and the order, gives the matching orders the new status and
   * leaves every other field of every order, and every other order, as it was.
   */
  lemma SetStatusChangesOnlyStatus(orders: seq<VendorOrder>, orderId: int, newStatus: string)
    ensures |SetStatus(orders, orderId, newStatus)| == |orders|
    ensures forall i :: 0 <= i < |orders| ==>
      && SetStatus(orders, orderId, newStatus)[i].(status := orders[i].status) == orders[i]
      && SetStatus(orders, orderId, newStatus)[i].status == (if orders[i].id == orderId then newStatus else orders[i].status)
  {
  }

  /** The action menu: "Mark as Processing" on a pending order, "Mark as Shipped" on a processing one, nothing else. */
  function OfferedNext(status: string): Option<string> {
    if status == "pending" then Some("processing")
    else if status == "processing" then Some("shipped")
    else None
  }

  /** The position of a status in the progression the menu follows. */
  function StatusRank(status: string): int {
    if status == "pending" then 0
    else if status == "processing" then 1
    else if status == "shipped" then 2
    else -1
  }

  /**
   * The menu offers a transition exactly for pending and processing orders, and each moves
   * one place forward; a shipped order (or one with any other status) is offered nothing.
   */
  lemma OfferedMovesForward(status: string)
    ensures OfferedNext(status).Some? <==> status == "pending" || status == "processing"
    ensures OfferedNext(status).Some? ==> StatusRank(OfferedNext(status).value) == StatusRank(status) + 1
    ensures OfferedNext(status).Some? ==> OfferedNext(status).value != status
  {
  }

  /** From pending, the menu leads to processing, then shipped, then offers nothing more. */
  lemma ProgressionEndsAtShipped()
    ensures OfferedNext("pending") == Some("processing")
    ensures OfferedNext("processing") == Some("shipped")
    ensures OfferedNext("shipped") == None
  {
  }

  /**
   * Taking the offered step on a pending order (ids unique) takes it out of the pending
   * view and puts it in the processing view.
   */
  lemma AdvancePendingCounts(orders: seq<VendorOrder>, i: int)
    requires UniqueKeys(orders, OrderId) && 0 <= i < |orders| && orders[i].status == "pending"
    ensures |ByStatus(SetStatus(orders, orders[i].id, "processing"), "pending")| == |ByStatus(orders, "pending")| - 1
    ensures |ByStatus(SetStatus(orders, orders[i].id, "processing"), "processing")| == |ByStatus(orders, "processing")| + 1
  {
    var f := (o: VendorOrder) => o.(status := "processing");
    var pending := (o: VendorOrder) => o.status == "pending";
    var processing := (o: VendorOrder) => o.status == "processing";
    var r := SetStatus(orders, orders[i].id, "processing");
    assert r == UpdateKey(orders, OrderId, orders[i].id, f);
    CountAfterUpdate(orders, OrderId, orders[i].id, f, pending, i);
    CountAfterUpdate(orders, OrderId, orders[i].id, f, processing, i);
    assert ByStatus(r, "pending") == Filter(r, pending);
    assert ByStatus(orders, "pending") == Filter(orders, pending);
    assert ByStatus(r, "processing") == Filter(r, processing);
    assert ByStatus(orders, "processing") == Filter(orders, processing);
  }

  class VendorOrdersPage {
    var orders: seq<VendorOrder>
    var filteredOrders: seq<VendorOrder>
    var statusFilter: string

    /** The table shows the status effect's result. */
    ghost predicate Valid()
      reads this
    {
      filteredOrders == ByStatus(orders, statusFilter)
    }

    /** The mount effect installs the page's own order fixture. */
    constructor (mockOrders: seq<VendorOrder>)
      ensures orders == mockOrders && filteredOrders == mockOrders && statusFilter == "all" && Valid()
    {
      orders, filteredOrders, statusFilter := mockOrders, mockOrders, "all";
    }

    method SetStatusFilter(f: string)
      modifies this
      ensures statusFilter == f && orders == old(orders) && Valid()
    {
      statusFilter := f;
      filteredOrders := ByStatus(orders, statusFilter);
    }

    method UpdateOrderStatus(orderId: int, newStatus: string)
      modifies this
      ensures orders == SetStatus(old(orders), orderId, newStatus)
      ensures statusFilter == old(statusFilter) && Valid()
    {
      orders := SetStatus(orders, orderId, newStatus);
      filteredOrders := ByStatus(orders, statusFilter);
    }

    /** The action menu item of the order at `i`, which exists only when a transition is offered. */
    method Advance(i: int)
      requires 0 <= i < |orders| && OfferedNext(orders[i].status).Some?
      modifies this
      ensures orders == SetStatus(old(orders), old(orders)[i].id, OfferedNext(old(orders)[i].status).value)
      ensures StatusRank(orders[i].status) == StatusRank(old(orders)[i].status) + 1
      ensures statusFilter == old(statusFilter) && Valid()
    {
      var o := orders[i];
      OfferedMovesForward(o.status);
      UpdateOrderStatus(o.id, OfferedNext(o.status).value);
    }
  }
}
