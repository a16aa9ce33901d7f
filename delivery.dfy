/**
 * The delivery agent's dashboard: the orders assigned to the agent, counters taken when
 * they load, a "Start" action for assigned orders, and a "Complete" action for orders in
 * transit that asks for the customer's one-time code before marking the order delivered.
 */
module Delivery {
  import opened Common
  import opened Seqs

  /** An assigned order; fields the page only displays (lines, address, dates) are not modelled. */
  datatype DeliveryOrder = DeliveryOrder(
    id: int,
    customerName: string,
    customerPhone: string,
    total: int,
    status: string,
    otp: string,
    priority: string,
    distance: string,
    deliveredDate: Option<string>)

  function OrderId(o: DeliveryOrder): int { o.id }

  /** The four counters; the distance is in tenths of a mile. */
  datatype DeliveryStats = DeliveryStats(assignedOrders: int, completedToday: int, pendingDeliveries: int, totalDistance: int)

  /** Counted as assigned: still to be delivered, whether started or not. */
  predicate IsOpen(o: DeliveryOrder) { o.status == "assigned" || o.status == "in-transit" }

  predicate IsDelivered(o: DeliveryOrder) { o.status == "delivered" }

  predicate IsNotStarted(o: DeliveryOrder) { o.status == "assigned" }

  predicate IsNotDelivered(o: DeliveryOrder) { o.status != "delivered" }

  /** The counters the load step computes; the distance is the fixed 8.5 miles. */
  function InitialStats(orders: seq<DeliveryOrder>): DeliveryStats {
    DeliveryStats(|Filter(orders, IsOpen)|, |Filter(orders, IsDelivered)|, |Filter(orders, IsNotStarted)|, 85)
  }

  /** The assigned and completed counters agree with the orders. */
  ghost predicate CountersAgree(stats: DeliveryStats, orders: seq<DeliveryOrder>) {
    stats.assignedOrders == |Filter(orders, IsOpen)| && stats.completedToday == |Filter(orders, IsDelivered)|
  }

  /** After loading, every counter agrees with the orders it counts. */
  lemma InitialStatsAgree(orders: seq<DeliveryOrder>)
    ensures CountersAgree(InitialStats(orders), orders)
    ensures InitialStats(orders).pendingDeliveries == |Filter(orders, IsNotStarted)|
    ensures InitialStats(orders).assignedOrders <= |orders| && InitialStats(orders).completedToday <= |orders|
  {
  }

  /** The "Active Deliveries" table. */
  function ActiveView(orders: seq<DeliveryOrder>): seq<DeliveryOrder> { Filter(orders, IsNotDelivered) }

  /** The "Delivery History" table. */
  function HistoryView(orders: seq<DeliveryOrder>): seq<DeliveryOrder> { Filter(orders, IsDelivered) }

  /** Every order is in exactly one of the two tables. */
  lemma ViewsPartition(orders: seq<DeliveryOrder>)
    ensures forall o :: o in orders ==> (o in ActiveView(orders) <==> o !in HistoryView(orders))
    ensures |ActiveView(orders)| + |HistoryView(orders)| == |orders|
  {
    FilterComplement(orders, IsNotDelivered, IsDelivered);
  }

  /** The change `updateOrderStatus` makes to the matching order; `now` is the clock's time. */
  function WithStatus(o: DeliveryOrder, newStatus: string, now: string): DeliveryOrder {
    o.(status := newStatus, deliveredDate := if newStatus == "delivered" then Some(now) else o.deliveredDate)
  }

  /** `updateOrderStatus(orderId, newStatus)` on the order list. */
  function SetStatus(orders: seq<DeliveryOrder>, orderId: int, newStatus: string, now: string): seq<DeliveryOrder> {
    UpdateKey(orders, OrderId, orderId, (o: DeliveryOrder) => WithStatus(o, newStatus, now))
  }

  /**
   * Only the matching orders change, and only their status and, when the new status is
   * "delivered", their delivery date; the length and order are kept.
   */
  lemma SetStatusChangesOnlyStatus(orders: seq<DeliveryOrder>, orderId: int, newStatus: string, now: string)
    ensures |SetStatus(orders, orderId, newStatus, now)| == |orders|
    ensures forall i :: 0 <= i < |orders| && orders[i].id != orderId ==> SetStatus(orders, orderId, newStatus, now)[i] == orders[i]
    ensures forall i :: 0 <= i < |orders| && orders[i].id == orderId ==>
      && SetStatus(orders, orderId, newStatus, now)[i].status == newStatus
      && SetStatus(orders, orderId, newStatus, now)[i].(status := orders[i].status, deliveredDate := orders[i].deliveredDate) == orders[i]
      && (newStatus == "delivered" ==> SetStatus(orders, orderId, newStatus, now)[i].deliveredDate == Some(now))
      && (newStatus != "delivered" ==> SetStatus(orders, orderId, newStatus, now)[i].deliveredDate == orders[i].deliveredDate)
  {
  }

  /**
   * The counter update: a delivery moves one from assigned to completed, so their sum is
   * kept; the pending counter never changes, and no other status changes any counter.
   */
  function StatsAfter(stats: DeliveryStats, newStatus: string): (r: DeliveryStats)
    ensures r.completedToday + r.assignedOrders == stats.completedToday + stats.assignedOrders
    ensures r.pendingDeliveries == stats.pendingDeliveries
    ensures newStatus == "delivered" ==>
      r.completedToday == stats.completedToday + 1 && r.assignedOrders == stats.assignedOrders - 1
    ensures newStatus != "delivered" ==> r == stats
  {
    if newStatus == "delivered" then
      stats.(completedToday := stats.completedToday + 1, assignedOrders := stats.assignedOrders - 1)
    else stats
  }

  /**
   * Delivering an open order (ids unique) keeps the counters in agreement with the orders:
   * the order leaves the assigned count and joins the completed count.
   */
  lemma DeliverKeepsCountersAgreeing(stats: DeliveryStats, orders: seq<DeliveryOrder>, order: DeliveryOrder, now: string)
    requires UniqueKeys(orders, OrderId) && order in orders && IsOpen(order)
    requires CountersAgree(stats, orders)
    ensures CountersAgree(StatsAfter(stats, "delivered"), SetStatus(orders, order.id, "delivered", now))
  {
    var i :| 0 <= i < |orders| && orders[i] == order;
    var f := (o: DeliveryOrder) => WithStatus(o, "delivered", now);
    assert SetStatus(orders, orders[i].id, "delivered", now) == UpdateKey(orders, OrderId, orders[i].id, f);
    CountAfterUpdate(orders, OrderId, orders[i].id, f, IsOpen, i);
    CountAfterUpdate(orders, OrderId, orders[i].id, f, IsDelivered, i);
  }

  /**
   * Starting an assigned order keeps the assigned and completed counters in agreement, but
   * one order fewer is waiting to start while the pending counter is not updated.
   */
  lemma StartKeepsCountersAgreeing(stats: DeliveryStats, orders: seq<DeliveryOrder>, i: int, now: string)
    requires UniqueKeys(orders, OrderId) && 0 <= i < |orders| && IsNotStarted(orders[i])
    requires CountersAgree(stats, orders)
    ensures CountersAgree(StatsAfter(stats, "in-transit"), SetStatus(orders, orders[i].id, "in-transit", now))
    ensures StatsAfter(stats, "in-transit").pendingDeliveries == stats.pendingDeliveries
    ensures |Filter(SetStatus(orders, orders[i].id, "in-transit", now), IsNotStarted)| == |Filter(orders, IsNotStarted)| - 1
  {
    var f := (o: DeliveryOrder) => WithStatus(o, "in-transit", now);
    assert SetStatus(orders, orders[i].id, "in-transit", now) == UpdateKey(orders, OrderId, orders[i].id, f);
    CountAfterUpdate(orders, OrderId, orders[i].id, f, IsOpen, i);
    CountAfterUpdate(orders, OrderId, orders[i].id, f, IsDelivered, i);
    CountAfterUpdate(orders, OrderId, orders[i].id, f, IsNotStarted, i);
  }

  /**
   * The counter update does not look at the orders: "delivering" an id that is not in the
   * list leaves the orders as they were but still moves the counters, which then disagree.
   */
  lemma DeliverAbsentIdMovesCounters(stats: DeliveryStats, orders: seq<DeliveryOrder>, orderId: int, now: string)
    requires !HasKey(orders, OrderId, orderId) && CountersAgree(stats, orders)
    ensures SetStatus(orders, orderId, "delivered", now) == orders
    ensures !CountersAgree(StatsAfter(stats, "delivered"), SetStatus(orders, orderId, "delivered", now))
  {
    assert UpdateKey(orders, OrderId, orderId, (o: DeliveryOrder) => WithStatus(o, "delivered", now)) == orders;
  }

  /** The code box keeps at most four characters (`maxLength={4}`). */
  function OtpField(typed: string): (r: string)
    ensures |r| <= 4
    ensures |typed| <= 4 ==> r == typed
    ensures r == typed[..|r|]
  {
    if |typed| <= 4 then typed else typed[..4]
  }

  /**
   * "Confirm Delivery" is enabled only with four characters in the code box
   * (`disabled={otpInput.length !== 4}`); such a box is exactly what typing at least four
   * characters leaves, namely their first four.
   */
  function CanConfirm(otpInput: string): (r: bool)
    ensures r <==> |otpInput| == 4
    ensures r ==> OtpField(otpInput) == otpInput
  {
    |otpInput| == 4
  }

  /** Typing enables the button exactly when at least four characters were typed, and then the box holds the first four. */
  lemma ConfirmAfterTyping(typed: string)
    ensures CanConfirm(OtpField(typed)) <==> |typed| >= 4
    ensures CanConfirm(OtpField(typed)) ==> OtpField(typed) == typed[..4]
  {
  }

  class DeliveryDashboard {
    var orders: seq<DeliveryOrder>
    var stats: DeliveryStats
    var selectedOrder: Option<DeliveryOrder>
    var otpInput: string
    var showOtpModal: bool

    /** The mount effect: the page's own order fixture and the counters taken from it. */
    constructor (mockOrders: seq<DeliveryOrder>)
      ensures orders == mockOrders && stats == InitialStats(mockOrders) && CountersAgree(stats, orders)
      ensures selectedOrder == None && otpInput == "" && !showOtpModal
    {
      orders := mockOrders;
      stats := InitialStats(mockOrders);
      selectedOrder, otpInput, showOtpModal := None, "", false;
    }

    /** `updateOrderStatus` on the page's state. */
    method UpdateOrderStatus(orderId: int, newStatus: string, now: string)
      modifies this
      ensures orders == SetStatus(old(orders), orderId, newStatus, now)
      ensures stats == StatsAfter(old(stats), newStatus)
      ensures selectedOrder == old(selectedOrder) && otpInput == old(otpInput) && showOtpModal == old(showOtpModal)
    {
      orders := SetStatus(orders, orderId, newStatus, now);
      stats := StatsAfter(stats, newStatus);
    }

    /** `handleStartDelivery`: the order goes in transit and the counters stay as they are. */
    method StartDelivery(orderId: int, now: string)
      modifies this
      ensures orders == SetStatus(old(orders), orderId, "in-transit", now) && stats == old(stats)
      ensures selectedOrder == old(selectedOrder) && otpInput == old(otpInput) && showOtpModal == old(showOtpModal)
    {
      UpdateOrderStatus(orderId, "in-transit", now);
    }

    /** `handleCompleteDelivery`: open the code dialog for the order. */
    method CompleteDelivery(order: DeliveryOrder)
      modifies this
      ensures selectedOrder == Some(order) && showOtpModal
      ensures orders == old(orders) && stats == old(stats) && otpInput == old(otpInput)
    {
      selectedOrder := Some(order);
      showOtpModal := true;
    }

    method TypeOtp(typed: string)
      modifies this
      ensures otpInput == OtpField(typed)
      ensures orders == old(orders) && stats == old(stats) && selectedOrder == old(selectedOrder) && showOtpModal == old(showOtpModal)
    {
      otpInput := OtpField(typed);
    }

    /**
     * `handleOtpVerification`, reached through "Confirm Delivery": the dialog is only open
     * with an order selected, and the button is only enabled with four characters entered. A
     * matching code delivers the order and closes the dialog; any other code changes nothing
     * and the dialog stays open, so an order whose code is not four characters long is never
     * delivered here. Delivering an open order of the list keeps the counters agreeing.
     */
    method VerifyOtp(now: string)
      requires showOtpModal && selectedOrder.Some? && CanConfirm(otpInput)
      modifies this
      ensures old(otpInput) == old(selectedOrder).value.otp ==>
        && orders == SetStatus(old(orders), old(selectedOrder).value.id, "delivered", now)
        && stats == StatsAfter(old(stats), "delivered")
        && !showOtpModal && otpInput == "" && selectedOrder == None
      ensures old(otpInput) != old(selectedOrder).value.otp ==>
        && orders == old(orders) && stats == old(stats)
        && showOtpModal == old(showOtpModal) && otpInput == old(otpInput) && selectedOrder == old(selectedOrder)
      ensures |old(selectedOrder).value.otp| != 4 ==> orders == old(orders) && stats == old(stats) && showOtpModal
      ensures (&& old(CountersAgree(stats, orders)) && UniqueKeys(old(orders), OrderId)
               && old(selectedOrder).value in old(orders) && IsOpen(old(selectedOrder).value))
        ==> CountersAgree(stats, orders)
    {
      var order := selectedOrder.value;
      if otpInput == order.otp {
        ghost var agreed := CountersAgree(stats, orders) && UniqueKeys(orders, OrderId) && order in orders && IsOpen(order);
        if agreed {
          DeliverKeepsCountersAgreeing(stats, orders, order, now);
        }
        UpdateOrderStatus(order.id, "delivered", now);
        assert agreed ==> CountersAgree(stats, orders);
        showOtpModal := false;
        otpInput := "";
        selectedOrder := None;
      }
    }

    /** The dialog's "Cancel" button. */
    method CancelOtp()
      modifies this
      ensures !showOtpModal && otpInput == "" && selectedOrder == None
      ensures orders == old(orders) && stats == old(stats)
    {
      showOtpModal, otpInput, selectedOrder := false, "", None;
    }
  }
}
