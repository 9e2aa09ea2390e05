/** The order history's four tabs and which orders each one lists. */
module Orders {
  import opened Common

  datatype OrderStatus = Pending | Accepted | Refused
  datatype PaymentStatus = Paid | Unpaid

  datatype Order = Order(
    id: string,
    orderStatus: OrderStatus,
    paymentStatus: PaymentStatus,
    returnOrder: Option<string>)     // the return reason, when there is one

  /** The tabs, in the order the page shows them. */
  const Tabs: seq<string> := ["Pending", "In delivering", "Successful", "Refuse"]

  /** The `switch` inside `filterOrders`: does tab `tab` list `order`? */
  predicate InTab(order: Order, tab: string)
  {
    if tab == "Pending" then order.orderStatus == Pending
    else if tab == "In delivering" then order.orderStatus == Accepted && order.paymentStatus == Unpaid
    else if tab == "Successful" then order.orderStatus == Accepted && order.paymentStatus == Paid
    else if tab == "Refuse" then order.orderStatus == Refused || IsTruthy(order.returnOrder)
    else false
  }

  /** `filterOrders(tab)`: the orders the tab lists, in their original order. */
  function FilterOrders(orders: seq<Order>, tab: string): (r: seq<Order>)
    ensures forall o :: o in r <==> o in orders && InTab(o, tab)
    ensures forall o :: multiset(r)[o] == if InTab(o, tab) then multiset(orders)[o] else 0
    ensures IsSubsequence(r, orders)
  {
    FilterIsSubsequence(orders, o => InTab(o, tab));
    Filter(orders, o => InTab(o, tab))
  }

  /** "Pending" lists exactly the pending orders. */
  lemma PendingTab(orders: seq<Order>, o: Order)
    ensures o in FilterOrders(orders, "Pending") <==> o in orders && o.orderStatus == Pending
  {
  }

  /** Every accepted order is in exactly one of "In delivering" (unpaid) and
      "Successful" (paid), and neither tab lists an order that is not accepted. */
  lemma AcceptedSplitsByPayment(orders: seq<Order>, o: Order)
    requires o in orders
    ensures o in FilterOrders(orders, "In delivering") <==> o.orderStatus == Accepted && o.paymentStatus == Unpaid
    ensures o in FilterOrders(orders, "Successful") <==> o.orderStatus == Accepted && o.paymentStatus == Paid
    ensures o.orderStatus == Accepted ==>
      (o in FilterOrders(orders, "In delivering") <==> o !in FilterOrders(orders, "Successful"))
  {
  }

  /** "Refuse" lists the refused orders and every order with a return reason. */
  lemma RefuseTab(orders: seq<Order>, o: Order)
    ensures o in FilterOrders(orders, "Refuse") <==>
      o in orders && (o.orderStatus == Refused || IsTruthy(o.returnOrder))
  {
  }

  /** A paid, accepted order with a return reason shows up under two tabs. */
  lemma RefuseOverlapsSuccessful(orders: seq<Order>, o: Order)
    requires o in orders && o.orderStatus == Accepted && o.paymentStatus == Paid && IsTruthy(o.returnOrder)
    ensures o in FilterOrders(orders, "Successful")
    ensures o in FilterOrders(orders, "Refuse")
  {
    assert "Successful" != "Pending" && "Successful" != "In delivering";
    assert "Refuse" != "Pending" && "Refuse" != "In delivering" && "Refuse" != "Successful";
  }

  /** A tab name the page does not know lists nothing. */
  lemma UnknownTabIsEmpty(orders: seq<Order>, tab: string)
    requires tab !in Tabs
    ensures FilterOrders(orders, tab) == []
  {
    FilterDropsAll(orders, o => InTab(o, tab));
  }

  /** No order is left out: each one is listed under at least one of the four tabs. */
  lemma EveryOrderListed(orders: seq<Order>, o: Order)
    requires o in orders
    ensures exists tab :: tab in Tabs && o in FilterOrders(orders, tab)
  {
    match o.orderStatus
    case Pending =>
      assert o in FilterOrders(orders, Tabs[0]);
    case Accepted =>
      if o.paymentStatus == Unpaid {
        assert o in FilterOrders(orders, Tabs[1]);
      } else {
        assert o in FilterOrders(orders, Tabs[2]);
      }
    case Refused =>
      assert o in FilterOrders(orders, Tabs[3]);
  }
}
