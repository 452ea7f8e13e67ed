/** The orders screen: the order history split into an "active" and a
    "completed" tab on the delivered status. */
module OrdersScreen {
  import opened Types
  import opened Seqs

  datatype Order = Order(
    id: string,
    date: string,
    status: string,
    total: int,
    items: int,
    supplier: string,
    expectedDelivery: Option<string>,
    deliveredOn: Option<string>,
    trackingId: Option<string>,
    products: seq<string>)

  const MockOrders: seq<Order> := [
    Order("ORD001", "2024-01-15", "shipped", 2499, 3, "Fashion Hub Ltd.", Some("2024-01-18"), None, Some("TRK123456789"),
          ["Premium Cotton T-Shirts", "Casual Shirts", "Polo T-Shirts"]),
    Order("ORD002", "2024-01-10", "delivered", 1299, 1, "Tech Solutions", None, Some("2024-01-12"), None,
          ["Wireless Bluetooth Earbuds"]),
    Order("ORD003", "2024-01-08", "processing", 899, 2, "Home Essentials", Some("2024-01-20"), None, None,
          ["Kitchen Storage Containers", "Water Bottles"])
  ]

  function IsActive(o: Order): bool {
    o.status != "delivered"
  }

  function IsCompleted(o: Order): bool {
    o.status == "delivered"
  }

  function ActiveOrders(orders: seq<Order>): (r: seq<Order>)
    ensures forall i :: 0 <= i < |r| ==> r[i].status != "delivered" && r[i] in orders
    ensures forall i :: 0 <= i < |orders| && orders[i].status != "delivered" ==> orders[i] in r
  {
    Filter(orders, IsActive)
  }

  function CompletedOrders(orders: seq<Order>): (r: seq<Order>)
    ensures forall i :: 0 <= i < |r| ==> r[i].status == "delivered" && r[i] in orders
    ensures forall i :: 0 <= i < |orders| && orders[i].status == "delivered" ==> orders[i] in r
  {
    Filter(orders, IsCompleted)
  }

  /** The two tabs split the history: the counts in the tab labels add up to
      the number of orders, every order sits in exactly one tab, and each tab
      keeps the history's order. */
  lemma TabsPartition(orders: seq<Order>)
    ensures |ActiveOrders(orders)| + |CompletedOrders(orders)| == |orders|
    ensures multiset(ActiveOrders(orders)) + multiset(CompletedOrders(orders)) == multiset(orders)
    ensures IsSubsequence(ActiveOrders(orders), orders) && IsSubsequence(CompletedOrders(orders), orders)
  {
    FilterPartition(orders, IsActive, IsCompleted);
    FilterIsSubsequence(orders, IsActive);
    FilterIsSubsequence(orders, IsCompleted);
  }

  datatype Tab = Active | Completed

  /** The list under the selected tab: exactly the orders whose delivery
      state matches the tab, in history order. */
  function OrdersToShow(tab: Tab, orders: seq<Order>): (r: seq<Order>)
    ensures forall o :: o in r <==> o in orders && (o.status == "delivered" <==> tab == Completed)
    ensures IsSubsequence(r, orders)
  {
    TabsPartition(orders);
    if tab == Active then
      FilterMembers(orders, IsActive);
      assert forall o :: o in ActiveOrders(orders) <==> o in orders && IsActive(o);
      ActiveOrders(orders)
    else
      FilterMembers(orders, IsCompleted);
      assert forall o :: o in CompletedOrders(orders) <==> o in orders && IsCompleted(o);
      assert tab == Completed;
      CompletedOrders(orders)
  }

  /** The mock history: two active orders (shipped, processing) and one
      completed. */
  lemma MockTabs()
    ensures ActiveOrders(MockOrders) == [MockOrders[0], MockOrders[2]]
    ensures CompletedOrders(MockOrders) == [MockOrders[1]]
  {
    var s := MockOrders;
    assert s == [s[0], s[1], s[2]];
    OneDeliveredInMiddle(s[0], s[1], s[2]);
  }

  lemma OneDeliveredInMiddle(a: Order, b: Order, c: Order)
    requires a.status != "delivered" && b.status == "delivered" && c.status != "delivered"
    ensures ActiveOrders([a, b, c]) == [a, c] && CompletedOrders([a, b, c]) == [b]
  {
    FilterOfThree(a, b, c, IsActive);
    FilterOfThree(a, b, c, IsCompleted);
  }

  /** Filtering three elements, one at a time. */
  lemma FilterOfThree<T>(a: T, b: T, c: T, keep: T -> bool)
    ensures Filter([a, b, c], keep) ==
            (if keep(a) then [a] else []) + (if keep(b) then [b] else []) + (if keep(c) then [c] else [])
  {
    var t1: seq<T> := [c];
    var t0 := [b] + t1;
    assert t0 == [b, c] && [a] + t0 == [a, b, c] && [c] + [] == t1;
    FilterCons(c, [], keep);
    FilterCons(b, t1, keep);
    FilterCons(a, t0, keep);
  }

  const Processing: string := "bg-yellow-100 text-yellow-800"
  const Shipped: string := "bg-blue-100 text-blue-800"
  const Delivered: string := "bg-green-100 text-green-800"
  const Other: string := "bg-gray-100 text-gray-800"

  /** getStatusColor: the three known statuses get three different badge
      styles; every other status is gray. */
  function StatusColor(status: string): (c: string)
    ensures status == "processing" <==> c == Processing
    ensures status == "shipped" <==> c == Shipped
    ensures status == "delivered" <==> c == Delivered
    ensures status !in {"processing", "shipped", "delivered"} <==> c == Other
  {
    match status
    case "processing" => Processing
    case "shipped" => Shipped
    case "delivered" => Delivered
    case _ => Other
  }
}
