/** The customer's order list (AnticcaReale-main/src/pages/OrdersPage.tsx): the progress
    steps, the active/completed classification, the tabs and their counts, and the
    status timeline. */
module OrdersPage {
  import opened Types
  import opened Seqs

  /** `ORDER_STEPS`: the progress of an order that is not cancelled. */
  const ORDER_STEPS: seq<OrderStatus> := [AwaitingPayment, Paid, Preparing, Shipped, Delivered]

  /** `findIndex`: the first position holding `x`, or -1. */
  function FindIndex(s: seq<OrderStatus>, x: OrderStatus): (i: int)
    ensures -1 <= i < |s|
    ensures i >= 0 ==> s[i] == x && forall j :: 0 <= j < i ==> s[j] != x
    ensures i == -1 <==> x !in s
  {
    if s == [] then -1
    else if s[0] == x then 0
    else
      var k := FindIndex(s[1..], x);
      if k == -1 then -1 else k + 1
  }

  /** `getStepIndex`. */
  function GetStepIndex(status: OrderStatus): int
  {
    var idx := FindIndex(ORDER_STEPS, status);
    if idx >= 0 then idx else -1
  }

  /** Every status but a cancellation has its place among the steps, and the places
      follow the order's progress; only a cancellation has -1. */
  lemma StepIndexContract(status: OrderStatus)
    ensures GetStepIndex(status) == -1 <==> status == Cancelled
    ensures status != Cancelled ==> ORDER_STEPS[GetStepIndex(status)] == status
    ensures GetStepIndex(status) == (match status
      case AwaitingPayment => 0 case Paid => 1 case Preparing => 2
      case Shipped => 3 case Delivered => 4 case Cancelled => -1)
  {
  }

  /** `isActiveOrder`. */
  predicate IsActiveOrder(order: Order)
  {
    order.status in [AwaitingPayment, Paid, Preparing, Shipped]
  }

  /** `isCompletedOrder`. */
  predicate IsCompletedOrder(order: Order)
  {
    order.status in [Delivered, Cancelled]
  }

  /** Every order is in exactly one of the two groups; the active ones are those not yet
      delivered or cancelled, which are exactly those placed before the last step. */
  lemma ActiveOrCompleted(order: Order)
    ensures IsActiveOrder(order) != IsCompletedOrder(order)
    ensures IsActiveOrder(order) <==> 0 <= GetStepIndex(order.status) < 4
  {
    var active := [AwaitingPayment, Paid, Preparing, Shipped];
    var completed := [Delivered, Cancelled];
    match order.status
    case AwaitingPayment => assert active[0] == order.status;
    case Paid => assert active[1] == order.status;
    case Preparing => assert active[2] == order.status;
    case Shipped => assert active[3] == order.status;
    case Delivered => assert completed[0] == order.status;
    case Cancelled => assert completed[1] == order.status;
  }

  datatype Tab = AllTab | ActiveTab | CompletedTab

  /** The test of the tab's filter. */
  function InTab(tab: Tab): Order -> bool
  {
    order => if tab == ActiveTab then IsActiveOrder(order)
             else if tab == CompletedTab then IsCompletedOrder(order)
             else true
  }

  /** `filteredOrders`. */
  function FilteredOrders(orders: seq<Order>, tab: Tab): seq<Order>
  {
    Filter(orders, InTab(tab))
  }

  /** The "all" tab shows every order in its order; the other two show exactly the
      matching orders, in their order. */
  lemma TabsContract(orders: seq<Order>, tab: Tab)
    ensures tab == AllTab ==> FilteredOrders(orders, tab) == orders
    ensures tab == ActiveTab ==> FilteredOrders(orders, tab) == Filter(orders, IsActiveOrder)
    ensures tab == CompletedTab ==> FilteredOrders(orders, tab) == Filter(orders, IsCompletedOrder)
    ensures forall o :: o in FilteredOrders(orders, tab) <==> o in orders && InTab(tab)(o)
  {
    if tab == AllTab {
      FilterAll(orders, InTab(tab));
    } else if tab == ActiveTab {
      FilterEquiv(orders, InTab(tab), IsActiveOrder);
    } else {
      FilterEquiv(orders, InTab(tab), IsCompletedOrder);
    }
    forall o ensures o in FilteredOrders(orders, tab) <==> o in orders && InTab(tab)(o) {
      FilterMembership(orders, InTab(tab), o);
    }
  }

  /** `activeCount` and `completedCount`. */
  function ActiveCount(orders: seq<Order>): nat { |Filter(orders, IsActiveOrder)| }

  function CompletedCount(orders: seq<Order>): nat { |Filter(orders, IsCompletedOrder)| }

  /** The two tab counts add up to the number of orders. */
  lemma CountsAddUp(orders: seq<Order>)
    ensures ActiveCount(orders) + CompletedCount(orders) == |orders|
  {
    forall i | 0 <= i < |orders| ensures IsActiveOrder(orders[i]) <==> !IsCompletedOrder(orders[i]) {
      ActiveOrCompleted(orders[i]);
    }
    FilterPartition(orders, IsActiveOrder, IsCompletedOrder);
  }

  /** What `OrderTimeline` draws: a cancellation banner, or the five steps with the
      completed and the current one marked. */
  datatype Timeline = CancelledBanner | Steps(completed: seq<bool>, current: seq<bool>)

  function TimelineOf(order: Order): (t: Timeline)
    ensures t.CancelledBanner? <==> order.status == Cancelled
    ensures t.Steps? ==> |t.completed| == |ORDER_STEPS| == |t.current|
    ensures t.Steps? ==> forall k :: 0 <= k < |t.completed| ==>
      (t.completed[k] <==> k <= GetStepIndex(order.status))
  {
    if order.status == Cancelled then CancelledBanner
    else
      var currentIndex := GetStepIndex(order.status);
      Steps(seq(|ORDER_STEPS|, index => currentIndex >= index),
            seq(|ORDER_STEPS|, index => currentIndex == index))
  }

  /** The marked steps are the steps the order has passed through, ending at exactly one
      current step: the one for its status. */
  lemma TimelineMarksProgress(order: Order)
    requires order.status != Cancelled
    ensures var t := TimelineOf(order);
      && (forall j, k :: 0 <= j <= k < |t.completed| && t.completed[k] ==> t.completed[j])
      && (forall k :: 0 <= k < |t.current| ==> (t.current[k] <==> ORDER_STEPS[k] == order.status))
      && t.completed[0]
  {
    StepIndexContract(order.status);
  }
}
