/**
 * The supplier dashboard: which action buttons an order offers for its status, the badges,
 * and the `orderActionLoading` marker that the four action handlers set and their simulated
 * completions clear.
 */
module SupplierDashboard {
  import opened Wrappers
  import opened Badges

  /** An order as listed on the dashboard. */
  datatype Order = Order(id: int, institute: string, kind: string, items: string, amount: int, donor: string, status: string)

  const NewOrders: seq<Order> := [
    Order(1, "Sunshine Orphanage", "Food", "Rice (10kg), Dal (5kg), Vegetables, Cooking Oil", 8500, "Rahul Sharma", "Pending Acceptance"),
    Order(2, "Hope Children Center", "Education", "Notebooks (50), Pencils, Erasers, Sharpeners", 6000, "Priya Patel", "Pending Acceptance"),
    Order(3, "Golden Age Home", "Medicine", "First Aid Supplies, Common Medications", 12000, "Suresh Kumar", "Accepted")
  ]

  const InProgressOrders: seq<Order> := [
    Order(4, "New Hope Center", "Food", "Rice, Wheat Flour, Cooking Oil, Spices", 7500, "Amit Singh", "In Progress"),
    Order(5, "Sunshine Orphanage", "Celebration", "Birthday Cake, Decorations, Snacks", 5500, "Meera Reddy", "Ready for Delivery")
  ]

  /** The four action buttons, each wired to its handler. */
  datatype Action = Reject | Accept | MarkReady | MarkDelivered

  /** The buttons of a row of the new-orders table: Reject and Accept while acceptance is pending, else Mark Ready. */
  function NewOrderActions(status: string): (actions: seq<Action>)
    ensures status == "Pending Acceptance" ==> actions == [Reject, Accept]
    ensures status != "Pending Acceptance" ==> actions == [MarkReady]
    ensures MarkDelivered !in actions
  {
    if status == "Pending Acceptance" then [Reject, Accept] else [MarkReady]
  }

  /** The button of a row of the in-progress table: Mark Delivered once ready for delivery, else Mark Ready. */
  function InProgressActions(status: string): (actions: seq<Action>)
    ensures status == "Ready for Delivery" ==> actions == [MarkDelivered]
    ensures status != "Ready for Delivery" ==> actions == [MarkReady]
    ensures Reject !in actions && Accept !in actions
  {
    if status == "Ready for Delivery" then [MarkDelivered] else [MarkReady]
  }

  /** The status badge of an order in progress: a default "Ready" badge or an outlined "In Progress" one. */
  function InProgressBadge(status: string): (badge: (BadgeVariant, string))
    ensures badge.0 == Default <==> status == "Ready for Delivery"
    ensures badge.1 == (if status == "Ready for Delivery" then "Ready" else "In Progress")
  {
    (MarkedBadge(status, "Ready for Delivery"), if status == "Ready for Delivery" then "Ready" else "In Progress")
  }

  /** A row's buttons are disabled exactly while the loading marker names its order. */
  predicate ActionsDisabled(orderActionLoading: Option<int>, order: Order) {
    orderActionLoading == Some(order.id)
  }

  /** While an action of one order is loading, the buttons of every other order stay enabled. */
  lemma OneRowDisabled(orderActionLoading: Option<int>, a: Order, b: Order)
    requires a.id != b.id
    ensures !(ActionsDisabled(orderActionLoading, a) && ActionsDisabled(orderActionLoading, b))
  {
  }

  /** The events that change the loading marker: a click on an action of an order, and a simulated completion. */
  datatype Event = Begin(action: Action, orderId: int) | Complete

  /**
   * The loading marker after one event, whatever it was before: after a click exactly the
   * rows of the clicked order are disabled; after a completion no row is.
   */
  function Step(orderActionLoading: Option<int>, e: Event): (r: Option<int>)
    ensures forall o: Order :: ActionsDisabled(r, o) <==> e.Begin? && o.id == e.orderId
  {
    match e
    case Begin(_, id) => Some(id)
    case Complete => None
  }

  /**
   * The loading marker after a sequence of events: it never names an order that no click
   * named, and without events it is unchanged.
   */
  function Run(orderActionLoading: Option<int>, events: seq<Event>): (r: Option<int>)
    ensures events == [] ==> r == orderActionLoading
    ensures r.Some? && r != orderActionLoading ==>
              exists k :: 0 <= k < |events| && events[k].Begin? && events[k].orderId == r.value
    decreases |events|
  {
    if events == [] then orderActionLoading
    else
      var r := Run(Step(orderActionLoading, events[0]), events[1..]);
      assert r.Some? && r != Step(orderActionLoading, events[0]) ==>
               exists k :: 1 <= k < |events| && events[k].Begin? && events[k].orderId == r.value by {
        if r.Some? && r != Step(orderActionLoading, events[0]) {
          var k :| 0 <= k < |events[1..]| && events[1..][k].Begin? && events[1..][k].orderId == r.value;
          assert events[k + 1] == events[1..][k];
        }
      }
      r
  }

  /**
   * Only the last event counts: after a completion nothing is loading, even when another
   * order's action began after the completed one, and after a click its order is loading.
   */
  lemma {:induction false} LastEventDecides(start: Option<int>, events: seq<Event>)
    requires events != []
    ensures Run(start, events) == match events[|events| - 1]
                                  case Begin(_, id) => Some(id)
                                  case Complete => None
    decreases |events|
  {
    if |events| > 1 {
      LastEventDecides(Step(start, events[0]), events[1..]);
    }
  }

  /** Two overlapping actions: the first completion re-enables the second order while its action is still pending. */
  lemma OverlappingActions(a: int, b: int)
    ensures Run(None, [Begin(Accept, a), Begin(MarkReady, b), Complete]) == None
  {
    LastEventDecides(None, [Begin(Accept, a), Begin(MarkReady, b), Complete]);
  }

  /** The dashboard's state: only the loading marker; the order lists are constants. */
  class SupplierDashboard {
    var orderActionLoading: Option<int>

    constructor ()
      ensures orderActionLoading == None
    {
      orderActionLoading := None;
    }

    /** `handleAcceptOrder`, `handleRejectOrder`, `handleMarkAsReady`, `handleMarkAsDelivered`: the clicked order's actions start loading. */
    method BeginAction(action: Action, orderId: int)
      modifies this
      ensures orderActionLoading == Step(old(orderActionLoading), Begin(action, orderId))
      ensures orderActionLoading == Some(orderId)
    {
      orderActionLoading := Some(orderId);
    }

    /** The handler's simulated request completes and clears the loading marker. */
    method CompleteAction()
      modifies this
      ensures orderActionLoading == Step(old(orderActionLoading), Complete)
      ensures orderActionLoading == None
    {
      orderActionLoading := None;
    }
  }
}
