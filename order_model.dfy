/** The Order document: its status enum, its line items and their constraints. */
module OrderModel {
  import opened Js
  import opened Api

  /** ORDER_STATUSES, one constructor per value. */
  datatype Status = Pending | Confirmed | Preparing | OutForDelivery | Completed | Cancelled

  /** ORDER_STATUSES in its declared order. */
  const OrderStatuses: seq<Status> := [Pending, Confirmed, Preparing, OutForDelivery, Completed, Cancelled]

  /** The status a new order takes when none is given. */
  const DefaultStatus: Status := Pending

  /** The string stored for each status. */
  function StatusName(s: Status): string {
    match s
    case Pending => "Pending"
    case Confirmed => "Confirmed"
    case Preparing => "Preparing"
    case OutForDelivery => "Out for Delivery"
    case Completed => "Completed"
    case Cancelled => "Cancelled"
  }

  /** The enum lists each status exactly once, and distinct statuses have distinct names. */
  lemma StatusesExactlyOnce()
    ensures |OrderStatuses| == 6
    ensures forall s :: s in OrderStatuses
    ensures forall i, j :: 0 <= i < j < |OrderStatuses| ==> OrderStatuses[i] != OrderStatuses[j]
    ensures forall s, t :: StatusName(s) == StatusName(t) ==> s == t
  {
    forall s ensures s in OrderStatuses {
      match s
      case Pending => assert OrderStatuses[0] == s;
      case Confirmed => assert OrderStatuses[1] == s;
      case Preparing => assert OrderStatuses[2] == s;
      case OutForDelivery => assert OrderStatuses[3] == s;
      case Completed => assert OrderStatuses[4] == s;
      case Cancelled => assert OrderStatuses[5] == s;
    }
  }

  /** Who may be recorded as having cancelled an order. */
  datatype Canceller = Customer | Admin

  /** A line of an order: a copy of the food's id, name and price at ordering time. */
  datatype OrderLine = OrderLine(food: FoodId, name: string, price: nat, quantity: nat, subtotal: nat)

  /**
   * An order; `cancelledBy` is absent (`None`) or one of the two cancellers,
   * and `status` is one of ORDER_STATUSES, both by construction.
   */
  datatype Order = Order(user: UserId, items: seq<OrderLine>, totalPrice: nat, status: Status, cancelledBy: Option<Canceller>)

  /** The line-item schema: a required (non-empty) name and a quantity of at least 1. */
  predicate ValidLine(l: OrderLine) {
    l.name != [] && l.quantity >= 1
  }

  /** The order schema: every line item valid. */
  predicate ValidOrder(o: Order) {
    forall i :: 0 <= i < |o.items| ==> ValidLine(o.items[i])
  }
}
