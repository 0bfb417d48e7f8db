/** The constant enumerations of config.js. */
module Config {
  import opened Wrappers
  import opened Strings

  /** The keys of ORDER_STATUSES, in declaration order. */
  datatype OrderStatus =
    | Pending | Accepted | Preparing | ReadyForPickup | AssignedToRider
    | PickedUp | OnTheWay | Delivered | Cancelled
  {
    /** The key under which the status is declared. */
    function Key(): string {
      match this
      case Pending => "PENDING"
      case Accepted => "ACCEPTED"
      case Preparing => "PREPARING"
      case ReadyForPickup => "READY_FOR_PICKUP"
      case AssignedToRider => "ASSIGNED_TO_RIDER"
      case PickedUp => "PICKED_UP"
      case OnTheWay => "ON_THE_WAY"
      case Delivered => "DELIVERED"
      case Cancelled => "CANCELLED"
    }

    /** The string the server and the screens use for the status. */
    function Value(): string {
      match this
      case Pending => "pending"
      case Accepted => "accepted"
      case Preparing => "preparing"
      case ReadyForPickup => "ready_for_pickup"
      case AssignedToRider => "assigned_to_rider"
      case PickedUp => "picked_up"
      case OnTheWay => "on_the_way"
      case Delivered => "delivered"
      case Cancelled => "cancelled"
    }
  }

  const PENDING := Pending.Value()
  const ACCEPTED := Accepted.Value()
  const PREPARING := Preparing.Value()
  const READY_FOR_PICKUP := ReadyForPickup.Value()
  const ASSIGNED_TO_RIDER := AssignedToRider.Value()
  const PICKED_UP := PickedUp.Value()
  const ON_THE_WAY := OnTheWay.Value()
  const DELIVERED := Delivered.Value()
  const CANCELLED := Cancelled.Value()

  /** The status a server string stands for, if it is one of the nine values. */
  function ParseOrderStatus(v: string): (r: Option<OrderStatus>)
    ensures r.Some? ==> r.value.Value() == v
    ensures r.None? ==> forall s: OrderStatus :: s.Value() != v
  {
    if v == PENDING then Some(Pending)
    else if v == ACCEPTED then Some(Accepted)
    else if v == PREPARING then Some(Preparing)
    else if v == READY_FOR_PICKUP then Some(ReadyForPickup)
    else if v == ASSIGNED_TO_RIDER then Some(AssignedToRider)
    else if v == PICKED_UP then Some(PickedUp)
    else if v == ON_THE_WAY then Some(OnTheWay)
    else if v == DELIVERED then Some(Delivered)
    else if v == CANCELLED then Some(Cancelled)
    else None
  }

  /** Every status is recovered from its value. */
  lemma ParseOrderStatusValue(s: OrderStatus)
    ensures ParseOrderStatus(s.Value()) == Some(s)
  {
  }

  /** The nine status values are pairwise distinct. */
  lemma OrderStatusValuesDistinct()
    ensures forall a: OrderStatus, b: OrderStatus :: a.Value() == b.Value() ==> a == b
  {
    forall a: OrderStatus, b: OrderStatus | a.Value() == b.Value()
      ensures a == b
    {
      ParseOrderStatusValue(a);
      ParseOrderStatusValue(b);
    }
  }

  /** Each key is its value in upper case, the form the screens display. */
  lemma KeyIsUppercasedValue(s: OrderStatus)
    ensures ToUpper(s.Value()) == s.Key()
  {
    match s
    case Pending => UppercaseOf("pending", "PENDING");
    case Accepted => UppercaseOf("accepted", "ACCEPTED");
    case Preparing => UppercaseOf("preparing", "PREPARING");
    case ReadyForPickup => UppercaseOf("ready_for_pickup", "READY_FOR_PICKUP");
    case AssignedToRider => UppercaseOf("assigned_to_rider", "ASSIGNED_TO_RIDER");
    case PickedUp => UppercaseOf("picked_up", "PICKED_UP");
    case OnTheWay => UppercaseOf("on_the_way", "ON_THE_WAY");
    case Delivered => UppercaseOf("delivered", "DELIVERED");
    case Cancelled => UppercaseOf("cancelled", "CANCELLED");
  }

  /** `k` is `v` with each character upper-cased. */
  lemma UppercaseOf(v: string, k: string)
    requires |k| == |v|
    requires forall i :: 0 <= i < |v| ==> UpperChar(v[i]) == k[i]
    ensures ToUpper(v) == k
  {
  }

  /** Every value is made of lower-case letters and underscores only. */
  lemma ValueIsSnakeCase(s: OrderStatus)
    ensures forall i :: 0 <= i < |s.Value()| ==> 'a' <= s.Value()[i] <= 'z' || s.Value()[i] == '_'
  {
  }

  /** The keys of RESTAURANT_STATUSES. */
  datatype RestaurantStatus = Open | Closed | Busy {
    function Value(): string {
      match this
      case Open => "open"
      case Closed => "closed"
      case Busy => "busy"
    }
  }

  const OPEN := Open.Value()
  const CLOSED := Closed.Value()
  const BUSY := Busy.Value()

  /** The restaurant status a server string stands for, if any. */
  function ParseRestaurantStatus(v: string): (r: Option<RestaurantStatus>)
    ensures r.Some? ==> r.value.Value() == v
    ensures r.None? ==> forall s: RestaurantStatus :: s.Value() != v
  {
    if v == OPEN then Some(Open)
    else if v == CLOSED then Some(Closed)
    else if v == BUSY then Some(Busy)
    else None
  }

  /** `open`, `closed` and `busy` are pairwise distinct. */
  lemma RestaurantStatusValuesDistinct()
    ensures forall a: RestaurantStatus, b: RestaurantStatus :: a.Value() == b.Value() ==> a == b
  {
    forall a: RestaurantStatus, b: RestaurantStatus | a.Value() == b.Value()
      ensures a == b
    {
      assert ParseRestaurantStatus(a.Value()) == Some(a);
      assert ParseRestaurantStatus(b.Value()) == Some(b);
    }
  }
}
