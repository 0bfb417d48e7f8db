/** The order row of the orders list. */
module OrderItem {
  import opened Config
  import opened Ui
  import opened Records

  /** The badge of each of the nine statuses, by the enumeration. */
  function KnownStatusInfo(s: OrderStatus): StatusInfo {
    match s
    case Pending => StatusInfo(Warning, "Pending")
    case Accepted => StatusInfo(Info, "Accepted")
    case Preparing => StatusInfo(Info, "Preparing")
    case ReadyForPickup => StatusInfo(Primary, "Ready")
    case AssignedToRider => StatusInfo(Info, "On The Way")
    case PickedUp => StatusInfo(Info, "On The Way")
    case OnTheWay => StatusInfo(Info, "On The Way")
    case Delivered => StatusInfo(Success, "Delivered")
    case Cancelled => StatusInfo(Error, "Cancelled")
  }

  /**
   * `getStatusInfo(status)`: the badge of a known status, and for any other
   * string a default badge showing the string itself.
   */
  function GetStatusInfo(status: string): (r: StatusInfo)
    ensures ParseOrderStatus(status).Some? ==> r == KnownStatusInfo(ParseOrderStatus(status).value)
    ensures ParseOrderStatus(status).None? ==> r == StatusInfo(Default, status)
  {
    if status == PENDING then StatusInfo(Warning, "Pending")
    else if status == ACCEPTED then StatusInfo(Info, "Accepted")
    else if status == PREPARING then StatusInfo(Info, "Preparing")
    else if status == READY_FOR_PICKUP then StatusInfo(Primary, "Ready")
    else if status == PICKED_UP || status == ASSIGNED_TO_RIDER || status == ON_THE_WAY then
      StatusInfo(Info, "On The Way")
    else if status == DELIVERED then StatusInfo(Success, "Delivered")
    else if status == CANCELLED then StatusInfo(Error, "Cancelled")
    else StatusInfo(Default, status)
  }

  /** The three rider stages share one badge; ready_for_pickup alone is primary. */
  lemma RiderStagesShareBadge()
    ensures GetStatusInfo(ASSIGNED_TO_RIDER) == StatusInfo(Info, "On The Way")
    ensures GetStatusInfo(PICKED_UP) == StatusInfo(Info, "On The Way")
    ensures GetStatusInfo(ON_THE_WAY) == StatusInfo(Info, "On The Way")
    ensures forall s :: GetStatusInfo(s).badge == Primary <==> s == READY_FOR_PICKUP
  {
  }

  predicate IsRiderStage(status: string) {
    status == ASSIGNED_TO_RIDER || status == PICKED_UP || status == ON_THE_WAY
  }

  /** Two statuses with the same badge and text are equal, or are both rider stages. */
  lemma BadgeIdentifiesStatus(a: string, b: string)
    requires GetStatusInfo(a) == GetStatusInfo(b)
    ensures a == b || (IsRiderStage(a) && IsRiderStage(b))
  {
    var pa, pb := ParseOrderStatus(a), ParseOrderStatus(b);
    if pa.Some? && pb.Some? {
      KnownBadgeIdentifies(pa.value, pb.value);
    }
  }

  /** On the enumeration: equal badges mean equal statuses, or two rider stages. */
  lemma KnownBadgeIdentifies(x: OrderStatus, y: OrderStatus)
    requires KnownStatusInfo(x) == KnownStatusInfo(y)
    ensures x == y || (x in {AssignedToRider, PickedUp, OnTheWay} && y in {AssignedToRider, PickedUp, OnTheWay})
  {
  }

  /** The `reduce((sum, item) => sum + item.quantity, acc)` fold, left to right. */
  function SumQuantities(acc: int, items: seq<LineItem>): int
    decreases |items|
  {
    if items == [] then acc else SumQuantities(acc + items[0].quantity, items[1..])
  }

  /** The total quantity of a list of lines, summed from the last line. */
  function TotalQuantity(items: seq<LineItem>): int {
    if items == [] then 0 else TotalQuantity(items[..|items| - 1]) + items[|items| - 1].quantity
  }

  lemma {:induction false} TotalQuantityCons(item: LineItem, items: seq<LineItem>)
    ensures TotalQuantity([item] + items) == item.quantity + TotalQuantity(items)
    decreases |items|
  {
    if items != [] {
      var all := [item] + items;
      assert all[..|all| - 1] == [item] + items[..|items| - 1];
      TotalQuantityCons(item, items[..|items| - 1]);
    }
  }

  lemma {:induction false} SumQuantitiesIsTotal(acc: int, items: seq<LineItem>)
    ensures SumQuantities(acc, items) == acc + TotalQuantity(items)
    decreases |items|
  {
    if items != [] {
      SumQuantitiesIsTotal(acc + items[0].quantity, items[1..]);
      assert items == [items[0]] + items[1..];
      TotalQuantityCons(items[0], items[1..]);
    }
  }

  /** The "N items" count of a row: the sum of the quantities, 0 for no lines. */
  function ItemCount(items: seq<LineItem>): (r: int)
    ensures r == TotalQuantity(items)
    ensures items == [] ==> r == 0
  {
    SumQuantitiesIsTotal(0, items);
    SumQuantities(0, items)
  }

  /** Counting the lines of two lists together adds their counts. */
  lemma {:induction false} ItemCountAppend(a: seq<LineItem>, b: seq<LineItem>)
    ensures ItemCount(a + b) == ItemCount(a) + ItemCount(b)
    decreases |b|
  {
    if b != [] {
      assert (a + b)[..|a + b| - 1] == a + b[..|b| - 1];
      ItemCountAppend(a, b[..|b| - 1]);
    } else {
      assert a + b == a;
    }
  }

  /** With no negative quantity the count is not negative, and it bounds each quantity. */
  lemma {:induction false} ItemCountBounds(items: seq<LineItem>)
    requires forall i :: 0 <= i < |items| ==> items[i].quantity >= 0
    ensures ItemCount(items) >= 0
    ensures forall i :: 0 <= i < |items| ==> items[i].quantity <= ItemCount(items)
    decreases |items|
  {
    if items != [] {
      var init := items[..|items| - 1];
      ItemCountBounds(init);
      assert forall i :: 0 <= i < |init| ==> init[i] == items[i];
    }
  }
}
