/**
 * The dashboard: the data it loads in sequence (restaurant, analytics,
 * orders), the figures it derives from them, the status card, and the
 * open/closed toggle.
 */
module Dashboard {
  import opened Wrappers
  import opened Seqs
  import opened Numbers
  import opened Config
  import opened Records
  import opened Ui
  import opened OrdersScreen

  const LOAD_FAILED := "Failed to load restaurant data"
  const TOGGLE_FAILED := "Failed to update restaurant status"

  /** How many orders the recent list keeps. */
  const RECENT_COUNT := 5
  /** How many days the revenue chart shows. */
  const CHART_DAYS := 7

  /** `ordersResponse.data.slice(0, 5)`: the first five orders, or all when fewer. */
  function RecentOrders(orders: seq<Order>): (r: seq<Order>)
    ensures |r| == if |orders| < RECENT_COUNT then |orders| else RECENT_COUNT
    ensures r == orders[..|r|]
  {
    Take(orders, RECENT_COUNT)
  }

  /** `filter(order => order.status === PENDING).length`. */
  function PendingCount(orders: seq<Order>): nat {
    |Filter(orders, OrderHasStatus(PENDING))|
  }

  /** The number of pending orders, counted one order at a time. */
  function CountPending(orders: seq<Order>): nat {
    if orders == [] then 0
    else (if orders[0].status == PENDING then 1 else 0) + CountPending(orders[1..])
  }

  /** The dashboard's pending figure is the number of orders whose status is pending. */
  lemma {:induction false} PendingCountCounts(orders: seq<Order>)
    ensures PendingCount(orders) == CountPending(orders)
  {
    if orders != [] {
      PendingCountCounts(orders[1..]);
    }
  }

  /**
   * The dashboard's pending figure is the length of the list the orders
   * screen shows under its "pending" chip.
   */
  lemma PendingCountMatchesOrdersChip(orders: seq<Order>)
    ensures PendingCount(orders) == |FilterOrders(orders, "pending")|
  {
    assert FilterOptions[1].id == "pending";
    FindAt(FilterOptions, OptionWithId("pending"), 1);
  }

  /** `getStatusColor()`: the theme colour of a restaurant status. */
  function StatusColor(status: string): (r: ThemeColor)
    ensures r == SuccessColor <==> status == OPEN
    ensures r == ErrorColor <==> status == CLOSED
    ensures r == WarningColor <==> status == BUSY
    ensures r == GrayColor <==> ParseRestaurantStatus(status).None?
  {
    if status == OPEN then SuccessColor
    else if status == CLOSED then ErrorColor
    else if status == BUSY then WarningColor
    else GrayColor
  }

  /** The status badge: success for an open restaurant, error for any other status, busy included. */
  function StatusBadge(status: string): (r: BadgeType)
    ensures r == Success <==> status == OPEN
    ensures r != Success ==> r == Error
  {
    if status == OPEN then Success else Error
  }

  /** The toggle button's title: closing an open restaurant, opening anything else. */
  function ToggleLabel(status: string): (r: string)
    ensures r == "Set as CLOSED" <==> status == OPEN
    ensures r == "Set as OPEN" <==> status != OPEN
  {
    "Set as " + (if status == OPEN then "CLOSED" else "OPEN")
  }

  /**
   * The pending-orders button: shown only when some order is pending, its
   * title naming the count, with a plural "s" only for more than one.
   */
  function PendingButtonTitle(count: int): (r: Option<string>)
    ensures r.Some? <==> count > 0
    ensures r.Some? ==> |r.value| > 5 + |NatToString(count)| && r.value[..5] == "View "
    ensures r.Some? ==> r.value[5..5 + |NatToString(count)|] == NatToString(count)
    ensures r.Some? ==> (r.value[|r.value| - 1] == 's' <==> count > 1)
  {
    if count > 0 then
      var digits := NatToString(count);
      var title := "View " + digits + " Pending Order" + (if count > 1 then "s" else "");
      assert title[5..5 + |digits|] == digits;
      Some(title)
    else None
  }

  /** `analytics?.salesByDay?.slice(-7) || []`: the last seven days, or none without data. */
  function ChartData(analytics: Option<AnalyticsData>): (r: seq<DaySales>)
    ensures analytics.None? || analytics.value.salesByDay.None? ==> r == []
    ensures analytics.Some? && analytics.value.salesByDay.Some? ==>
      var days := analytics.value.salesByDay.value;
      |r| == (if |days| < CHART_DAYS then |days| else CHART_DAYS) && r == days[|days| - |r|..]
  {
    if analytics.Some? && analytics.value.salesByDay.Some? then
      var r := TakeLast(analytics.value.salesByDay.value, CHART_DAYS);
      assert r == analytics.value.salesByDay.value[|analytics.value.salesByDay.value| - |r|..];
      r
    else []
  }

  /** The alert after a toggle: the new status reads "open" only when it is open. */
  function ToggledAlert(response: Option<Restaurant>): (r: Alert)
    ensures response.None? ==> r == Alert("error", TOGGLE_FAILED)
    ensures response.Some? ==>
      r.kind == "success" && (r.message == "Restaurant is now open" <==> response.value.status == OPEN)
    ensures response.Some? && response.value.status != OPEN ==> r.message == "Restaurant is now closed"
  {
    match response
    case None => Alert("error", TOGGLE_FAILED)
    case Some(restaurant) =>
      Alert("success", "Restaurant is now " + (if restaurant.status == OPEN then "open" else "closed"))
  }

  class DashboardScreen {
    var restaurant: Option<Restaurant>
    var analytics: Option<AnalyticsData>
    var recentOrders: seq<Order>
    var pendingOrders: nat
    var refreshing: bool
    var loading: bool
    var statusLoading: bool
    var showStatusModal: bool

    constructor()
      ensures restaurant == None && analytics == None && recentOrders == [] && pendingOrders == 0
      ensures !refreshing && loading && !statusLoading && !showStatusModal
    {
      restaurant, analytics, recentOrders, pendingOrders := None, None, [], 0;
      refreshing, loading, statusLoading, showStatusModal := false, true, false, false;
    }

    /**
     * `fetchRestaurantData()` with the three replies as inputs, `None` for a
     * request that throws. The requests run in order and the first failure
     * stops the rest, keeping what earlier replies set; then an alert shows.
     * Both loaders go in every case.
     */
    method FetchRestaurantData(
      restaurantReply: Option<Restaurant>, analyticsReply: Option<AnalyticsData>, ordersReply: Option<seq<Order>>)
      returns (alert: Option<Alert>)
      modifies this`restaurant, this`analytics, this`recentOrders, this`pendingOrders, this`loading, this`refreshing
      ensures !loading && !refreshing
      ensures restaurant == if restaurantReply.Some? then restaurantReply else old(restaurant)
      ensures analytics == if restaurantReply.Some? && analyticsReply.Some? then analyticsReply else old(analytics)
      ensures var loaded := restaurantReply.Some? && analyticsReply.Some? && ordersReply.Some?;
        && (loaded ==> recentOrders == RecentOrders(ordersReply.value)
                       && pendingOrders == PendingCount(ordersReply.value) && alert == None)
        && (!loaded ==> recentOrders == old(recentOrders) && pendingOrders == old(pendingOrders)
                        && alert == Some(Alert("error", LOAD_FAILED)))
    {
      alert := Some(Alert("error", LOAD_FAILED));
      if restaurantReply.Some? {
        restaurant := restaurantReply;
        if analyticsReply.Some? {
          analytics := analyticsReply;
          if ordersReply.Some? {
            recentOrders := RecentOrders(ordersReply.value);
            pendingOrders := PendingCount(ordersReply.value);
            alert := None;
          }
        }
      }
      loading := false;
      refreshing := false;
    }

    /** `handleRefresh()` before the reload: the pull-to-refresh spinner shows. */
    method HandleRefresh()
      modifies this`refreshing
      ensures refreshing
    {
      refreshing := true;
    }

    /** The toggle button asks for confirmation first. */
    method OpenStatusModal()
      modifies this`showStatusModal
      ensures showStatusModal
    {
      showStatusModal := true;
    }

    /**
     * `handleToggleStatus()` with the server's reply as input: the dialog
     * closes, the restaurant becomes the one returned, and the alert names
     * its new status; on failure the restaurant is kept.
     */
    method HandleToggleStatus(response: Option<Restaurant>) returns (alert: Alert)
      modifies this`showStatusModal, this`statusLoading, this`restaurant
      ensures !showStatusModal && !statusLoading
      ensures restaurant == if response.Some? then response else old(restaurant)
      ensures alert == ToggledAlert(response)
    {
      showStatusModal := false;
      statusLoading := true;
      if response.Some? {
        restaurant := response;
      }
      alert := ToggledAlert(response);
      statusLoading := false;
    }
  }
}
