/**
 * The analytics screen: the chart series it derives from the analytics
 * record, the insights it shows, and the loading state that the period
 * buttons, pull-to-refresh and the fetch drive.
 */
module Analytics {
  import opened Wrappers
  import opened Seqs
  import opened Records
  import opened Ui
  import opened Storage

  const LOAD_FAILED := "Failed to load analytics data"
  /** How many days the two daily charts show. */
  const CHART_DAYS := 7
  /** How many characters of an item name a bar label keeps. */
  const LABEL_LENGTH := 12
  const NONE_TEXT := "None"

  function DayDate(d: DaySales): string { d.date }
  function DayRevenue(d: DaySales): real { d.revenue }
  function DayOrders(d: DaySales): int { d.orderCount }
  function ItemOrders(item: TopItem): int { item.orderCount }

  /** `salesByDay?.slice(-7)`: the last seven days, when there are any data. */
  function LastDays(salesByDay: Option<seq<DaySales>>): Option<seq<DaySales>> {
    if salesByDay.Some? then Some(TakeLast(salesByDay.value, CHART_DAYS)) else None
  }

  /** The x labels of both daily charts: one per day shown, none without data. */
  function DayLabels(salesByDay: Option<seq<DaySales>>): seq<string> {
    if salesByDay.Some? then Map(LastDays(salesByDay).value, DayDate) else []
  }

  /** The revenue series; `[0]` without data. */
  function RevenueSeries(salesByDay: Option<seq<DaySales>>): seq<real> {
    if salesByDay.Some? then Map(LastDays(salesByDay).value, DayRevenue) else [0.0]
  }

  /** The orders series; `[0]` without data. */
  function OrdersSeries(salesByDay: Option<seq<DaySales>>): seq<int> {
    if salesByDay.Some? then Map(LastDays(salesByDay).value, DayOrders) else [0]
  }

  /**
   * With data, the daily charts show the last `min(7, n)` days: one label
   * and one value of each series per day, taken from the same entry. Without
   * data the labels are empty and each series is the single value 0.
   */
  lemma DailySeriesMeaning(salesByDay: Option<seq<DaySales>>)
    ensures salesByDay.Some? ==>
      var days := salesByDay.value;
      var n := if |days| < CHART_DAYS then |days| else CHART_DAYS;
      |DayLabels(salesByDay)| == n && |RevenueSeries(salesByDay)| == n && |OrdersSeries(salesByDay)| == n
      && forall i :: 0 <= i < n ==>
        DayLabels(salesByDay)[i] == days[|days| - n + i].date
        && RevenueSeries(salesByDay)[i] == days[|days| - n + i].revenue
        && OrdersSeries(salesByDay)[i] == days[|days| - n + i].orderCount
    ensures salesByDay.None? ==>
      DayLabels(salesByDay) == [] && RevenueSeries(salesByDay) == [0.0] && OrdersSeries(salesByDay) == [0]
  {
    if salesByDay.Some? {
      var days := salesByDay.value;
      var last := TakeLast(days, CHART_DAYS);
      assert LastDays(salesByDay) == Some(last);
      var labels, revenue, orders := Map(last, DayDate), Map(last, DayRevenue), Map(last, DayOrders);
      assert DayLabels(salesByDay) == labels && RevenueSeries(salesByDay) == revenue && OrdersSeries(salesByDay) == orders;
    }
  }

  /** `name.slice(0, 12) + (name.length > 12 ? "..." : "")`. */
  function TopItemLabel(name: string): (r: string)
    ensures |name| <= LABEL_LENGTH ==> r == name
    ensures |name| > LABEL_LENGTH ==> |r| == LABEL_LENGTH + 3 && r[..LABEL_LENGTH] == name[..LABEL_LENGTH]
    ensures |name| > LABEL_LENGTH ==> r[LABEL_LENGTH..] == "..."
  {
    Take(name, LABEL_LENGTH) + (if |name| > LABEL_LENGTH then "..." else "")
  }

  function ItemLabel(item: TopItem): string { TopItemLabel(item.name) }

  /** The bar labels: one per top item, none without data. */
  function TopItemLabels(topItems: Option<seq<TopItem>>): (r: seq<string>)
    ensures topItems.None? ==> r == []
    ensures topItems.Some? ==> |r| == |topItems.value|
    ensures topItems.Some? ==> forall i :: 0 <= i < |r| ==> r[i] == TopItemLabel(topItems.value[i].name)
  {
    if topItems.Some? then Map(topItems.value, ItemLabel) else []
  }

  /** The bar values: one per top item, `[0]` without data. */
  function TopItemSeries(topItems: Option<seq<TopItem>>): (r: seq<int>)
    ensures topItems.None? ==> r == [0]
    ensures topItems.Some? ==> |r| == |topItems.value|
    ensures topItems.Some? ==> forall i :: 0 <= i < |r| ==> r[i] == topItems.value[i].orderCount
  {
    if topItems.Some? then Map(topItems.value, ItemOrders) else [0]
  }

  /** With data, every bar has its label. */
  lemma TopItemsAligned(topItems: Option<seq<TopItem>>)
    requires topItems.Some?
    ensures |TopItemLabels(topItems)| == |TopItemSeries(topItems)|
  {
  }

  /**
   * "Best Selling Category": the first top item's category, or "None" when
   * there is no item or it has no (or an empty) category.
   */
  function BestCategory(topItems: Option<seq<TopItem>>): (r: string)
    ensures r != ""
    ensures r != NONE_TEXT ==> (topItems.Some? && |topItems.value| > 0 && topItems.value[0].category == Some(r))
    ensures topItems.Some? && |topItems.value| > 0 && HasText(topItems.value[0].category) ==>
      r == topItems.value[0].category.value
  {
    if topItems.Some? && |topItems.value| > 0 && HasText(topItems.value[0].category) then
      topItems.value[0].category.value
    else NONE_TEXT
  }

  /**
   * The head of `[...salesByDay].sort((a, b) => b.orderCount - a.orderCount)`:
   * the stable sort puts first the earliest day with the largest order
   * count. The list itself is not reordered.
   */
  function MostActiveIndex(days: seq<DaySales>): (k: nat)
    requires |days| > 0
    ensures k < |days|
    ensures forall j :: 0 <= j < |days| ==> days[j].orderCount <= days[k].orderCount
    ensures forall j :: 0 <= j < k ==> days[j].orderCount < days[k].orderCount
  {
    if |days| == 1 then 0
    else
      var k := MostActiveIndex(days[..|days| - 1]);
      if days[|days| - 1].orderCount > days[k].orderCount then |days| - 1 else k
  }

  /** The two properties of the head of a stable descending sort pick one index only. */
  lemma MostActiveUnique(days: seq<DaySales>, i: nat)
    requires i < |days|
    requires forall j :: 0 <= j < |days| ==> days[j].orderCount <= days[i].orderCount
    requires forall j :: 0 <= j < i ==> days[j].orderCount < days[i].orderCount
    ensures MostActiveIndex(days) == i
  {
    var k := MostActiveIndex(days);
  }

  /** "Most Active Day": the day picked, or none (shown as "None") without data. */
  function MostActiveDay(salesByDay: Option<seq<DaySales>>): (r: Option<DaySales>)
    ensures r.Some? <==> salesByDay.Some? && |salesByDay.value| > 0
    ensures r.Some? ==> r.value in salesByDay.value
    ensures r.Some? ==> forall d :: d in salesByDay.value ==> d.orderCount <= r.value.orderCount
  {
    if salesByDay.Some? && |salesByDay.value| > 0 then
      Some(salesByDay.value[MostActiveIndex(salesByDay.value)])
    else None
  }

  const PERIOD_WEEK := "week"

  class AnalyticsScreen {
    var analytics: Option<AnalyticsData>
    var loading: bool
    var refreshing: bool
    var activePeriod: string
    /** The effect on `activePeriod` is due to run after this render. */
    var fetchScheduled: bool
    /** A request to `getRestaurantAnalytics` has been sent and not yet settled. */
    var inFlight: bool

    /**
     * The screen will leave the loader: while it shows, a fetch is either
     * due or under way.
     */
    ghost predicate Live()
      reads this
    {
      loading ==> fetchScheduled || inFlight
    }

    /** Mounting: loading the week's figures, with the effect due. */
    constructor()
      ensures analytics == None && loading && !refreshing && activePeriod == PERIOD_WEEK
      ensures fetchScheduled && !inFlight
      ensures Live()
    {
      analytics, loading, refreshing, activePeriod := None, true, false, PERIOD_WEEK;
      fetchScheduled, inFlight := true, false;
    }

    /**
     * `fetchAnalytics()` up to the request: without a restaurant id nothing
     * is requested and both loaders go; otherwise the id and the active
     * period are requested.
     */
    method FetchAnalytics(restaurantId: Option<string>) returns (request: Option<(string, string)>)
      modifies this`loading, this`refreshing, this`inFlight
      ensures request.Some? <==> HasText(restaurantId)
      ensures request.Some? ==> request.value == (restaurantId.value, activePeriod) && inFlight
      ensures request.Some? ==> loading == old(loading) && refreshing == old(refreshing)
      ensures request.None? ==> !loading && !refreshing && inFlight == old(inFlight)
    {
      if !HasText(restaurantId) {
        loading := false;
        refreshing := false;
        request := None;
      } else {
        inFlight := true;
        request := Some((restaurantId.value, activePeriod));
      }
    }

    /** The request settled: the data on success, an alert on failure; both loaders go. */
    method OnAnalyticsReply(reply: Option<AnalyticsData>) returns (alert: Option<Alert>)
      modifies this`analytics, this`loading, this`refreshing, this`inFlight
      ensures analytics == if reply.Some? then reply else old(analytics)
      ensures !loading && !refreshing && !inFlight
      ensures alert.Some? <==> reply.None?
      ensures alert.Some? ==> alert.value == Alert("error", LOAD_FAILED)
    {
      if reply.Some? {
        analytics := reply;
        alert := None;
      } else {
        alert := Some(Alert("error", LOAD_FAILED));
      }
      loading := false;
      refreshing := false;
      inFlight := false;
    }

    /** The effect on `activePeriod` runs after a render in which the period changed. */
    method RunEffect(restaurantId: Option<string>) returns (request: Option<(string, string)>)
      modifies this`loading, this`refreshing, this`inFlight, this`fetchScheduled
      ensures old(Live()) ==> Live()
      ensures !fetchScheduled
      ensures !old(fetchScheduled) ==> request.None? && loading == old(loading) && inFlight == old(inFlight)
      ensures old(fetchScheduled) ==> (request.Some? <==> HasText(restaurantId))
    {
      if fetchScheduled {
        fetchScheduled := false;
        request := FetchAnalytics(restaurantId);
      } else {
        request := None;
      }
    }

    /** `handleRefresh()`: the refresh spinner shows and the fetch runs at once. */
    method HandleRefresh(restaurantId: Option<string>) returns (request: Option<(string, string)>)
      modifies this`loading, this`refreshing, this`inFlight
      requires Live()
      ensures Live()
      ensures request.Some? <==> HasText(restaurantId)
      ensures request.Some? ==> request.value == (restaurantId.value, activePeriod) && refreshing
      ensures request.None? ==> !loading && !refreshing
    {
      refreshing := true;
      request := FetchAnalytics(restaurantId);
    }

    /**
     * As written, `handlePeriodChange(period)`: the period is set and the
     * loader shows. The effect is due only when the period differs from the
     * active one, since React skips an effect whose dependency is unchanged.
     */
    method HandlePeriodChange(period: string)
      modifies this`activePeriod, this`loading, this`fetchScheduled
      ensures activePeriod == period && loading
      ensures fetchScheduled == (old(fetchScheduled) || period != old(activePeriod))
    {
      if period != activePeriod {
        fetchScheduled := true;
      }
      activePeriod := period;
      loading := true;
    }

    /**
     * Corrected: choosing the active period again changes nothing; any other
     * period is set, the loader shows and the effect is due.
     */
    method HandlePeriodChangeCorrected(period: string)
      modifies this`activePeriod, this`loading, this`fetchScheduled
      requires Live()
      ensures Live()
      ensures activePeriod == period
      ensures period == old(activePeriod) ==> loading == old(loading) && fetchScheduled == old(fetchScheduled)
      ensures period != old(activePeriod) ==> loading && fetchScheduled
    {
      if period != activePeriod {
        activePeriod := period;
        loading := true;
        fetchScheduled := true;
      }
    }
  }

  /**
   * As written: once the week's figures have loaded, tapping "Week" again
   * shows the full-screen loader with no fetch due or under way, and the
   * effect then issues no request: the loader, which hides the period
   * buttons, never goes.
   */
  method SamePeriodTapHangs(data: AnalyticsData) returns (screen: AnalyticsScreen, request: Option<(string, string)>)
    ensures screen.loading && !screen.Live()
    ensures request.None?
  {
    screen := new AnalyticsScreen();
    var first := screen.RunEffect(Some("restaurant-1"));
    var alert := screen.OnAnalyticsReply(Some(data));
    screen.HandlePeriodChange(PERIOD_WEEK);
    request := screen.RunEffect(Some("restaurant-1"));
  }

  /** Corrected: the same taps leave the figures on screen. */
  method SamePeriodTapCorrected(data: AnalyticsData) returns (screen: AnalyticsScreen)
    ensures !screen.loading && screen.Live()
    ensures screen.analytics == Some(data)
  {
    screen := new AnalyticsScreen();
    var first := screen.RunEffect(Some("restaurant-1"));
    var alert := screen.OnAnalyticsReply(Some(data));
    screen.HandlePeriodChangeCorrected(PERIOD_WEEK);
  }
}
