/** The orders list with its status filter chips. */
module OrdersScreen {
  import opened Wrappers
  import opened Seqs
  import opened Config
  import opened Records
  import opened Ui

  /** An entry of `filterOptions`; "all" has no status. */
  datatype FilterOption = FilterOption(id: string, caption: string, status: Option<string>)

  const FilterOptions: seq<FilterOption> := [
    FilterOption("all", "All", None),
    FilterOption("pending", "Pending", Some(PENDING)),
    FilterOption("preparing", "Preparing", Some(PREPARING)),
    FilterOption("ready", "Ready", Some(READY_FOR_PICKUP)),
    FilterOption("delivered", "Delivered", Some(DELIVERED)),
    FilterOption("cancelled", "Cancelled", Some(CANCELLED))
  ]

  /** `route.params?.initialFilter || "all"`. */
  function InitialFilter(param: Option<string>): (r: string)
    ensures param.None? || param.value == "" ==> r == "all"
    ensures param.Some? && param.value != "" ==> r == param.value
  {
    if param.Some? && param.value != "" then param.value else "all"
  }

  function OptionWithId(id: string): FilterOption -> bool {
    (o: FilterOption) => o.id == id
  }

  function OrderHasStatus(status: string): Order -> bool {
    (o: Order) => o.status == status
  }

  /** A status some chip filters on. */
  predicate IsChipStatus(status: string) {
    status == PENDING || status == PREPARING || status == READY_FOR_PICKUP || status == DELIVERED || status == CANCELLED
  }

  /**
   * The status a filter id selects: none for "all", for an id that is not an
   * option, or for an option without a status.
   */
  function FilterStatus(filter: string): (r: Option<string>)
    ensures r.Some? ==> filter != "all" && IsChipStatus(r.value)
    ensures r.Some? <==> exists i :: 0 <= i < |FilterOptions| && FilterOptions[i].id == filter && filter != "all"
  {
    if filter == "all" then None
    else
      match Find(FilterOptions, OptionWithId(filter))
      case Some(option) => option.status
      case None => None
  }

  /** No two chips share an id: they differ in length or in their first letter. */
  lemma OptionIdsDistinct()
    ensures forall i, j :: 0 <= i < j < |FilterOptions| ==> FilterOptions[i].id != FilterOptions[j].id
  {
    assert forall i, j :: 0 <= i < j < |FilterOptions| ==>
      |FilterOptions[i].id| != |FilterOptions[j].id| || FilterOptions[i].id[0] != FilterOptions[j].id[0];
  }

  /** Each chip after "all" filters on its own status. */
  lemma FilterStatusOfChip(k: nat)
    requires 0 < k < |FilterOptions|
    ensures FilterStatus(FilterOptions[k].id) == FilterOptions[k].status
  {
    OptionIdsDistinct();
    FindAt(FilterOptions, OptionWithId(FilterOptions[k].id), k);
  }

  /** Which status each chip filters on. */
  lemma FilterStatusTable()
    ensures FilterStatus("all") == None
    ensures FilterStatus("pending") == Some(PENDING)
    ensures FilterStatus("preparing") == Some(PREPARING)
    ensures FilterStatus("ready") == Some(READY_FOR_PICKUP)
    ensures FilterStatus("delivered") == Some(DELIVERED)
    ensures FilterStatus("cancelled") == Some(CANCELLED)
  {
    FilterStatusOfChip(1);
    FilterStatusOfChip(2);
    FilterStatusOfChip(3);
    FilterStatusOfChip(4);
    FilterStatusOfChip(5);
  }

  /**
   * `filterOrders(allOrders, filter)`: the whole list for "all" or an unknown
   * id, otherwise exactly the orders in the chip's status, in their order.
   */
  function FilterOrders(allOrders: seq<Order>, filter: string): (r: seq<Order>)
    ensures FilterStatus(filter).None? ==> r == allOrders
    ensures FilterStatus(filter).Some? ==> forall o :: o in r ==> o.status == FilterStatus(filter).value
    ensures FilterStatus(filter).Some? ==> forall o :: o in allOrders && o.status == FilterStatus(filter).value ==>
      multiset(r)[o] == multiset(allOrders)[o]
    ensures IsSubsequence(r, allOrders)
  {
    if filter == "all" then
      SubsequenceOfItself(allOrders);
      allOrders
    else
      var option := Find(FilterOptions, OptionWithId(filter));
      if option.Some? && option.value.status.Some? then
        Filter(allOrders, OrderHasStatus(option.value.status.value))
      else
        SubsequenceOfItself(allOrders);
        allOrders
  }

  /**
   * An order in a status no chip filters on is listed exactly when the
   * filter keeps the whole list.
   */
  lemma OutsideChipsOnlyUnfiltered(allOrders: seq<Order>, o: Order, filter: string)
    requires o in allOrders && !IsChipStatus(o.status)
    ensures o in FilterOrders(allOrders, filter) <==> FilterStatus(filter).None?
  {
    if FilterStatus(filter).Some? {
      assert o.status != FilterStatus(filter).value;
    }
  }

  /** No chip filters on accepted or on a rider stage. */
  lemma AcceptedAndRiderStagesAreNoChips()
    ensures !IsChipStatus(ACCEPTED)
    ensures !IsChipStatus(ASSIGNED_TO_RIDER) && !IsChipStatus(PICKED_UP) && !IsChipStatus(ON_THE_WAY)
  {
  }

  /** The component state of the screen. */
  class OrdersScreen {
    var orders: seq<Order>
    var filteredOrders: seq<Order>
    var activeFilter: string
    var loading: bool
    var refreshing: bool
    /** The filter of the first render, which the focus callback's closure keeps. */
    var mountFilter: string

    /** The list shown is the active chip's view of the orders. */
    ghost predicate Valid()
      reads this
    {
      filteredOrders == FilterOrders(orders, activeFilter)
    }

    constructor(param: Option<string>)
      ensures activeFilter == InitialFilter(param) && mountFilter == activeFilter
      ensures orders == [] && filteredOrders == [] && loading && !refreshing
      ensures Valid()
    {
      orders := [];
      filteredOrders := [];
      activeFilter := InitialFilter(param);
      mountFilter := activeFilter;
      loading := true;
      refreshing := false;
    }

    /** `handleFilterChange(filter)`: select the chip and refilter the current orders. */
    method HandleFilterChange(filter: string)
      modifies this
      ensures activeFilter == filter && filteredOrders == FilterOrders(orders, filter)
      ensures orders == old(orders) && loading == old(loading) && refreshing == old(refreshing)
      ensures mountFilter == old(mountFilter)
      ensures Valid()
    {
      activeFilter := filter;
      filteredOrders := FilterOrders(orders, filter);
    }

    /** The effect on a new `initialFilter` route parameter. */
    method OnInitialFilterParam(param: Option<string>)
      modifies this
      ensures activeFilter == InitialFilter(param)
      ensures InitialFilter(param) == old(activeFilter) ==> filteredOrders == old(filteredOrders)
      ensures InitialFilter(param) != old(activeFilter) ==> filteredOrders == FilterOrders(orders, activeFilter)
      ensures orders == old(orders) && loading == old(loading) && refreshing == old(refreshing)
      ensures mountFilter == old(mountFilter)
      ensures old(Valid()) ==> Valid()
    {
      var filter := InitialFilter(param);
      if filter != activeFilter {
        HandleFilterChange(filter);
      }
    }

    /**
     * `fetchOrders` completing, with the orders or failing (`None`); `filter`
     * is the `activeFilter` of the render whose closure issued the fetch.
     */
    method OnOrdersFetched(response: Option<seq<Order>>, filter: string) returns (alert: Option<Alert>)
      modifies this
      ensures !loading && !refreshing
      ensures response.Some? ==> orders == response.value && filteredOrders == FilterOrders(response.value, filter)
      ensures response.Some? ==> alert.None?
      ensures response.None? ==> orders == old(orders) && filteredOrders == old(filteredOrders)
      ensures response.None? ==> alert == Some(Alert("error", "Failed to load orders"))
      ensures activeFilter == old(activeFilter) && mountFilter == old(mountFilter)
    {
      alert := None;
      if response.Some? {
        orders := response.value;
        filteredOrders := FilterOrders(response.value, filter);
      } else {
        alert := Some(Alert("error", "Failed to load orders"));
      }
      loading := false;
      refreshing := false;
    }

    /** `handleRefresh`: the pull-to-refresh fetch, issued by the current render. */
    method HandleRefresh(response: Option<seq<Order>>) returns (alert: Option<Alert>)
      modifies this
      ensures !loading && !refreshing
      ensures response.Some? ==> orders == response.value
      ensures old(Valid()) || response.Some? ==> Valid()
      ensures activeFilter == old(activeFilter) && mountFilter == old(mountFilter)
    {
      refreshing := true;
      alert := OnOrdersFetched(response, activeFilter);
    }

    /**
     * The fetch on focus as written: the focus callback is memoised with no
     * dependencies, so it filters with the first render's filter.
     */
    method FocusRefetch(response: Option<seq<Order>>) returns (alert: Option<Alert>)
      modifies this
      ensures response.Some? ==> orders == response.value && filteredOrders == FilterOrders(orders, mountFilter)
      ensures response.None? ==> orders == old(orders) && filteredOrders == old(filteredOrders)
      ensures activeFilter == old(activeFilter) && mountFilter == old(mountFilter)
    {
      alert := OnOrdersFetched(response, mountFilter);
    }

    /** The fetch on focus filtering with the chip that is selected, as evidently intended. */
    method FocusRefetchCorrected(response: Option<seq<Order>>) returns (alert: Option<Alert>)
      modifies this
      ensures response.Some? ==> orders == response.value
      ensures old(Valid()) || response.Some? ==> Valid()
      ensures activeFilter == old(activeFilter) && mountFilter == old(mountFilter)
    {
      alert := OnOrdersFetched(response, activeFilter);
    }
  }

  /** The "pending" chip never lists a delivered order. */
  lemma PendingChipHidesDelivered(allOrders: seq<Order>, delivered: Order)
    requires delivered.status == DELIVERED
    ensures delivered !in FilterOrders(allOrders, "pending")
  {
    FilterStatusOfChip(1);
    assert FilterStatus("pending") == Some(PENDING);
    assert |DELIVERED| != |PENDING|;
  }

  /**
   * After choosing "pending" on a screen opened without a filter, a refetch
   * on focus lists a delivered order under the "pending" chip.
   */
  method FocusRefetchAfterFilterChange() returns (screen: OrdersScreen, delivered: Order)
    ensures screen.activeFilter == "pending" && delivered.status == DELIVERED
    ensures delivered in screen.filteredOrders
    ensures !screen.Valid()
  {
    screen := new OrdersScreen(None);
    screen.HandleFilterChange("pending");
    var pending := Order("order-1", PENDING, [], None);
    delivered := Order("order-2", DELIVERED, [], None);
    var _ := screen.FocusRefetch(Some([pending, delivered]));
    PendingChipHidesDelivered([pending, delivered], delivered);
  }
}
