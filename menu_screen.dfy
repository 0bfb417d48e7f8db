/** The menu list with its category chips, search box and availability switches. */
module MenuScreen {
  import opened Wrappers
  import opened Seqs
  import opened Strings
  import opened Records
  import opened Ui

  function CategoryOf(item: MenuItem): string {
    item.category
  }

  /**
   * `[...new Set(items.map(item => item.category))]`: every category once,
   * in the order of its first item.
   */
  function UniqueCategories(items: seq<MenuItem>): (r: seq<string>)
    ensures forall i, j :: 0 <= i < j < |r| ==> r[i] != r[j]
    ensures forall k :: 0 <= k < |items| ==> items[k].category in r
    ensures forall c :: c in r ==> exists k :: 0 <= k < |items| && items[k].category == c
    ensures forall i, j :: 0 <= i < j < |r| ==>
      IndexOf(Map(items, CategoryOf), r[i]) < IndexOf(Map(items, CategoryOf), r[j])
  {
    var all := Map(items, CategoryOf);
    var r := Distinct(all);
    assert forall k :: 0 <= k < |items| ==> all[k] == items[k].category;
    r
  }

  /**
   * What `filterItems` keeps: the selected category unless it is "all", and
   * then, for a non-empty query, a name or description containing it, both
   * lower-cased.
   */
  predicate Keep(item: MenuItem, category: string, query: string) {
    (category == "all" || item.category == category) &&
    (query == "" || Contains(ToLower(item.name), ToLower(query))
                 || Contains(ToLower(item.description), ToLower(query)))
  }

  function KeepFn(category: string, query: string): MenuItem -> bool {
    (item: MenuItem) => Keep(item, category, query)
  }

  /** The list `filterItems` shows. */
  function FilteredItems(items: seq<MenuItem>, category: string, query: string): seq<MenuItem> {
    Filter(items, KeepFn(category, query))
  }

  /** Search in the sense of substrings: the query occurs somewhere in the text. */
  ghost predicate Mentions(text: string, query: string) {
    exists i :: OccursAt(ToLower(text), ToLower(query), i)
  }

  /** `Keep` spelled out with substring occurrences. */
  lemma KeepMeaning(x: MenuItem, category: string, query: string)
    ensures Keep(x, category, query) <==>
      (category == "all" || x.category == category) &&
      (query == "" || Mentions(x.name, query) || Mentions(x.description, query))
  {
    ContainsIff(ToLower(x.name), ToLower(query));
    ContainsIff(ToLower(x.description), ToLower(query));
  }

  /**
   * The shown list is an order-preserving selection of the menu, keeping
   * exactly the items in the category whose name or description contains
   * the query, ignoring case; with "all" and no query it is the whole menu.
   */
  lemma FilteredItemsMeaning(items: seq<MenuItem>, category: string, query: string)
    ensures IsSubsequence(FilteredItems(items, category, query), items)
    ensures forall x :: x in items ==>
      (x in FilteredItems(items, category, query) <==>
        (category == "all" || x.category == category) &&
        (query == "" || Mentions(x.name, query) || Mentions(x.description, query)))
    ensures category == "all" && query == "" ==> FilteredItems(items, category, query) == items
  {
    var r := FilteredItems(items, category, query);
    forall x | x in items
      ensures x in r <==>
        (category == "all" || x.category == category) &&
        (query == "" || Mentions(x.name, query) || Mentions(x.description, query))
    {
      KeepMeaning(x, category, query);
      assert multiset(items)[x] > 0;
      assert x in r <==> multiset(r)[x] > 0;
    }
    if category == "all" && query == "" {
      FilterAll(items, KeepFn(category, query));
    }
  }

  function InCategory(category: string): MenuItem -> bool {
    (item: MenuItem) => item.category == category
  }

  /** The search step, for a query already lower-cased. */
  function MatchesQuery(query: string): MenuItem -> bool {
    (item: MenuItem) => Contains(ToLower(item.name), query) || Contains(ToLower(item.description), query)
  }

  /** `{ ...item, available }` for the items with the given id. */
  function SetAvailable(id: string, available: bool): MenuItem -> MenuItem {
    (item: MenuItem) => if item.id == id then item.(available := Some(available)) else item
  }

  /**
   * The `prevItems.map(...)` of `handleToggleAvailability`: only the items
   * with the id change, and only in `available`; length and order stay.
   */
  function WithAvailability(items: seq<MenuItem>, id: string, available: bool): (r: seq<MenuItem>)
    ensures |r| == |items|
    ensures forall i :: 0 <= i < |items| && items[i].id == id ==> r[i] == items[i].(available := Some(available))
    ensures forall i :: 0 <= i < |items| && items[i].id != id ==> r[i] == items[i]
  {
    Map(items, SetAvailable(id, available))
  }

  /**
   * Filtering does not look at availability, so updating an item before or
   * after filtering gives the same list.
   */
  lemma {:induction false} FilterCommutesWithAvailability(
    items: seq<MenuItem>, id: string, available: bool, category: string, query: string)
    ensures FilteredItems(WithAvailability(items, id, available), category, query)
         == WithAvailability(FilteredItems(items, category, query), id, available)
    decreases |items|
  {
    if items != [] {
      var updated := WithAvailability(items, id, available);
      assert updated[1..] == WithAvailability(items[1..], id, available);
      FilterCommutesWithAvailability(items[1..], id, available, category, query);
      var rest := FilteredItems(items[1..], category, query);
      if Keep(items[0], category, query) {
        var kept := [items[0]] + rest;
        assert WithAvailability(kept, id, available)[1..] == WithAvailability(rest, id, available);
      }
    }
  }

  /** The alert text after a toggle. */
  function ToggledMessage(available: bool): string {
    "Item " + (if available then "available" else "unavailable")
  }

  /** The component state of the screen. */
  class MenuScreen {
    var menuItems: seq<MenuItem>
    var filteredItems: seq<MenuItem>
    var loading: bool
    var refreshing: bool
    var searchQuery: string
    var categories: seq<string>
    var selectedCategory: string

    /** The shown list is the filtered menu. */
    ghost predicate Valid()
      reads this
    {
      filteredItems == FilteredItems(menuItems, selectedCategory, searchQuery)
    }

    constructor()
      ensures menuItems == [] && filteredItems == [] && categories == []
      ensures loading && !refreshing && searchQuery == "" && selectedCategory == "all"
      ensures Valid()
    {
      menuItems, filteredItems, categories := [], [], [];
      loading, refreshing := true, false;
      searchQuery, selectedCategory := "", "all";
    }

    /**
     * `filterItems`, the effect that runs whenever the menu, the query or the
     * category changes: narrow by category, then by the lower-cased query.
     */
    method FilterItems()
      modifies this
      ensures filteredItems == FilteredItems(menuItems, selectedCategory, searchQuery)
      ensures menuItems == old(menuItems) && searchQuery == old(searchQuery)
      ensures selectedCategory == old(selectedCategory) && categories == old(categories)
      ensures loading == old(loading) && refreshing == old(refreshing)
      ensures Valid()
    {
      var filtered := menuItems;
      if selectedCategory != "all" {
        filtered := Filter(filtered, InCategory(selectedCategory));
      }
      if searchQuery != "" {
        var query := ToLower(searchQuery);
        filtered := Filter(filtered, MatchesQuery(query));
      }
      var keep := KeepFn(selectedCategory, searchQuery);
      if selectedCategory != "all" && searchQuery != "" {
        FilterFuse(menuItems, InCategory(selectedCategory), MatchesQuery(ToLower(searchQuery)), keep);
      } else if selectedCategory != "all" {
        FilterExt(menuItems, InCategory(selectedCategory), keep);
      } else if searchQuery != "" {
        FilterExt(menuItems, MatchesQuery(ToLower(searchQuery)), keep);
      } else {
        FilterAll(menuItems, keep);
      }
      filteredItems := filtered;
    }

    /** Typing in the search box, followed by the filtering effect. */
    method SetSearchQuery(query: string)
      modifies this
      ensures searchQuery == query && Valid()
      ensures menuItems == old(menuItems) && selectedCategory == old(selectedCategory)
      ensures categories == old(categories)
    {
      searchQuery := query;
      FilterItems();
    }

    /** Choosing a category chip, followed by the filtering effect. */
    method SelectCategory(category: string)
      modifies this
      ensures selectedCategory == category && Valid()
      ensures menuItems == old(menuItems) && searchQuery == old(searchQuery)
      ensures categories == old(categories)
    {
      selectedCategory := category;
      FilterItems();
    }

    /**
     * `fetchMenuItems` completing with the items, or failing (`None`); on
     * success the filtering effect runs on the new menu.
     */
    method OnMenuLoaded(response: Option<seq<MenuItem>>) returns (alert: Option<Alert>)
      modifies this
      ensures !loading && !refreshing
      ensures response.Some? ==> menuItems == response.value && categories == UniqueCategories(response.value)
      ensures response.Some? ==> alert.None? && Valid()
      ensures response.None? ==> menuItems == old(menuItems) && filteredItems == old(filteredItems)
      ensures response.None? ==> categories == old(categories)
      ensures response.None? ==> alert == Some(Alert("error", "Failed to load menu items"))
      ensures searchQuery == old(searchQuery) && selectedCategory == old(selectedCategory)
    {
      alert := None;
      if response.Some? {
        menuItems := response.value;
        filteredItems := response.value;
        categories := UniqueCategories(response.value);
        loading, refreshing := false, false;
        FilterItems();
      } else {
        alert := Some(Alert("error", "Failed to load menu items"));
        loading, refreshing := false, false;
      }
    }

    /** The two `map` updates of a successful toggle. */
    method ApplyAvailability(id: string, available: bool)
      modifies this`menuItems, this`filteredItems
      ensures menuItems == WithAvailability(old(menuItems), id, available)
      ensures filteredItems == WithAvailability(old(filteredItems), id, available)
      ensures old(Valid()) ==> Valid()
    {
      var menu := WithAvailability(menuItems, id, available);
      var filtered := WithAvailability(filteredItems, id, available);
      if filteredItems == FilteredItems(menuItems, selectedCategory, searchQuery) {
        FilterCommutesWithAvailability(menuItems, id, available, selectedCategory, searchQuery);
      }
      menuItems, filteredItems := menu, filtered;
    }

    /**
     * `handleToggleAvailability(id)` after the server answered with the new
     * availability (`None`: the call failed): the same update on both lists.
     */
    method HandleToggleAvailability(id: string, response: Option<bool>) returns (alert: Alert)
      modifies this
      ensures response.Some? ==> menuItems == WithAvailability(old(menuItems), id, response.value)
      ensures response.Some? ==> filteredItems == WithAvailability(old(filteredItems), id, response.value)
      ensures response.Some? ==> alert == Alert("success", ToggledMessage(response.value))
      ensures response.None? ==> menuItems == old(menuItems) && filteredItems == old(filteredItems)
      ensures response.None? ==> alert == Alert("error", "Failed to update item availability")
      ensures searchQuery == old(searchQuery) && selectedCategory == old(selectedCategory)
      ensures categories == old(categories) && loading == old(loading) && refreshing == old(refreshing)
      ensures old(Valid()) ==> Valid()
    {
      if response.Some? {
        ApplyAvailability(id, response.value);
        alert := Alert("success", ToggledMessage(response.value));
      } else {
        alert := Alert("error", "Failed to update item availability");
      }
    }
  }
}
