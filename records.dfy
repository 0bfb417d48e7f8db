/**
 * The server records the screens read, with the fields the modelled logic
 * uses. A field the server may omit is an `Option`.
 */
module Records {
  import opened Wrappers
  import opened Strings

  /** One line of an order. */
  datatype LineItem = LineItem(name: string, quantity: int)

  /** An entry of `order.statusHistory`. */
  datatype StatusEntry = StatusEntry(status: string, time: string)

  /** An order as `getOrders`/`getOrder` return it. */
  datatype Order = Order(
    id: string,
    status: string,
    items: seq<LineItem>,
    statusHistory: Option<seq<StatusEntry>>)

  /** A menu item as `getMenuItems`/`getMenuItem` return it; prices are whole numbers here. */
  datatype MenuItem = MenuItem(
    id: string,
    name: string,
    description: string,
    category: string,
    price: int,
    preparationTime: int,
    isVeg: Option<bool>,
    isVegan: Option<bool>,
    isGlutenFree: Option<bool>,
    featured: Option<bool>,
    available: Option<bool>,
    image: Option<string>)

  /** A restaurant as `getRestaurantDetails` returns it. */
  datatype Restaurant = Restaurant(
    id: string,
    status: string,
    name: Option<string>,
    description: Option<string>,
    email: Option<string>,
    phone: Option<string>,
    address: Option<string>,
    cuisineType: Option<seq<string>>,
    minimumOrder: Option<int>,
    deliveryFee: Option<int>,
    deliveryTime: Option<int>,
    logo: Option<string>,
    coverImage: Option<string>)

  /** One day of `analytics.salesByDay`. */
  datatype DaySales = DaySales(date: string, revenue: real, orderCount: int)

  /** One entry of `analytics.topItems`. */
  datatype TopItem = TopItem(name: string, category: Option<string>, orderCount: int)

  /** The analytics record; both lists may be missing. */
  datatype AnalyticsData = AnalyticsData(
    salesByDay: Option<seq<DaySales>>,
    topItems: Option<seq<TopItem>>)

  /** The logged-in user as the app keeps it after sign-in. */
  datatype UserInfo = UserInfo(role: string, restaurantId: Option<string>)

  /**
   * `JSON.stringify(user)`, standing in for the serialiser: an object
   * literal, never the empty string. Escaping is not modelled.
   */
  function UserInfoJson(u: UserInfo): (r: string)
    ensures r != "" && r[0] == '{'
  {
    "{\"role\":\"" + u.role + "\"" +
    (if u.restaurantId.Some? then ",\"restaurantId\":\"" + u.restaurantId.value + "\"" else "") + "}"
  }

  /**
   * `id.substring(id.length - 6)`: the last six characters of an order id,
   * or the whole id when it is shorter.
   */
  function ShortId(id: string): (r: string)
    ensures |id| <= 6 ==> r == id
    ensures |id| > 6 ==> |r| == 6 && id == id[..|id| - 6] + r
  {
    SubstringFrom(id, |id| - 6)
  }

  /**
   * The title `Order #<short id>` that both the order detail header and an
   * order row show.
   */
  function OrderTitle(id: string): (r: string)
    ensures |id| <= 6 ==> r == "Order #" + id
    ensures |id| > 6 ==> |r| == 13 && r[..7] == "Order #" && r[7..] == id[|id| - 6..]
  {
    "Order #" + ShortId(id)
  }
}
