/** The compact order row of the dashboard. */
module RecentOrderItem {
  import opened Config
  import opened Ui
  import opened Records
  import OrderItem

  /** `getStatusInfo(status)`, a second copy of the order row's classifier. */
  function GetStatusInfo(status: string): StatusInfo {
    if status == PENDING then StatusInfo(Warning, "Pending")
    else if status == ACCEPTED then StatusInfo(Info, "Accepted")
    else if status == PREPARING then StatusInfo(Info, "Preparing")
    else if status == READY_FOR_PICKUP then StatusInfo(Primary, "Ready")
    else if status == PICKED_UP || status == ASSIGNED_TO_RIDER || status == ON_THE_WAY then
      StatusInfo(Info, "On The Way")
    else if status == DELIVERED then StatusInfo(Success, "Delivered")
    else if status == CANCELLED then StatusInfo(Error, "Cancelled")
    else StatusInfo(Default, status)
  }

  /** Both copies classify every string alike. */
  lemma SameAsOrderItem(status: string)
    ensures GetStatusInfo(status) == OrderItem.GetStatusInfo(status)
  {
  }

  /** `#<last six characters of the id>`. */
  function OrderNumber(id: string): (r: string)
    ensures |id| <= 6 ==> r == "#" + id
    ensures |id| > 6 ==> |r| == 7 && r[0] == '#' && r[1..] == id[|id| - 6..]
  {
    "#" + ShortId(id)
  }
}
