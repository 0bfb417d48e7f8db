/**
 * How the order screens' separate status classifiers relate: the detail
 * screen's badge and the list row's badge agree on every status but one.
 */
module StatusConsistency {
  import opened Config
  import opened Ui
  import OrderDetail
  import OrderItem

  /**
   * The order detail badge and the order row badge are the same for every
   * string except ready_for_pickup, which the detail screen shows as info
   * and the row as primary.
   */
  lemma DetailAndRowBadgesAgree(status: string)
    ensures status != READY_FOR_PICKUP ==>
      OrderDetail.StatusBadgeType(status) == OrderItem.GetStatusInfo(status).badge
    ensures status == READY_FOR_PICKUP ==>
      OrderDetail.StatusBadgeType(status) == Info && OrderItem.GetStatusInfo(status).badge == Primary
  {
  }
}
