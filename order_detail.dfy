/** The status logic and state of the order detail screen. */
module OrderDetail {
  import opened Wrappers
  import opened Seqs
  import opened Strings
  import opened Config
  import opened Ui
  import opened Records

  /** The statuses the restaurant moves an order through, in order. */
  const StatusFlow: seq<string> := [PENDING, ACCEPTED, PREPARING, READY_FOR_PICKUP]

  lemma StatusFlowDistinct()
    ensures forall i, j :: 0 <= i < j < |StatusFlow| ==> StatusFlow[i] != StatusFlow[j]
  {
  }

  /**
   * `getNextStatus()`: the status after `status` in the flow; none at the end
   * of the flow or for a status outside it.
   */
  function NextStatus(status: string): (r: Option<string>)
    ensures r.Some? <==> status in StatusFlow && status != READY_FOR_PICKUP
    ensures r.Some? ==> r.value in StatusFlow && IndexOf(StatusFlow, r.value) == IndexOf(StatusFlow, status) + 1
  {
    var i := IndexOf(StatusFlow, status);
    StatusFlowDistinct();
    IndexOfDistinct(StatusFlow, |StatusFlow| - 1);
    if i == -1 || i == |StatusFlow| - 1 then None
    else
      IndexOfDistinct(StatusFlow, i + 1);
      Some(StatusFlow[i + 1])
  }

  /** The three steps the button offers, and no step after ready_for_pickup. */
  lemma NextStatusTable()
    ensures NextStatus(PENDING) == Some(ACCEPTED)
    ensures NextStatus(ACCEPTED) == Some(PREPARING)
    ensures NextStatus(PREPARING) == Some(READY_FOR_PICKUP)
    ensures NextStatus(READY_FOR_PICKUP) == None
  {
    StatusFlowDistinct();
    IndexOfDistinct(StatusFlow, 0);
    IndexOfDistinct(StatusFlow, 1);
    IndexOfDistinct(StatusFlow, 2);
  }

  /** The statuses the rider moves the order through, and cancelled, offer no step. */
  lemma NoNextStatusOutsideFlow()
    ensures NextStatus(ASSIGNED_TO_RIDER) == None && NextStatus(PICKED_UP) == None
    ensures NextStatus(ON_THE_WAY) == None && NextStatus(DELIVERED) == None
    ensures NextStatus(CANCELLED) == None
  {
    forall s | s in [ASSIGNED_TO_RIDER, PICKED_UP, ON_THE_WAY, DELIVERED, CANCELLED]
      ensures s !in StatusFlow
    {
    }
  }

  /** `order.status === ORDER_STATUSES.PENDING`: whether "Cancel Order" is offered. */
  function CanCancel(status: string): bool {
    status == PENDING
  }

  /** An order can be cancelled exactly at the start of the flow, where it can also be accepted. */
  lemma CanCancelAtFlowStart(status: string)
    ensures CanCancel(status) <==> IndexOf(StatusFlow, status) == 0
    ensures CanCancel(status) ==> NextStatus(status) == Some(ACCEPTED)
  {
    StatusFlowDistinct();
    IndexOfDistinct(StatusFlow, 0);
    IndexOfDistinct(StatusFlow, 1);
  }

  /** `getStatusBadgeType(status)`. */
  function StatusBadgeType(status: string): (r: BadgeType)
    ensures r == Warning <==> status == PENDING
    ensures r == Info <==> status in {ACCEPTED, PREPARING, READY_FOR_PICKUP, ASSIGNED_TO_RIDER, PICKED_UP, ON_THE_WAY}
    ensures r == Success <==> status == DELIVERED
    ensures r == Error <==> status == CANCELLED
    ensures r == Default <==> ParseOrderStatus(status).None?
    ensures r != Primary
  {
    if status == PENDING then Warning
    else if status == ACCEPTED || status == PREPARING || status == READY_FOR_PICKUP
      || status == ASSIGNED_TO_RIDER || status == PICKED_UP || status == ON_THE_WAY then Info
    else if status == DELIVERED then Success
    else if status == CANCELLED then Error
    else Default
  }

  /** Upper-casing neither creates nor moves an underscore. */
  lemma {:induction false} UnderscoreInUpper(s: string)
    ensures IndexOf(ToUpper(s), '_') == IndexOf(s, '_')
  {
    if s != [] {
      assert ToUpper(s)[1..] == ToUpper(s[1..]);
      UnderscoreInUpper(s[1..]);
    }
  }

  /**
   * `status.toUpperCase().replace('_', ' ')`: the status in capitals with
   * only its first underscore turned into a space.
   */
  function StatusLabel(status: string): (r: string)
    ensures |r| == |status|
    ensures '_' !in status ==> r == ToUpper(status)
    ensures '_' in status ==> r == ToUpper(status)[IndexOf(status, '_') := ' ']
  {
    UnderscoreInUpper(status);
    ReplaceFirst(ToUpper(status), '_', ' ')
  }

  /** Only the first underscore is replaced: ready_for_pickup reads "READY FOR_PICKUP". */
  lemma StatusLabelReadyForPickup()
    ensures StatusLabel(READY_FOR_PICKUP) == "READY FOR_PICKUP"
  {
    KeyIsUppercasedValue(ReadyForPickup);
    IndexOfAt(READY_FOR_PICKUP, '_', 5);
    ReadyForPickupText();
  }

  lemma ReadyForPickupText()
    ensures "READY_FOR_PICKUP"[5 := ' '] == "READY FOR_PICKUP"
  {
  }

  /** The component state of the screen. */
  class OrderDetailScreen {
    var order: Option<Order>
    var loading: bool
    var statusLoading: bool
    var showStatusModal: bool
    var selectedStatus: Option<string>

    constructor()
      ensures order.None? && loading && !statusLoading && !showStatusModal && selectedStatus.None?
    {
      order := None;
      loading := true;
      statusLoading := false;
      showStatusModal := false;
      selectedStatus := None;
    }

    /** `fetchOrderDetails` completing: with the order, or failing (`None`) and going back. */
    method OnOrderLoaded(response: Option<Order>) returns (alert: Option<Alert>, goBack: bool)
      modifies this
      ensures !loading
      ensures response.Some? ==> order == response && alert.None? && !goBack
      ensures response.None? ==> order == old(order) && goBack
      ensures response.None? ==> alert == Some(Alert("error", "Failed to load order details"))
      ensures statusLoading == old(statusLoading) && showStatusModal == old(showStatusModal)
      ensures selectedStatus == old(selectedStatus)
    {
      alert, goBack := None, false;
      if response.Some? {
        order := response;
      } else {
        alert := Some(Alert("error", "Failed to load order details"));
        goBack := true;
      }
      loading := false;
    }

    /** `openStatusModal(status)`: remember the status and ask for confirmation. */
    method OpenStatusModal(status: string)
      modifies this
      ensures selectedStatus == Some(status) && showStatusModal
      ensures order == old(order) && loading == old(loading) && statusLoading == old(statusLoading)
    {
      selectedStatus := Some(status);
      showStatusModal := true;
    }

    /** The modal's close and Cancel buttons. */
    method CloseStatusModal()
      modifies this
      ensures !showStatusModal
      ensures order == old(order) && loading == old(loading) && statusLoading == old(statusLoading)
      ensures selectedStatus == old(selectedStatus)
    {
      showStatusModal := false;
    }

    /**
     * `handleStatusChange` up to the request: nothing happens without a
     * selected status; otherwise the modal is closed and the status returned
     * is the one to send to `updateOrderStatus`.
     */
    method HandleStatusChange() returns (request: Option<string>)
      modifies this
      ensures request.None? <==> old(selectedStatus).None? || old(selectedStatus).value == ""
      ensures request.None? ==> statusLoading == old(statusLoading) && showStatusModal == old(showStatusModal)
      ensures request.Some? ==> request == old(selectedStatus) && statusLoading && !showStatusModal
      ensures order == old(order) && loading == old(loading) && selectedStatus == old(selectedStatus)
    {
      if selectedStatus.None? || selectedStatus.value == "" {
        return None;
      }
      statusLoading := true;
      showStatusModal := false;
      request := selectedStatus;
    }

    /** `handleStatusChange` after `updateOrderStatus(status)` answered (`None`: it failed). */
    method OnStatusUpdated(status: string, response: Option<Order>) returns (alert: Alert)
      modifies this
      ensures !statusLoading
      ensures response.Some? ==> order == response && alert == Alert("success", "Order status updated to " + status)
      ensures response.None? ==> order == old(order) && alert == Alert("error", "Failed to update order status")
      ensures loading == old(loading) && showStatusModal == old(showStatusModal)
      ensures selectedStatus == old(selectedStatus)
    {
      if response.Some? {
        order := response;
        alert := Alert("success", "Order status updated to " + status);
      } else {
        alert := Alert("error", "Failed to update order status");
      }
      statusLoading := false;
    }
  }
}
