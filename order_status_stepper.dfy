/** The five-step progress display of an order. */
module OrderStatusStepper {
  import opened Wrappers
  import opened Seqs
  import opened Config
  import opened Records
  import OrderDetail

  /** An entry of `orderFlow`; its icon is presentation only. */
  datatype FlowStep = FlowStep(status: string, caption: string)

  const OrderFlow: seq<FlowStep> := [
    FlowStep(PENDING, "Pending"),
    FlowStep(ACCEPTED, "Accepted"),
    FlowStep(PREPARING, "Preparing"),
    FlowStep(READY_FOR_PICKUP, "Ready for Pickup"),
    FlowStep(DELIVERED, "Delivered")
  ]

  function StepStatus(step: FlowStep): string {
    step.status
  }

  /** The statuses of the flow, in order. */
  function FlowStatuses(): (r: seq<string>)
    ensures |r| == |OrderFlow|
    ensures forall i :: 0 <= i < |r| ==> r[i] == OrderFlow[i].status
  {
    Map(OrderFlow, StepStatus)
  }

  /** The flow is the detail screen's flow followed by delivered. */
  lemma FlowIsStatusFlowThenDelivered()
    ensures FlowStatuses() == OrderDetail.StatusFlow + [DELIVERED]
    ensures FlowStatuses() == [PENDING, ACCEPTED, PREPARING, READY_FOR_PICKUP, DELIVERED]
  {
  }

  /** No status occurs twice in the flow. */
  lemma FlowStatusesDistinct()
    ensures forall i, j :: 0 <= i < j < |FlowStatuses()| ==> FlowStatuses()[i] != FlowStatuses()[j]
  {
  }

  /** `orderFlow.findIndex(item => item.status === currentStatus)`. */
  function CurrentIndex(status: string): (i: int)
    ensures -1 <= i < |OrderFlow|
    ensures i == -1 <==> forall k :: 0 <= k < |OrderFlow| ==> OrderFlow[k].status != status
    ensures 0 <= i ==> OrderFlow[i].status == status
  {
    IndexOf(FlowStatuses(), status)
  }

  function EntryFor(status: string): StatusEntry -> bool {
    (e: StatusEntry) => e.status == status
  }

  /** `time` is the time of the first entry of `h` for `status`. */
  ghost predicate FirstEntryTime(h: seq<StatusEntry>, status: string, time: string) {
    exists i :: 0 <= i < |h| && h[i].status == status && h[i].time == time &&
      forall j :: 0 <= j < i ==> h[j].status != status
  }

  /**
   * `getStatusTimestamp(status)`: the time of the first history entry for
   * `status`; none when the history is missing or has no such entry.
   */
  function StatusTimestamp(history: Option<seq<StatusEntry>>, status: string): (r: Option<string>)
    ensures history.None? ==> r.None?
    ensures history.Some? ==> (r.None? <==> forall i :: 0 <= i < |history.value| ==> history.value[i].status != status)
    ensures r.Some? ==> FirstEntryTime(history.value, status, r.value)
  {
    if history.None? then None
    else
      match Find(history.value, EntryFor(status))
      case None => None
      case Some(e) => Some(e.time)
  }

  /**
   * A drawn step. `connector` is the line drawn below the step: none for the
   * last step, otherwise whether it is highlighted.
   */
  datatype RenderedStep = RenderedStep(
    status: string,
    caption: string,
    active: bool,
    time: Option<string>,
    connector: Option<bool>)

  /** What the stepper draws. */
  datatype Stepper = CancelledBanner | Steps(steps: seq<RenderedStep>)

  function RenderStep(index: nat, current: int, history: Option<seq<StatusEntry>>): RenderedStep
    requires index < |OrderFlow|
  {
    var step := OrderFlow[index];
    RenderedStep(
      step.status, step.caption, current >= index, StatusTimestamp(history, step.status),
      if index == |OrderFlow| - 1 then None else Some(index < current))
  }

  /**
   * The stepper for an order: the cancelled banner for a cancelled order,
   * otherwise one step per flow entry, active up to the current status.
   */
  function Render(currentStatus: string, history: Option<seq<StatusEntry>>): (r: Stepper)
    ensures r.CancelledBanner? <==> currentStatus == CANCELLED
    ensures r.Steps? ==> |r.steps| == |OrderFlow|
    ensures r.Steps? ==> forall i :: 0 <= i < |r.steps| ==>
      && r.steps[i].status == OrderFlow[i].status
      && r.steps[i].caption == OrderFlow[i].caption
      && (r.steps[i].active <==> i <= CurrentIndex(currentStatus))
      && (r.steps[i].connector.None? <==> i == |OrderFlow| - 1)
      && (r.steps[i].connector == Some(true) <==> i < CurrentIndex(currentStatus))
      && r.steps[i].time == StatusTimestamp(history, OrderFlow[i].status)
  {
    if currentStatus == CANCELLED then CancelledBanner
    else
      var current := CurrentIndex(currentStatus);
      Steps(seq(|OrderFlow|, i requires 0 <= i < |OrderFlow| => RenderStep(i, current, history)))
  }

  /** The number of active steps. */
  function ActiveCount(steps: seq<RenderedStep>): nat {
    if steps == [] then 0 else (if steps[0].active then 1 else 0) + ActiveCount(steps[1..])
  }

  /** Steps active exactly up to `k` number `k + 1`. */
  lemma {:induction false} ActiveCountOfPrefix(steps: seq<RenderedStep>, k: int)
    requires -1 <= k < |steps|
    requires forall i :: 0 <= i < |steps| ==> (steps[i].active <==> i <= k)
    ensures ActiveCount(steps) == k + 1
  {
    if steps != [] {
      ActiveCountOfPrefix(steps[1..], if k == -1 then -1 else k - 1);
    }
  }

  /** Exactly `currentIndex + 1` steps are active. */
  lemma ActiveStepsCount(currentStatus: string, history: Option<seq<StatusEntry>>)
    requires currentStatus != CANCELLED
    ensures ActiveCount(Render(currentStatus, history).steps) == CurrentIndex(currentStatus) + 1
  {
    ActiveCountOfPrefix(Render(currentStatus, history).steps, CurrentIndex(currentStatus));
  }

  /** The rider stages, and every status outside the flow, show no active step. */
  lemma NoActiveStepOutsideFlow(currentStatus: string, history: Option<seq<StatusEntry>>)
    requires currentStatus != CANCELLED && currentStatus !in FlowStatuses()
    ensures CurrentIndex(currentStatus) == -1
    ensures forall s :: s in Render(currentStatus, history).steps ==> !s.active
    ensures ActiveCount(Render(currentStatus, history).steps) == 0
  {
    assert CurrentIndex(currentStatus) == -1;
    var steps := Render(currentStatus, history).steps;
    forall s | s in steps
      ensures !s.active
    {
      var i :| 0 <= i < |steps| && steps[i] == s;
    }
    ActiveStepsCount(currentStatus, history);
  }

  /** assigned_to_rider, picked_up and on_the_way lie outside the flow. */
  lemma RiderStagesOutsideFlow()
    ensures ASSIGNED_TO_RIDER !in FlowStatuses()
    ensures PICKED_UP !in FlowStatuses()
    ensures ON_THE_WAY !in FlowStatuses()
  {
    FlowIsStatusFlowThenDelivered();
  }
}
