/**
 * The app-wide alert: one record of visibility, type and message that
 * `showAlert`, `hideAlert` and the auto-hide timer replace. The timer is an
 * event delivered by the caller, not a clock.
 */
module AlertContext {

  /** The `alert` state: whether it shows, its type and its message. */
  datatype AlertState = AlertState(visible: bool, kind: string, message: string)

  /** The state the provider starts in. */
  const INITIAL := AlertState(false, "success", "")

  /** How long an alert stays before the timer hides it, in milliseconds. */
  const AUTO_HIDE_MS := 3000

  /** The updater `prev => ({ ...prev, visible: false })` that both hide paths use. */
  function Hidden(prev: AlertState): (r: AlertState)
    ensures !r.visible && r.kind == prev.kind && r.message == prev.message
  {
    prev.(visible := false)
  }

  /** Hiding twice is hiding once. */
  lemma HiddenIdempotent(s: AlertState)
    ensures Hidden(Hidden(s)) == Hidden(s)
  {
  }

  class AlertProvider {
    var alert: AlertState
    /** Auto-hide timers started and not yet fired. */
    var pendingTimers: nat

    constructor()
      ensures alert == INITIAL && pendingTimers == 0
    {
      alert := INITIAL;
      pendingTimers := 0;
    }

    /** `showAlert(type, message)`: shown with exactly these, and an auto-hide timer started. */
    method ShowAlert(kind: string, message: string)
      modifies this
      ensures alert == AlertState(true, kind, message)
      ensures pendingTimers == old(pendingTimers) + 1
    {
      alert := AlertState(true, kind, message);
      pendingTimers := pendingTimers + 1;
    }

    /** `hideAlert()`: hidden, with type and message kept. */
    method HideAlert()
      modifies this`alert
      ensures alert == Hidden(old(alert))
    {
      alert := Hidden(alert);
    }

    /** A started timer fires: the same update as `hideAlert`. */
    method OnTimerFired()
      modifies this
      requires pendingTimers > 0
      ensures alert == Hidden(old(alert))
      ensures pendingTimers == old(pendingTimers) - 1
    {
      alert := Hidden(alert);
      pendingTimers := pendingTimers - 1;
    }
  }

  /**
   * Showing an alert and letting its timer fire leaves it hidden with the
   * type and message it was shown with.
   */
  method ShowThenExpire(provider: AlertProvider, kind: string, message: string)
    modifies provider
    ensures provider.alert == AlertState(false, kind, message)
    ensures provider.pendingTimers == old(provider.pendingTimers)
  {
    provider.ShowAlert(kind, message);
    provider.OnTimerFired();
  }

  /**
   * A later alert does not restart the earlier timer: when the first
   * alert's timer fires, the second alert is hidden too, however recently
   * it was shown.
   */
  method EarlierTimerHidesLaterAlert(provider: AlertProvider, first: string, second: string)
    modifies provider
    ensures provider.alert == AlertState(false, "error", second)
    ensures provider.pendingTimers == old(provider.pendingTimers) + 1
  {
    provider.ShowAlert("success", first);
    provider.ShowAlert("error", second);
    provider.OnTimerFired();
  }
}
