/**
 * The forgot-password screen: one e-mail field, a request only for a valid
 * address, and the `resetSent` flag that only a successful request sets.
 */
module ForgotPassword {
  import opened Wrappers
  import opened Strings
  import opened Ui
  import opened AuthValidation
  import opened Forms
  import opened AuthService

  const RESET_SENT := "Password reset instructions sent to your email"
  const RESET_FAILED := "Failed to send reset instructions. Please try again."

  /** The alert `handleSubmit` shows for a reply: the server's message wins over the default. */
  function ResetAlert(reply: ResetReply): (r: Alert)
    ensures r.kind == "success" <==> reply.ResetSent?
    ensures reply.ResetSent? ==> r.message == RESET_SENT
    ensures reply.ResetFailed? && reply.serverMessage.Some? && reply.serverMessage.value != "" ==>
      r.message == reply.serverMessage.value
    ensures reply.ResetFailed? && !(reply.serverMessage.Some? && reply.serverMessage.value != "") ==>
      r.message == RESET_FAILED
  {
    match reply
    case ResetSent => Alert("success", RESET_SENT)
    case ResetFailed(server) => Alert("error", FailureMessage(server, "", RESET_FAILED))
  }

  class ForgotPasswordScreen {
    var email: string
    var errors: map<CredentialField, string>
    var loading: bool
    var resetSent: bool

    constructor()
      ensures email == "" && errors == map[] && !loading && !resetSent
    {
      email, errors, loading, resetSent := "", map[], false, false;
    }

    /** `onChangeText={setEmail}`. */
    method SetEmail(value: string)
      modifies this`email
      ensures email == value
    {
      email := value;
    }

    /** `validate()`: true exactly when the address matches. */
    method Validate() returns (ok: bool)
      modifies this`errors
      ensures errors == ResetErrors(email)
      ensures ok <==> MatchesEmailRegex(email)
    {
      var newErrors: map<CredentialField, string> := map[];
      if email == "" {
        newErrors := newErrors[Email := EMAIL_REQUIRED];
      } else if !IsEmailLike(email) {
        newErrors := newErrors[Email := EMAIL_INVALID];
      }
      assert newErrors == ResetErrors(email);
      errors := newErrors;
      ok := |newErrors| == 0;
      assert ok <==> MatchesEmailRegex(email) by {
        ResetErrorsMeaning(email);
      }
    }

    /** `handleSubmit()` up to the request: `forgotPassword(email)` only for a valid address. */
    method HandleSubmit() returns (request: Option<string>)
      modifies this`errors, this`loading
      ensures errors == ResetErrors(email)
      ensures request.Some? <==> MatchesEmailRegex(email)
      ensures request.Some? ==> request.value == email && loading
      ensures request.None? ==> loading == old(loading)
    {
      var ok := Validate();
      if ok {
        loading := true;
      }
      request := if ok then Some(email) else None;
    }

    /**
     * The request settled: `resetSent` becomes true on success and is left
     * as it was on failure; the loader goes either way.
     */
    method OnResetReply(reply: ResetReply) returns (alert: Alert)
      modifies this`resetSent, this`loading
      ensures !loading
      ensures resetSent == (old(resetSent) || reply.ResetSent?)
      ensures alert == ResetAlert(reply)
    {
      if reply.ResetSent? {
        resetSent := true;
      }
      alert := ResetAlert(reply);
      loading := false;
    }
  }

  /**
   * On a fresh screen, `resetSent` is true after a submission exactly when
   * the address was valid and the server accepted it.
   */
  method SubmitOnce(email: string, reply: ResetReply) returns (resetSent: bool, requested: bool)
    ensures requested <==> MatchesEmailRegex(email)
    ensures resetSent <==> MatchesEmailRegex(email) && reply.ResetSent?
  {
    var screen := new ForgotPasswordScreen();
    screen.SetEmail(email);
    var request := screen.HandleSubmit();
    requested := request.Some?;
    if requested {
      var alert := screen.OnResetReply(reply);
    }
    resetSent := screen.resetSent;
  }
}
