/**
 * The login screen: its two text fields, the validation that guards the
 * request, and what it does with the reply: the role check, the token
 * check, `signIn`, and the alert it shows.
 */
module Login {
  import opened Wrappers
  import opened Strings
  import opened Records
  import opened Storage
  import opened Ui
  import opened AuthValidation
  import opened Forms
  import opened AuthService
  import opened AppSession

  const NOT_AUTHORIZED := "You are not authorized to access the restaurant dashboard"
  const MISSING_TOKENS := "Login response missing required tokens"
  const LOGIN_FAILED := "Login failed. Please try again."
  const LOGIN_SUCCESSFUL := "Login successful"

  /** The only role the dashboard admits. */
  const RESTAURANT_ROLE := "restaurant"

  /** The reply passes both checks `handleLogin` makes before calling `signIn`. */
  predicate Admitted(reply: LoginReply) {
    reply.Replied? && reply.data.user.role == RESTAURANT_ROLE
    && HasText(reply.data.token) && HasText(reply.data.refreshToken)
  }

  /** The alert `handleLogin` shows for a reply. */
  function LoginAlert(reply: LoginReply): (r: Alert)
    ensures r.kind == "success" <==> Admitted(reply)
    ensures r.message != ""
    ensures reply.Replied? && reply.data.user.role != RESTAURANT_ROLE ==> r == Alert("error", NOT_AUTHORIZED)
    ensures reply.Replied? && reply.data.user.role == RESTAURANT_ROLE && !Admitted(reply) ==>
      r == Alert("error", MISSING_TOKENS)
    ensures reply.Failed? && reply.serverMessage.Some? && reply.serverMessage.value != "" ==>
      r == Alert("error", reply.serverMessage.value)
    ensures reply.Failed? && !HasText(reply.serverMessage) && reply.errorMessage == "" ==>
      r == Alert("error", LOGIN_FAILED)
  {
    match reply
    case Failed(server, message) => Alert("error", FailureMessage(server, message, LOGIN_FAILED))
    case Replied(data) =>
      if data.user.role != RESTAURANT_ROLE then Alert("error", NOT_AUTHORIZED)
      else if !HasText(data.token) || !HasText(data.refreshToken) then
        // the thrown Error has no server response, so its own message shows
        Alert("error", FailureMessage(None, MISSING_TOKENS, LOGIN_FAILED))
      else Alert("success", LOGIN_SUCCESSFUL)
  }

  class LoginScreen {
    var email: string
    var password: string
    var errors: map<CredentialField, string>
    var loading: bool

    constructor()
      ensures email == "" && password == "" && errors == map[] && !loading
    {
      email, password, errors, loading := "", "", map[], false;
    }

    /** `onChangeText={setEmail}`: the error shown is kept until the next validation. */
    method SetEmail(value: string)
      modifies this`email
      ensures email == value
    {
      email := value;
    }

    /** `onChangeText={setPassword}`. */
    method SetPassword(value: string)
      modifies this`password
      ensures password == value
    {
      password := value;
    }

    /** `validate()`: a message per failing rule, checked in turn; true when there are none. */
    method Validate() returns (ok: bool)
      modifies this`errors
      ensures errors == LoginErrors(email, password)
      ensures ok <==> LoginAccepted(email, password)
    {
      var newErrors: map<CredentialField, string> := map[];
      if email == "" {
        newErrors := newErrors[Email := EMAIL_REQUIRED];
      } else if !IsEmailLike(email) {
        newErrors := newErrors[Email := EMAIL_INVALID];
      }
      assert newErrors == WithRule(map[], Email, EmailError(email));
      if password == "" {
        newErrors := newErrors[Password := PASSWORD_REQUIRED];
      } else if |password| < 6 {
        newErrors := newErrors[Password := PASSWORD_TOO_SHORT];
      }
      assert newErrors == LoginErrors(email, password);
      errors := newErrors;
      ok := |newErrors| == 0;
      assert ok <==> LoginAccepted(email, password) by {
        LoginErrorsMeaning(email, password);
      }
    }

    /**
     * `handleLogin()` up to the request: `login(email, password)` is called
     * only when both rules pass, and then the loader shows.
     */
    method HandleLogin() returns (request: Option<(string, string)>)
      modifies this`errors, this`loading
      ensures errors == LoginErrors(email, password)
      ensures request.Some? <==> LoginAccepted(email, password)
      ensures request.Some? ==> request.value == (email, password) && loading
      ensures request.None? ==> loading == old(loading)
    {
      var ok := Validate();
      if ok {
        loading := true;
      }
      request := if ok then Some((email, password)) else None;
    }

    /**
     * The rest of `handleLogin()`, once `login` has answered (and stored
     * what it stores): a user who is not a restaurant is turned away, a
     * reply without both tokens is an error, and only a reply that passes
     * both reaches `signIn`. The loader goes in every case.
     */
    method OnLoginReply(reply: LoginReply, app: App, fault: Fault) returns (alert: Alert, signedIn: bool)
      modifies this`loading, app, app.store
      ensures !loading
      ensures alert == LoginAlert(reply)
      ensures signedIn <==> Admitted(reply)
      ensures signedIn ==>
        app.store.items == SignInWrites(old(app.store.items), reply.data.token.value, reply.data.user, fault)
        && !app.isLoading
        && (Completes(fault, 1) ==> app.userToken == reply.data.token && app.userInfo == Some(reply.data.user))
      ensures !signedIn ==>
        app.store.items == old(app.store.items) && app.isLoading == old(app.isLoading)
        && app.userToken == old(app.userToken) && app.userInfo == old(app.userInfo)
    {
      signedIn := Admitted(reply);
      if signedIn {
        app.SignIn(reply.data.token.value, reply.data.user, reply.data.refreshToken.value, fault);
      }
      alert := LoginAlert(reply);
      loading := false;
    }

    /**
     * Corrected: as `OnLoginReply`, but a reply turned away after `login`
     * has stored it also removes the stored session, so that no later start
     * restores it.
     */
    method OnLoginReplyCorrected(reply: LoginReply, app: App, fault: Fault) returns (alert: Alert, signedIn: bool)
      modifies this`loading, app, app.store
      ensures !loading
      ensures alert == LoginAlert(reply)
      ensures signedIn <==> Admitted(reply)
      ensures signedIn ==>
        app.store.items == SignInWrites(old(app.store.items), reply.data.token.value, reply.data.user, fault)
        && !app.isLoading
        && (Completes(fault, 1) ==> app.userToken == reply.data.token && app.userInfo == Some(reply.data.user))
      ensures !signedIn && reply.Replied? ==> app.store.items == old(app.store.items) - SessionKeys
      ensures !signedIn && reply.Failed? ==> app.store.items == old(app.store.items)
      ensures !signedIn ==>
        app.isLoading == old(app.isLoading) && app.userToken == old(app.userToken) && app.userInfo == old(app.userInfo)
    {
      signedIn := Admitted(reply);
      if signedIn {
        app.SignIn(reply.data.token.value, reply.data.user, reply.data.refreshToken.value, fault);
      } else if reply.Replied? {
        app.store.RemoveItem(USER_TOKEN);
        app.store.RemoveItem(REFRESH_TOKEN);
        app.store.RemoveItem(USER_INFO);
      }
      alert := LoginAlert(reply);
      loading := false;
    }
  }

  /**
   * As written: a customer logs in on a fresh install and is turned away,
   * yet `login` has already stored their token and user, so the next start
   * of the app restores them and shows the main tabs.
   */
  method RejectedLoginRestoredOnRestart() returns (alert: Alert, screen: Screen)
    ensures alert == Alert("error", NOT_AUTHORIZED)
    ensures screen == Main
  {
    var store := new Store(map[]);
    var app := new App(store);
    app.Bootstrap(None, NoFault);
    var user := UserInfo("customer", None);
    var data := LoginData(user, Some("token"), Some("refresh"));
    StoreLoginData(store, data);
    var login := new LoginScreen();
    var signedIn;
    alert, signedIn := login.OnLoginReply(Replied(data), app, NoFault);
    var restarted := new App(store);
    restarted.Bootstrap(Some(user), NoFault);
    screen := restarted.CurrentScreen();
  }

  /** Corrected: the same customer stays on the auth screens after a restart. */
  method RejectedLoginCorrectedStaysSignedOut() returns (alert: Alert, screen: Screen)
    ensures alert == Alert("error", NOT_AUTHORIZED)
    ensures screen == Auth
  {
    var store := new Store(map[]);
    var app := new App(store);
    app.Bootstrap(None, NoFault);
    var user := UserInfo("customer", None);
    var data := LoginData(user, Some("token"), Some("refresh"));
    StoreLoginData(store, data);
    var login := new LoginScreen();
    var signedIn;
    alert, signedIn := login.OnLoginReplyCorrected(Replied(data), app, NoFault);
    var restarted := new App(store);
    restarted.Bootstrap(Some(user), NoFault);
    screen := restarted.CurrentScreen();
  }

  /**
   * Corrected, for every reply: whatever `login` stored before a reply is
   * turned away, no token is left for the next start to restore.
   */
  method TurnedAwayLeavesNoSession(reply: LoginReply, parsed: Option<UserInfo>, fault: Fault) returns (screen: Screen)
    requires reply.Replied? && !Admitted(reply)
    ensures screen == Auth
  {
    var store := new Store(map[]);
    StoreLoginData(store, reply.data);
    var app := new App(store);
    var login := new LoginScreen();
    var alert, signedIn := login.OnLoginReplyCorrected(reply, app, NoFault);
    var restarted := new App(store);
    restarted.Bootstrap(parsed, fault);
    screen := restarted.CurrentScreen();
  }
}
