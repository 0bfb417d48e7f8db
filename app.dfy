/**
 * The root component: the session it keeps in memory (`userToken`,
 * `userInfo`, `isLoading`), the `authContext` calls that write it and the
 * store, the start-up restore, and the choice of navigator.
 */
module AppSession {
  import opened Wrappers
  import opened Records
  import opened Storage

  /** What the root renders: the splash, the auth stack or the main tabs. */
  datatype Screen = Splash | Auth | Main

  /**
   * The store after `signIn`: the token, then the serialised user, as far
   * as the storage calls complete; the refresh token is never written.
   */
  function SignInWrites(items: map<string, string>, token: string, user: UserInfo, fault: Fault): map<string, string> {
    if Completes(fault, 1) then items[USER_TOKEN := token][USER_INFO := UserInfoJson(user)]
    else if Completes(fault, 0) then items[USER_TOKEN := token]
    else items
  }

  class App {
    const store: Store
    var isLoading: bool
    var userToken: Option<string>
    var userInfo: Option<UserInfo>

    /** The first render: loading, nobody signed in. */
    constructor(store: Store)
      ensures this.store == store
      ensures isLoading && userToken == None && userInfo == None
    {
      this.store := store;
      isLoading, userToken, userInfo := true, None, None;
    }

    /**
     * The navigator shown: the splash while loading, then the auth screens
     * exactly when no token is held in memory, the main tabs otherwise.
     */
    function CurrentScreen(): (r: Screen)
      reads this
      ensures r == Splash <==> isLoading
      ensures r == Auth <==> !isLoading && userToken == None
      ensures r == Main <==> !isLoading && userToken.Some?
    {
      if isLoading then Splash
      else if userToken == None then Auth
      else Main
    }

    /**
     * `signIn(token, user)`: the token and the serialised user are stored,
     * then both are held in memory. A refresh token passed as a third
     * argument is ignored. A storage call that throws stops the rest, and
     * the loader is cleared either way.
     */
    method SignIn(token: string, user: UserInfo, refreshToken: string, fault: Fault)
      modifies this, store
      ensures !isLoading
      ensures store.items == SignInWrites(old(store.items), token, user, fault)
      ensures Completes(fault, 1) ==> userToken == Some(token) && userInfo == Some(user)
      ensures !Completes(fault, 1) ==> userToken == old(userToken) && userInfo == old(userInfo)
    {
      isLoading := true;
      if Completes(fault, 0) {
        store.SetItem(USER_TOKEN, token);
        if Completes(fault, 1) {
          store.SetItem(USER_INFO, UserInfoJson(user));
          userToken := Some(token);
          userInfo := Some(user);
        }
      }
      isLoading := false;
    }

    /**
     * `signOut()`: the token and the user are removed from storage and from
     * memory; the refresh token stays stored.
     */
    method SignOut(fault: Fault)
      modifies this, store
      ensures !isLoading
      ensures store.items ==
        if Completes(fault, 1) then old(store.items) - {USER_TOKEN, USER_INFO}
        else if Completes(fault, 0) then old(store.items) - {USER_TOKEN}
        else old(store.items)
      ensures Completes(fault, 1) ==> userToken == None && userInfo == None
      ensures !Completes(fault, 1) ==> userToken == old(userToken) && userInfo == old(userInfo)
    {
      isLoading := true;
      if Completes(fault, 0) {
        store.RemoveItem(USER_TOKEN);
        if Completes(fault, 1) {
          store.RemoveItem(USER_INFO);
          userToken := None;
          userInfo := None;
        }
      }
      isLoading := false;
    }

    /**
     * `bootstrapAsync()`: when both a token and a user are stored (and both
     * reads complete), the token is restored, and the user too when
     * `JSON.parse` of the stored text gives one (`parsed`); a parse that
     * throws leaves the token restored and the user as it was. Storage is
     * only read, and the loader is cleared either way.
     */
    method Bootstrap(parsed: Option<UserInfo>, fault: Fault)
      modifies this
      ensures !isLoading
      ensures var restored := Completes(fault, 1) && HasText(store.GetItem(USER_TOKEN)) && HasText(store.GetItem(USER_INFO));
        && (restored ==> userToken == Some(store.items[USER_TOKEN]))
        && (!restored ==> userToken == old(userToken))
        && (restored && parsed.Some? ==> userInfo == parsed)
        && (!restored || parsed.None? ==> userInfo == old(userInfo))
    {
      if Completes(fault, 0) {
        var token := store.GetItem(USER_TOKEN);
        if Completes(fault, 1) {
          var userInfoString := store.GetItem(USER_INFO);
          if HasText(token) && HasText(userInfoString) {
            userToken := token;
            if parsed.Some? {
              userInfo := parsed;
            }
          }
        }
      }
      isLoading := false;
    }
  }

  /**
   * Signing in and then out leaves storage as it was apart from the token
   * and the user, whatever refresh token was stored before.
   */
  method SignInThenOut(store: Store, token: string, user: UserInfo, refreshToken: string)
    returns (app: App)
    modifies store
    ensures app.store == store
    ensures store.items == old(store.items) - {USER_TOKEN, USER_INFO}
    ensures REFRESH_TOKEN in old(store.items) ==> store.items[REFRESH_TOKEN] == old(store.items)[REFRESH_TOKEN]
    ensures app.CurrentScreen() == Auth
  {
    app := new App(store);
    app.SignIn(token, user, refreshToken, NoFault);
    app.SignOut(NoFault);
  }

  /** A fresh start on an empty store shows the auth screens. */
  method FreshStart(store: Store, parsed: Option<UserInfo>, fault: Fault) returns (screen: Screen)
    requires store.items == map[]
    ensures screen == Auth
  {
    var app := new App(store);
    app.Bootstrap(parsed, fault);
    screen := app.CurrentScreen();
  }

  /** Signing in and restarting restores the session: the main tabs show again. */
  method SignInSurvivesRestart(store: Store, token: string, user: UserInfo, refreshToken: string)
    returns (screen: Screen)
    modifies store
    requires token != ""
    ensures screen == Main
  {
    var app := new App(store);
    app.SignIn(token, user, refreshToken, NoFault);
    var restarted := new App(store);
    restarted.Bootstrap(Some(user), NoFault);
    screen := restarted.CurrentScreen();
  }
}
