/**
 * The storage writes of the `login` service call, and the replies the two
 * auth screens receive. The HTTP calls themselves are abstract: a reply is
 * an input.
 */
module AuthService {
  import opened Wrappers
  import opened Records
  import opened Storage

  /** The body of a login reply: the user, and the tokens the server may omit. */
  datatype LoginData = LoginData(user: UserInfo, token: Option<string>, refreshToken: Option<string>)

  /**
   * What `await login(email, password)` gives the screen: the data, or a
   * thrown error with the server's `message` (if any) and the error's own.
   */
  datatype LoginReply = Replied(data: LoginData) | Failed(serverMessage: Option<string>, errorMessage: string)

  /** What `await forgotPassword(email)` gives: success, or an error with the server's message. */
  datatype ResetReply = ResetSent | ResetFailed(serverMessage: Option<string>)

  /** The keys `login` writes for a reply: the user, and each token present. */
  function WrittenKeys(data: LoginData): set<string> {
    {USER_INFO}
    + (if HasText(data.token) then {USER_TOKEN} else {})
    + (if HasText(data.refreshToken) then {REFRESH_TOKEN} else {})
  }

  /**
   * The writes `login` makes once the server answers, before it returns to
   * the screen: each token that is present and non-empty, and the user.
   */
  method StoreLoginData(store: Store, data: LoginData)
    modifies store
    ensures store.items.Keys == old(store.items).Keys + WrittenKeys(data)
    ensures store.items[USER_INFO] == UserInfoJson(data.user)
    ensures HasText(data.token) ==> store.items[USER_TOKEN] == data.token.value
    ensures HasText(data.refreshToken) ==> store.items[REFRESH_TOKEN] == data.refreshToken.value
    ensures forall k :: k in old(store.items) && k !in WrittenKeys(data) ==> store.items[k] == old(store.items)[k]
  {
    if HasText(data.token) {
      store.SetItem(USER_TOKEN, data.token.value);
    }
    if HasText(data.refreshToken) {
      store.SetItem(REFRESH_TOKEN, data.refreshToken.value);
    }
    store.SetItem(USER_INFO, UserInfoJson(data.user));
  }
}
