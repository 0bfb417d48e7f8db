/**
 * The shared HTTP client's two interceptors: the request interceptor that
 * attaches the stored token, and the response interceptor that answers a
 * first 401 with one token refresh and one retry, and clears the stored
 * session when the refresh cannot be made. Server replies are inputs.
 */
module Api {
  import opened Wrappers
  import opened Storage

  /** A failed HTTP exchange: a status from the server, or no response at all. */
  datatype Failure = HttpError(status: int) | NoResponse

  /** The server's answer to one request. */
  datatype Reply = Ok(data: string) | Error(failure: Failure)

  /** The answer to `POST /api/auth/refresh-token`. */
  datatype RefreshReply = Refreshed(token: string, refreshToken: string) | RefreshFailed

  /** Why a call is rejected: the reply's own error, a missing refresh token, or a failed refresh. */
  datatype Rejection = ReplyError(failure: Failure) | NoRefreshToken | RefreshError

  datatype CallResult = Resolved(data: string) | Rejected(reason: Rejection)

  /** What the response interceptor does with an error: reject, or reissue the request. */
  datatype Next = Reject(reason: Rejection) | Retry

  /** A request as it goes out: its path and its `Authorization` header. */
  datatype Sent = Sent(path: string, authorization: Option<string>)

  function Bearer(token: string): string {
    "Bearer " + token
  }

  /**
   * The header after the request interceptor: the stored token as a
   * bearer header when one is stored and non-empty, otherwise unchanged.
   */
  function AuthorizationFor(stored: Option<string>, current: Option<string>): (r: Option<string>)
    ensures HasText(stored) ==> r == Some(Bearer(stored.value))
    ensures !HasText(stored) ==> r == current
  {
    if HasText(stored) then Some(Bearer(stored.value)) else current
  }

  /** A 401 on a request not yet marked `_retry`: the one case that attempts a refresh. */
  predicate FirstUnauthorized(failure: Failure, retry: bool) {
    failure == HttpError(401) && !retry
  }

  /** A first 401 with a refresh token stored: the case that posts a refresh. */
  predicate AttemptsRefresh(failure: Failure, retry: bool, storedRefreshToken: Option<string>) {
    FirstUnauthorized(failure, retry) && HasText(storedRefreshToken)
  }

  /** The request's `config`, which both interceptors change in place. */
  class RequestConfig {
    const path: string
    var authorization: Option<string>
    var retry: bool

    constructor(path: string, authorization: Option<string>)
      ensures this.path == path && this.authorization == authorization && !retry
    {
      this.path := path;
      this.authorization := authorization;
      retry := false;
    }
  }

  /** The request interceptor. Storage is only read. */
  method AttachToken(config: RequestConfig, store: Store)
    modifies config`authorization
    ensures config.authorization == AuthorizationFor(store.GetItem(USER_TOKEN), old(config.authorization))
  {
    var token := store.GetItem(USER_TOKEN);
    if HasText(token) {
      config.authorization := Some(Bearer(token.value));
    }
  }

  /**
   * The response interceptor's error handler. A 401 on a request not yet
   * marked is marked first; then, with a stored refresh token, one refresh
   * is posted (`posted`), and its new tokens are stored and put in the
   * header for a retry. Without a refresh token, or when the refresh fails,
   * the three session keys are removed and the call is rejected. Any other
   * error, or a second 401, is rejected as it is, with storage untouched.
   */
  method OnError(config: RequestConfig, store: Store, failure: Failure, refresh: RefreshReply)
    returns (next: Next, posted: Option<string>)
    modifies config`retry, config`authorization, store
    ensures config.retry == (old(config.retry) || FirstUnauthorized(failure, old(config.retry)))
    ensures !FirstUnauthorized(failure, old(config.retry)) ==>
      next == Reject(ReplyError(failure)) && posted == None
      && store.items == old(store.items) && config.authorization == old(config.authorization)
    ensures FirstUnauthorized(failure, old(config.retry)) && !HasText(old(store.GetItem(REFRESH_TOKEN))) ==>
      next == Reject(NoRefreshToken) && posted == None
      && store.items == old(store.items) - SessionKeys && config.authorization == old(config.authorization)
    ensures AttemptsRefresh(failure, old(config.retry), old(store.GetItem(REFRESH_TOKEN))) ==>
      posted == Some(old(store.items)[REFRESH_TOKEN])
    ensures AttemptsRefresh(failure, old(config.retry), old(store.GetItem(REFRESH_TOKEN))) && refresh.RefreshFailed? ==>
      next == Reject(RefreshError)
      && store.items == old(store.items) - SessionKeys && config.authorization == old(config.authorization)
    ensures AttemptsRefresh(failure, old(config.retry), old(store.GetItem(REFRESH_TOKEN))) && refresh.Refreshed? ==>
      next == Retry
      && store.items == old(store.items)[USER_TOKEN := refresh.token][REFRESH_TOKEN := refresh.refreshToken]
      && config.authorization == Some(Bearer(refresh.token))
  {
    posted := None;
    if FirstUnauthorized(failure, config.retry) {
      config.retry := true;
      var refreshToken := store.GetItem(REFRESH_TOKEN);
      if !HasText(refreshToken) {
        ClearSession(store);
        next := Reject(NoRefreshToken);
      } else {
        posted := refreshToken;
        match refresh
        case RefreshFailed =>
          ClearSession(store);
          next := Reject(RefreshError);
        case Refreshed(token, newRefreshToken) =>
          store.SetItem(USER_TOKEN, token);
          store.SetItem(REFRESH_TOKEN, newRefreshToken);
          config.authorization := Some(Bearer(token));
          next := Retry;
      }
    } else {
      next := Reject(ReplyError(failure));
    }
  }

  /** The `catch` of the refresh: remove the token, the refresh token and the user. */
  method ClearSession(store: Store)
    modifies store
    ensures store.items == old(store.items) - SessionKeys
  {
    store.RemoveItem(USER_TOKEN);
    store.RemoveItem(REFRESH_TOKEN);
    store.RemoveItem(USER_INFO);
  }

  /**
   * One call `api(config)` through both interceptors, with the server's
   * replies to the request (`first`), to a refresh, and to the retry
   * (`second`) as inputs. At most one refresh is posted and at most two
   * requests go out; the retry carries the new token. A retried request's
   * own failure is returned as it is: it is not caught by the refresh's
   * `catch`, because the interceptor returns the retry's promise without
   * awaiting it.
   */
  method Call(config: RequestConfig, store: Store, first: Reply, refresh: RefreshReply, second: Reply)
    returns (result: CallResult, sent: seq<Sent>, refreshes: seq<string>)
    modifies config`retry, config`authorization, store
    ensures 1 <= |sent| <= 2 && |refreshes| <= 1
    ensures sent[0] == Sent(config.path, AuthorizationFor(old(store.GetItem(USER_TOKEN)), old(config.authorization)))
    ensures var refreshing := first.Error? && AttemptsRefresh(first.failure, old(config.retry), old(store.GetItem(REFRESH_TOKEN)));
      && (|refreshes| == 1 <==> refreshing)
      && (refreshing ==> refreshes[0] == old(store.items)[REFRESH_TOKEN])
      && (|sent| == 2 <==> refreshing && refresh.Refreshed?)
    ensures config.retry == (old(config.retry) || (first.Error? && first.failure == HttpError(401)))
    ensures first.Ok? ==> result == Resolved(first.data) && store.items == old(store.items)
    ensures first.Error? && !FirstUnauthorized(first.failure, old(config.retry)) ==>
      result == Rejected(ReplyError(first.failure)) && store.items == old(store.items)
    ensures first.Error? && FirstUnauthorized(first.failure, old(config.retry)) && !HasText(old(store.GetItem(REFRESH_TOKEN))) ==>
      result == Rejected(NoRefreshToken) && store.items == old(store.items) - SessionKeys
    ensures |refreshes| == 1 && refresh.RefreshFailed? ==>
      result == Rejected(RefreshError) && store.items == old(store.items) - SessionKeys
    ensures |sent| == 2 ==>
      store.items == old(store.items)[USER_TOKEN := refresh.token][REFRESH_TOKEN := refresh.refreshToken]
      && sent[1] == Sent(config.path, Some(Bearer(refresh.token)))
      && result == (if second.Ok? then Resolved(second.data) else Rejected(ReplyError(second.failure)))
  {
    AttachToken(config, store);
    sent := [Sent(config.path, config.authorization)];
    refreshes := [];
    match first
    case Ok(data) =>
      result := Resolved(data);
    case Error(failure) =>
      var next, posted := OnError(config, store, failure, refresh);
      if posted.Some? {
        refreshes := [posted.value];
      }
      match next
      case Reject(reason) =>
        result := Rejected(reason);
      case Retry =>
        AttachToken(config, store);
        sent := sent + [Sent(config.path, config.authorization)];
        match second
        case Ok(data) =>
          result := Resolved(data);
        case Error(failure2) =>
          // the request is marked now, so the handler rejects it unchanged
          var next2, posted2 := OnError(config, store, failure2, refresh);
          result := Rejected(next2.reason);
  }
}
