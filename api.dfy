/**
 * The request pipeline of src/api/instance.ts: the request interceptor that
 * attaches the bearer token, the response interceptor that classifies the
 * `{code, message, data}` envelope, the error interceptor that classifies
 * HTTP failures, and `handleUnauthorized`, which ends the session and sends
 * the user to the login route.
 */
module Api {
  import opened Common
  import opened Constants
  import opened Auth

  const AUTHORIZATION: string := "Authorization"
  const BEARER_PREFIX: string := "Bearer "

  /** Rejection message of a 401 envelope without a message of its own. */
  const MSG_EXPIRED: string := "登录已过期"
  /** Rejection message of any other non-success envelope without a message. */
  const MSG_FAILED: string := "请求失败"

  // ---------------------------------------------------------------- requests

  /** The configuration of an outgoing request; the interceptor edits its headers in place. */
  class RequestConfig {
    var headers: map<string, string>

    constructor (headers0: map<string, string>)
      ensures headers == headers0
    {
      headers := headers0;
    }
  }

  /**
   * The headers a request leaves with: a truthy token is sent as
   * `Bearer <token>`; otherwise any Authorization header is deleted, so no
   * request carries an empty bearer. Every other header is left alone.
   */
  function AuthorizedHeaders(h: map<string, string>, token: Option<string>): (r: map<string, string>)
    ensures AUTHORIZATION in r <==> Truthy(token)
    ensures AUTHORIZATION in r ==> r[AUTHORIZATION] == BEARER_PREFIX + token.value && token.value != ""
    ensures forall k :: k != AUTHORIZATION ==> (k in r <==> k in h)
    ensures forall k :: k != AUTHORIZATION && k in r ==> r[k] == h[k]
  {
    if Truthy(token) then h[AUTHORIZATION := BEARER_PREFIX + token.value]
    else h - {AUTHORIZATION}
  }

  /** The request interceptor: it reads the in-memory token only, never the storage tiers. */
  method InterceptRequest(config: RequestConfig, store: AuthStore)
    modifies config
    ensures config.headers == AuthorizedHeaders(old(config.headers), store.token)
  {
    var token := store.GetToken();
    if Truthy(token) {
      config.headers := config.headers[AUTHORIZATION := BEARER_PREFIX + token.value];
    } else {
      config.headers := config.headers - {AUTHORIZATION};
    }
  }

  // --------------------------------------------------------------- responses

  /**
   * The `data` of a successful HTTP response: an object with a `code` key
   * (its `message`, "" when missing or empty, and the rest of the object);
   * falsy data or an object without a `code` key; or a truthy value that is
   * not an object (a string body such as an HTML page, a number, `true`), on
   * which the `in` test throws.
   */
  datatype ResponseData<T> =
    | Envelope(code: int, message: string, payload: T)
    | WithoutCode(body: T)
    | NonObject(body: T)

  /**
   * What the response interceptor hands to the caller: the resolved data, a
   * rejection with an Error of the given message, or a rejection with the
   * TypeError the interceptor itself threw (its text is the engine's).
   */
  datatype ResponseOutcome<T> = Resolved(value: ResponseData<T>) | Rejected(message: string) | ThrewTypeError

  /** The envelope reports an expired session. */
  predicate ResponseUnauthorized<T>(d: ResponseData<T>) {
    d.Envelope? && d.code == CODE_UNAUTHORIZED
  }

  /**
   * The response interceptor's verdict: code 200 and code-less data resolve
   * with the data itself (the whole envelope, not its `data` field); every
   * other code rejects with the envelope's message or a default, never empty;
   * a truthy non-object fails the `'code' in data` test with a TypeError.
   */
  function ClassifyResponse<T>(d: ResponseData<T>): (r: ResponseOutcome<T>)
    ensures r.Resolved? <==> d.WithoutCode? || (d.Envelope? && d.code == CODE_SUCCESS)
    ensures r.ThrewTypeError? <==> d.NonObject?
    ensures r.Rejected? ==> d.Envelope? && d.code != CODE_SUCCESS
    ensures r.Resolved? ==> r.value == d
    ensures r.Rejected? ==> r.message != ""
    ensures r.Rejected? && d.message != "" ==> r.message == d.message
    ensures r.Rejected? && d.message == "" ==>
      r.message == if d.code == CODE_UNAUTHORIZED then MSG_EXPIRED else MSG_FAILED
  {
    match d
    case WithoutCode(_) => Resolved(d)
    case NonObject(_) => ThrewTypeError
    case Envelope(code, message, _) =>
      if code == CODE_SUCCESS then Resolved(d)
      else if code == CODE_UNAUTHORIZED then Rejected(if message != "" then message else MSG_EXPIRED)
      else Rejected(if message != "" then message else MSG_FAILED)
  }

  // ------------------------------------------------------------------ errors

  /**
   * The `response` of a failed request, reduced to its HTTP status; its
   * `data.message` only feeds a toast.
   */
  datatype ErrorResponse = ErrorResponse(status: int)

  /**
   * An axios error: its `message`, the response if one arrived, and whether
   * the request was sent (`error.request` is set).
   */
  datatype HttpError = HttpError(message: string, response: Option<ErrorResponse>, requestSent: bool)

  /** The branches of the error interceptor. */
  datatype ErrorClass =
    | Unauthorized | Forbidden | NotFound | ServerError | OtherStatus
    | NetworkError | ConfigError

  /**
   * The error interceptor's branch: a response is classified by its status;
   * without one, a sent request is a network error and anything else a
   * configuration error.
   */
  function ClassifyError(e: HttpError): (c: ErrorClass)
    ensures e.response.Some? <==> !(c.NetworkError? || c.ConfigError?)
    ensures c.NetworkError? <==> e.response.None? && e.requestSent
    ensures c.Unauthorized? <==> e.response.Some? && e.response.value.status == CODE_UNAUTHORIZED
    ensures c.Forbidden? <==> e.response.Some? && e.response.value.status == CODE_FORBIDDEN
    ensures c.NotFound? <==> e.response.Some? && e.response.value.status == CODE_NOT_FOUND
    ensures c.ServerError? <==> e.response.Some? && e.response.value.status >= CODE_SERVER_ERROR
    ensures c.OtherStatus? ==> e.response.value.status < CODE_SERVER_ERROR
  {
    match e.response
    case Some(resp) =>
      if resp.status == CODE_UNAUTHORIZED then Unauthorized
      else if resp.status == CODE_FORBIDDEN then Forbidden
      else if resp.status == CODE_NOT_FOUND then NotFound
      else if resp.status >= CODE_SERVER_ERROR then ServerError
      else OtherStatus
    case None =>
      if e.requestSent then NetworkError else ConfigError
  }

  /** The error interceptor runs handleUnauthorized: an HTTP 401 whose message is not the expiry text. */
  predicate ErrorInvalidatesSession(e: HttpError): (b: bool)
    ensures b <==> e.response.Some? && e.response.value.status == CODE_UNAUTHORIZED && e.message != MSG_EXPIRED
  {
    ClassifyError(e).Unauthorized? && e.message != MSG_EXPIRED
  }

  // ------------------------------------------------------ handleUnauthorized

  /**
   * What the router reports while handleUnauthorized runs: the current path
   * (None when reading it throws) and whether `router.replace` succeeds.
   */
  datatype RouterEnv = RouterEnv(currentPath: Option<string>, replaceSucceeds: bool)

  /**
   * The navigation handleUnauthorized issues once the session is cleared:
   * nothing on the login route; otherwise a `replace` to the login route that
   * records the current path as `redirect`, followed by a full page load of
   * the login route when the replace fails or the path cannot be read.
   */
  function UnauthorizedNavigation(env: RouterEnv): (nav: seq<Navigation>)
    ensures nav == [] <==> env.currentPath == Some(AUTH_PATH)
    ensures forall i :: 0 <= i < |nav| ==> nav[i].Target() == AUTH_PATH && !nav[i].Push?
    ensures nav != [] ==> nav[|nav| - 1].Target() == AUTH_PATH
    ensures env.currentPath.Some? && nav != [] ==> nav[0] == Replace(AUTH_PATH, env.currentPath.value)
    ensures nav != [] ==> (nav[|nav| - 1].FullPageLoad? <==> env.currentPath.None? || !env.replaceSucceeds)
    ensures env.currentPath.None? ==> nav == [FullPageLoad(AUTH_PATH)]
    ensures env.currentPath.Some? && nav != [] ==> |nav| == if env.replaceSucceeds then 1 else 2
  {
    match env.currentPath
    case None => [FullPageLoad(AUTH_PATH)]
    case Some(path) =>
      if path == AUTH_PATH then []
      else if env.replaceSucceeds then [Replace(AUTH_PATH, path)]
      else [Replace(AUTH_PATH, path), FullPageLoad(AUTH_PATH)]
  }

  /** `handleUnauthorized`: clear the session first, then navigate (the timer delay becomes sequencing). */
  method HandleUnauthorized(store: AuthStore, env: RouterEnv) returns (nav: seq<Navigation>)
    modifies store
    ensures store.token == None && store.userInfo == None && !store.isLoggedIn
    ensures store.local == WithoutAuth(old(store.local)) && store.session == WithoutAuth(old(store.session))
    ensures nav == UnauthorizedNavigation(env)
  {
    store.ClearAuth();
    match env.currentPath {
      case None =>
        nav := [FullPageLoad(AUTH_PATH)];
      case Some(currentPath) =>
        if currentPath != AUTH_PATH {
          nav := [Replace(AUTH_PATH, currentPath)];
          if !env.replaceSucceeds {
            nav := nav + [FullPageLoad(AUTH_PATH)];
          }
        } else {
          nav := [];
        }
    }
  }

  /** The response interceptor: only a 401 envelope touches the session. */
  method InterceptResponse<T>(store: AuthStore, d: ResponseData<T>, env: RouterEnv)
    returns (outcome: ResponseOutcome<T>, nav: seq<Navigation>)
    modifies store
    ensures outcome == ClassifyResponse(d)
    ensures ResponseUnauthorized(d) ==>
      && store.token == None && store.userInfo == None && !store.isLoggedIn
      && store.local == WithoutAuth(old(store.local)) && store.session == WithoutAuth(old(store.session))
      && nav == UnauthorizedNavigation(env)
    ensures !ResponseUnauthorized(d) ==> unchanged(store) && nav == []
  {
    nav := [];
    match d {
      case WithoutCode(_) =>
        outcome := Resolved(d);
      case NonObject(_) =>
        outcome := ThrewTypeError;
      case Envelope(code, message, _) =>
        if code == CODE_SUCCESS {
          outcome := Resolved(d);
        } else if code == CODE_UNAUTHORIZED {
          nav := HandleUnauthorized(store, env);
          outcome := Rejected(if message != "" then message else MSG_EXPIRED);
        } else {
          outcome := Rejected(if message != "" then message else MSG_FAILED);
        }
    }
  }

  /**
   * The error interceptor: every branch rejects with the original error; only
   * an HTTP 401 (not already marked expired) ends the session.
   */
  method InterceptError(store: AuthStore, e: HttpError, env: RouterEnv)
    returns (rejected: HttpError, kind: ErrorClass, nav: seq<Navigation>)
    modifies store
    ensures rejected == e && kind == ClassifyError(e)
    ensures ErrorInvalidatesSession(e) ==>
      && store.token == None && store.userInfo == None && !store.isLoggedIn
      && store.local == WithoutAuth(old(store.local)) && store.session == WithoutAuth(old(store.session))
      && nav == UnauthorizedNavigation(env)
    ensures !ErrorInvalidatesSession(e) ==> unchanged(store) && nav == []
  {
    nav := [];
    kind := ClassifyError(e);
    if kind.Unauthorized? && e.message != MSG_EXPIRED {
      nav := HandleUnauthorized(store, env);
    }
    rejected := e;
  }
}
