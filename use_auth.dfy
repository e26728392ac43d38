/**
 * The login/logout/guard hook of src/hooks/useAuth.ts. The `login()` and
 * `logout()` calls are I/O; the model receives what they returned or that
 * they threw.
 */
module UseAuth {
  import opened Common
  import opened Constants
  import opened Types
  import opened Auth

  /**
   * The `data` field of a login reply: missing or falsy, a truthy value that
   * is not an object, or an object with optional `token` and `user` keys.
   */
  datatype LoginData = NoData | ScalarData | DataObject(token: Option<string>, user: Option<UserInfo>)

  /**
   * The value `login()` resolved with: not an object (or falsy), or an object
   * with its optional `code`, top-level `token` and `user`, and `data`. A key
   * holding a falsy value is Some(""); a falsy `user` is None.
   */
  datatype LoginReply =
    | NotAnObject
    | ReplyObject(code: Option<int>, token: Option<string>, user: Option<UserInfo>, data: LoginData)

  /** The outcome of awaiting `login()`. */
  datatype LoginCall = Threw | Returned(reply: LoginReply)

  /** What handleLogin's shape parsing leaves in its locals `token`/`userData` when `success` is set. */
  datatype ParsedLogin = Matched(token: string, user: Option<UserInfo>) | Unmatched

  /** A credential accepted by handleLogin. */
  datatype Credentials = Credentials(token: string, user: UserInfo)

  /**
   * handleLogin's three response shapes, tried in order: an envelope with
   * code 200 and a truthy `data` (`data.token`, defaulting to ""); an object
   * with a top-level `token` key; an object whose `data` object has a
   * `token` key.
   */
  function ParseLoginReply(r: LoginReply): (p: ParsedLogin)
    ensures r.NotAnObject? ==> p.Unmatched?
    ensures r.ReplyObject? && r.code == Some(CODE_SUCCESS) && !r.data.NoData? ==>
      p.Matched? && p.token == (if r.data.DataObject? then r.data.token.GetOr("") else "")
      && p.user == (if r.data.DataObject? then r.data.user else None)
    ensures r.ReplyObject? && !(r.code == Some(CODE_SUCCESS) && !r.data.NoData?) && r.token.Some? ==>
      p == Matched(r.token.value, r.user)
    ensures r.ReplyObject? && !(r.code == Some(CODE_SUCCESS) && !r.data.NoData?) && r.token.None?
            && r.data.DataObject? && r.data.token.Some? ==>
      p == Matched(r.data.token.value, r.data.user)
    ensures p.Matched? && p.token != "" ==>
      r.ReplyObject? && ((r.token.Some? && p.token == r.token.value)
                         || (r.data.DataObject? && r.data.token == Some(p.token)))
    ensures p.Unmatched? <==>
      (r.NotAnObject? ||
       (!(r.code == Some(CODE_SUCCESS) && !r.data.NoData?) && r.token.None?
        && !(r.data.DataObject? && r.data.token.Some?)))
  {
    match r
    case NotAnObject => Unmatched
    case ReplyObject(code, token, user, data) =>
      if code == Some(CODE_SUCCESS) && !data.NoData? then
        match data
        case DataObject(dataToken, dataUser) => Matched(dataToken.GetOr(""), dataUser)
        case _ => Matched("", None)
      else if token.Some? then Matched(token.value, user)
      else if data.DataObject? && data.token.Some? then Matched(data.token.value, data.user)
      else Unmatched
  }

  /** The envelope shape takes precedence: with code 200 and a data object, top-level fields are ignored. */
  lemma EnvelopeShapeWins(code: Option<int>, t1: Option<string>, u1: Option<UserInfo>,
                          t2: Option<string>, u2: Option<UserInfo>, data: LoginData)
    requires code == Some(CODE_SUCCESS) && data.DataObject?
    ensures ParseLoginReply(ReplyObject(code, t1, u1, data)) == ParseLoginReply(ReplyObject(code, t2, u2, data))
  {
  }

  /** Without the envelope shape, a top-level token beats a nested one, whatever `data` holds. */
  lemma TopLevelTokenWins(code: Option<int>, t: string, u: Option<UserInfo>, d1: LoginData, d2: LoginData)
    requires code != Some(CODE_SUCCESS)
    ensures ParseLoginReply(ReplyObject(code, Some(t), u, d1)) == Matched(t, u)
    ensures ParseLoginReply(ReplyObject(code, Some(t), u, d1)) == ParseLoginReply(ReplyObject(code, Some(t), u, d2))
  {
  }

  /**
   * The credential handleLogin accepts: a shape matched, its token is
   * non-empty and its user is present. A thrown call or a non-object reply
   * gives none.
   */
  function LoginCredentials(call: LoginCall): (c: Option<Credentials>)
    ensures c.Some? ==> c.value.token != ""
    ensures c.Some? <==>
      (call.Returned? && ParseLoginReply(call.reply).Matched?
       && ParseLoginReply(call.reply).token != "" && ParseLoginReply(call.reply).user.Some?)
    ensures c.Some? ==> ParseLoginReply(call.reply) == Matched(c.value.token, Some(c.value.user))
  {
    match call
    case Threw => None
    case Returned(reply) =>
      match ParseLoginReply(reply)
      case Unmatched => None
      case Matched(token, user) =>
        if token != "" && user.Some? then Some(Credentials(token, user.value)) else None
  }

  /** The hook's state: the shared session store and the `loading` ref. */
  class AuthHook {
    const store: AuthStore
    var loading: bool

    constructor (store: AuthStore)
      ensures this.store == store && !loading
    {
      this.store := store;
      loading := false;
    }

    /**
     * `handleLogin(loginData, rememberMe = false)`: on an accepted credential
     * call setAuth and navigate to the dashboard (never to a saved return
     * path); on every failure clear the session. `loading` ends false.
     */
    method HandleLogin(call: LoginCall, rememberMe: bool := false) returns (ok: bool, nav: seq<Navigation>)
      modifies this, store
      ensures !loading
      ensures ok <==> LoginCredentials(call).Some?
      ensures ok ==>
        var c := LoginCredentials(call).value;
        && store.token == Some(c.token) && store.userInfo == Some(c.user) && store.CheckIsLoggedIn()
        && (rememberMe ==> store.local == WithLogin(old(store.local), c.token, store.stringify(c.user))
                           && store.session == WithoutAuth(old(store.session)))
        && (!rememberMe ==> store.session == WithLogin(old(store.session), c.token, store.stringify(c.user))
                            && store.local == WithoutAuth(old(store.local)))
      ensures !ok ==>
        && store.token == None && store.userInfo == None && !store.isLoggedIn
        && store.local == WithoutAuth(old(store.local)) && store.session == WithoutAuth(old(store.session))
      ensures nav == if ok then [Push(DASHBOARD_PATH)] else []
    {
      loading := true;
      nav := [];
      match call {
        case Threw =>
          store.ClearAuth();
          ok := false;
        case Returned(reply) =>
          if reply.NotAnObject? {
            store.ClearAuth();
            ok := false;
          } else {
            var parsed := ParseLoginReply(reply);
            if parsed.Matched? && parsed.token != "" && parsed.user.Some? {
              store.SetAuth(parsed.token, parsed.user.value, rememberMe);
              nav := [Push(DASHBOARD_PATH)];
              ok := true;
            } else {
              store.ClearAuth();
              ok := false;
            }
          }
      }
      loading := false;
    }

    /**
     * `handleLogout()`: whether or not the server call throws, clear the
     * session and push the login route; report whether the call succeeded.
     */
    method HandleLogout(logoutThrew: bool) returns (ok: bool, nav: seq<Navigation>)
      modifies store
      ensures ok == !logoutThrew
      ensures store.token == None && store.userInfo == None && !store.isLoggedIn
      ensures store.local == WithoutAuth(old(store.local)) && store.session == WithoutAuth(old(store.session))
      ensures nav == [Push(AUTH_PATH)]
    {
      if !logoutThrew {
        store.ClearAuth();
        nav := [Push(AUTH_PATH)];
        ok := true;
      } else {
        store.ClearAuth();
        nav := [Push(AUTH_PATH)];
        ok := false;
      }
    }

    /**
     * `checkAuthAndRedirect(requireAuth = true)`: an unauthenticated visit to
     * a protected page goes to the login route, an authenticated visit to the
     * login route goes to the dashboard, anything else is allowed in place.
     */
    method CheckAuthAndRedirect(currentPath: string, requireAuth: bool := true)
      returns (allowed: bool, nav: seq<Navigation>)
      ensures allowed <==> (store.CheckIsLoggedIn() || !requireAuth)
                           && !(store.CheckIsLoggedIn() && currentPath == AUTH_PATH)
      ensures allowed ==> nav == []
      ensures !allowed ==> nav == [Push(if store.CheckIsLoggedIn() then DASHBOARD_PATH else AUTH_PATH)]
    {
      var authenticated := store.CheckIsLoggedIn();
      if requireAuth && !authenticated {
        return false, [Push(AUTH_PATH)];
      }
      if authenticated && currentPath == AUTH_PATH {
        return false, [Push(DASHBOARD_PATH)];
      }
      return true, [];
    }
  }
}
