/**
 * The session store of src/utils/auth.ts: the in-memory token, user profile
 * and logged-in flag, and the two storage tiers (`localStorage`, durable, and
 * `sessionStorage`, ephemeral) they are persisted in.
 */
module Auth {
  import opened Common
  import opened Constants
  import opened Types

  /** A storage tier: `localStorage` or `sessionStorage` as a key/value map. */
  type Storage = map<string, string>

  /** `storage.getItem(key)`: the stored string, or null. */
  function GetItem(m: Storage, key: string): Option<string> {
    if key in m then Some(m[key]) else None
  }

  /** `storage.setItem(key, value)`. */
  function SetItem(m: Storage, key: string, value: string): Storage {
    m[key := value]
  }

  /** `storage.removeItem(key)`. */
  function RemoveItem(m: Storage, key: string): Storage {
    m - {key}
  }

  /** A storage tier once the session's three keys are removed from it. */
  function WithoutAuth(m: Storage): (r: Storage)
    ensures forall k :: k in r <==> k in m && k !in AUTH_KEYS
    ensures forall k :: k in r ==> r[k] == m[k]
  {
    m - AUTH_KEYS
  }

  /** Removing the session's keys twice removes nothing more. */
  lemma WithoutAuthIdempotent(m: Storage)
    ensures WithoutAuth(WithoutAuth(m)) == WithoutAuth(m)
  {
  }

  /** clearAuth's three removeItem calls on one tier remove exactly the session's keys. */
  lemma RemoveAuthItems(m: Storage)
    ensures RemoveItem(RemoveItem(RemoveItem(m, TOKEN_KEY), USER_INFO_KEY), IS_LOGGED_IN_KEY) == WithoutAuth(m)
  {
    var r := RemoveItem(RemoveItem(RemoveItem(m, TOKEN_KEY), USER_INFO_KEY), IS_LOGGED_IN_KEY);
    assert r.Keys == m.Keys - AUTH_KEYS;
  }

  /** A storage tier after a login chose it: cleared, then the three keys written. */
  function WithLogin(m: Storage, token: string, userJson: string): (r: Storage)
    ensures r.Keys == WithoutAuth(m).Keys + AUTH_KEYS
    ensures r[TOKEN_KEY] == token && r[USER_INFO_KEY] == userJson && r[IS_LOGGED_IN_KEY] == TRUE_TEXT
    ensures forall k :: k in m && k !in AUTH_KEYS ==> r[k] == m[k]
  {
    SetItem(SetItem(SetItem(WithoutAuth(m), TOKEN_KEY, token), USER_INFO_KEY, userJson), IS_LOGGED_IN_KEY, TRUE_TEXT)
  }

  /** Clearing a tier that a login wrote gives back what the tier held apart from the session. */
  lemma ClearUndoesLogin(m: Storage, token: string, userJson: string)
    ensures WithoutAuth(WithLogin(m, token, userJson)) == WithoutAuth(m)
  {
  }

  /**
   * `local.getItem(key) || session.getItem(key)` when the result is truthy:
   * the durable tier wins, an empty string counts as absent.
   */
  function StoredValue(local: Storage, session: Storage, key: string): (r: Option<string>)
    ensures r.Some? ==> r.value != ""
    ensures Truthy(GetItem(local, key)) ==> r == GetItem(local, key)
    ensures !Truthy(GetItem(local, key)) && Truthy(GetItem(session, key)) ==> r == GetItem(session, key)
    ensures !Truthy(GetItem(local, key)) && !Truthy(GetItem(session, key)) ==> r == None
  {
    var v := OrElse(GetItem(local, key), GetItem(session, key));
    if Truthy(v) then v else None
  }

  /** Either tier holds the logged-in flag with the text 'true'. */
  predicate FlagStored(local: Storage, session: Storage): (b: bool)
    ensures b <==> (IS_LOGGED_IN_KEY in local && local[IS_LOGGED_IN_KEY] == TRUE_TEXT)
                   || (IS_LOGGED_IN_KEY in session && session[IS_LOGGED_IN_KEY] == TRUE_TEXT)
  {
    GetItem(local, IS_LOGGED_IN_KEY) == Some(TRUE_TEXT) || GetItem(session, IS_LOGGED_IN_KEY) == Some(TRUE_TEXT)
  }

  /** The token lives only in the ephemeral tier, so a repaired flag goes there. */
  predicate PreferSession(local: Storage, session: Storage): (b: bool)
    ensures b <==> (TOKEN_KEY !in local || local[TOKEN_KEY] == "") && TOKEN_KEY in session && session[TOKEN_KEY] != ""
    ensures b ==> StoredValue(local, session, TOKEN_KEY) == GetItem(session, TOKEN_KEY)
  {
    !Truthy(GetItem(local, TOKEN_KEY)) && Truthy(GetItem(session, TOKEN_KEY))
  }

  /**
   * The module-level session state of src/utils/auth.ts. The JSON codec for the
   * user profile is supplied by the environment: `stringify` is JSON.stringify,
   * `parse` is JSON.parse with None standing for a parse that throws.
   */
  class AuthStore {
    var token: Option<string>
    var userInfo: Option<UserInfo>
    var isLoggedIn: bool
    var local: Storage
    var session: Storage
    const stringify: UserInfo -> string
    const parse: string -> Option<UserInfo>

    /** The state at page load: nothing in memory, the tiers as the browser kept them. */
    constructor (local0: Storage, session0: Storage, stringify: UserInfo -> string, parse: string -> Option<UserInfo>)
      ensures token == None && userInfo == None && !isLoggedIn
      ensures local == local0 && session == session0
      ensures this.stringify == stringify && this.parse == parse
    {
      token, userInfo, isLoggedIn := None, None, false;
      local, session := local0, session0;
      this.stringify, this.parse := stringify, parse;
    }

    /** `getToken()`: the in-memory token; it reads no storage. */
    function GetToken(): (r: Option<string>)
      reads this
      ensures r == token
    {
      token
    }

    /** `getUserInfo()`: the in-memory profile; it reads no storage. */
    function GetUserInfo(): (r: Option<UserInfo>)
      reads this
      ensures r == userInfo
    {
      userInfo
    }

    /** `checkIsLoggedIn()`: the flag alone is not enough, a non-empty token must back it. */
    function CheckIsLoggedIn(): (r: bool)
      reads this
      ensures r ==> isLoggedIn && token.Some? && token.value != ""
      ensures !r ==> !isLoggedIn || token.None? || token.value == ""
    {
      isLoggedIn && Truthy(token)
    }

    /**
     * `initializeAuth()`: load the token and profile (durable tier first) and
     * reconcile the flag so that it is set exactly when a token is present,
     * repairing the stored flag in the same direction.
     */
    method InitializeAuth()
      modifies this
      ensures var stored := StoredValue(old(local), old(session), TOKEN_KEY);
        token == if stored.Some? then stored else old(token)
      ensures var stored := StoredValue(old(local), old(session), USER_INFO_KEY);
        userInfo == if stored.Some? && parse(stored.value).Some? then parse(stored.value) else old(userInfo)
      ensures isLoggedIn <==> Truthy(token)
      ensures CheckIsLoggedIn() <==> Truthy(token)
      ensures Truthy(token) && !FlagStored(old(local), old(session)) ==>
        if PreferSession(old(local), old(session))
        then session == old(session)[IS_LOGGED_IN_KEY := TRUE_TEXT] && local == old(local)
        else local == old(local)[IS_LOGGED_IN_KEY := TRUE_TEXT] && session == old(session)
      ensures !Truthy(token) && FlagStored(old(local), old(session)) ==>
        local == old(local) - {IS_LOGGED_IN_KEY} && session == old(session) - {IS_LOGGED_IN_KEY}
      ensures Truthy(token) == FlagStored(old(local), old(session)) ==>
        local == old(local) && session == old(session)
    {
      var storedToken := OrElse(GetItem(local, TOKEN_KEY), GetItem(session, TOKEN_KEY));
      if Truthy(storedToken) {
        token := storedToken;
      }

      var storedUserInfo := OrElse(GetItem(local, USER_INFO_KEY), GetItem(session, USER_INFO_KEY));
      if Truthy(storedUserInfo) {
        var parsed := parse(storedUserInfo.value);
        if parsed.Some? {
          userInfo := parsed;
        }
      }

      var loggedInStorage := GetItem(local, IS_LOGGED_IN_KEY) == Some(TRUE_TEXT);
      var loggedInSession := GetItem(session, IS_LOGGED_IN_KEY) == Some(TRUE_TEXT);
      isLoggedIn := loggedInStorage || loggedInSession;

      if Truthy(token) && !isLoggedIn {
        isLoggedIn := true;
        var preferSession := !Truthy(GetItem(local, TOKEN_KEY)) && Truthy(GetItem(session, TOKEN_KEY));
        if preferSession {
          session := SetItem(session, IS_LOGGED_IN_KEY, TRUE_TEXT);
        } else {
          local := SetItem(local, IS_LOGGED_IN_KEY, TRUE_TEXT);
        }
      } else if !Truthy(token) && isLoggedIn {
        isLoggedIn := false;
        local := RemoveItem(local, IS_LOGGED_IN_KEY);
        session := RemoveItem(session, IS_LOGGED_IN_KEY);
      }
    }

    /**
     * `setAuth(token, user, rememberMe)`: clear both tiers, take the new
     * credential into memory and write it to exactly one tier, the durable one
     * iff `rememberMe`.
     */
    method SetAuth(newToken: string, newUserInfo: UserInfo, rememberMe: bool := false)
      modifies this
      ensures token == Some(newToken) && userInfo == Some(newUserInfo) && isLoggedIn
      ensures CheckIsLoggedIn() <==> newToken != ""
      ensures rememberMe ==>
        local == WithLogin(old(local), newToken, stringify(newUserInfo)) && session == WithoutAuth(old(session))
      ensures !rememberMe ==>
        session == WithLogin(old(session), newToken, stringify(newUserInfo)) && local == WithoutAuth(old(local))
      ensures var chosen := if rememberMe then local else session;
        GetItem(chosen, TOKEN_KEY) == Some(newToken) && GetItem(chosen, IS_LOGGED_IN_KEY) == Some(TRUE_TEXT)
      ensures var other := if rememberMe then session else local;
        TOKEN_KEY !in other && USER_INFO_KEY !in other && IS_LOGGED_IN_KEY !in other
    {
      ClearAuth();

      token := Some(newToken);
      userInfo := Some(newUserInfo);
      isLoggedIn := true;

      var userJson := stringify(newUserInfo);
      if rememberMe {
        local := SetItem(local, TOKEN_KEY, newToken);
        local := SetItem(local, USER_INFO_KEY, userJson);
        local := SetItem(local, IS_LOGGED_IN_KEY, TRUE_TEXT);
      } else {
        session := SetItem(session, TOKEN_KEY, newToken);
        session := SetItem(session, USER_INFO_KEY, userJson);
        session := SetItem(session, IS_LOGGED_IN_KEY, TRUE_TEXT);
      }
    }

    /** `clearAuth()`: forget the session in memory and in both tiers; other keys stay. */
    method ClearAuth()
      modifies this
      ensures token == None && userInfo == None && !isLoggedIn
      ensures local == WithoutAuth(old(local)) && session == WithoutAuth(old(session))
    {
      token := None;
      userInfo := None;
      isLoggedIn := false;
      RemoveAuthItems(local);
      RemoveAuthItems(session);

      local := RemoveItem(local, TOKEN_KEY);
      session := RemoveItem(session, TOKEN_KEY);
      local := RemoveItem(local, USER_INFO_KEY);
      session := RemoveItem(session, USER_INFO_KEY);
      local := RemoveItem(local, IS_LOGGED_IN_KEY);
      session := RemoveItem(session, IS_LOGGED_IN_KEY);
    }
  }

  /** A second clearAuth changes nothing. */
  method ClearTwice(store: AuthStore)
    modifies store
    ensures store.token == None && !store.isLoggedIn
    ensures store.local == WithoutAuth(old(store.local)) && store.session == WithoutAuth(old(store.session))
  {
    store.ClearAuth();
    ghost var once := (store.local, store.session);
    store.ClearAuth();
    WithoutAuthIdempotent(once.0);
    WithoutAuthIdempotent(once.1);
  }

  /**
   * A remembered login followed by a session-only login: afterwards the
   * durable tier holds no credential and the ephemeral tier holds the new one.
   */
  method ReloginMovesTier(store: AuthStore, t1: string, u1: UserInfo, t2: string, u2: UserInfo)
    modifies store
    ensures TOKEN_KEY !in store.local && IS_LOGGED_IN_KEY !in store.local
    ensures GetItem(store.session, TOKEN_KEY) == Some(t2)
    ensures store.CheckIsLoggedIn() <==> t2 != ""
  {
    store.SetAuth(t1, u1, true);
    store.SetAuth(t2, u2, false);
  }
}
