/** frontend/src/shared/lib/authStorage.ts: the same three stores as
    auth-utils.ts under the `APP_CONFIG` keys, read in the order cookie,
    `localStorage`, `sessionStorage`.  Every function here touches
    `localStorage` unguarded, so without a window the first access throws,
    the error is caught, and nothing changes. */
module AuthStorage {
  import opened Wrappers
  import opened Browser
  import AuthUtils

  const AuthorizationHeader := "Authorization"
  const BearerPrefix := "Bearer "

  /** `setAuthInAllStorages(token)`: the same three writes, with the same
      cookie options, as auth-utils.ts's `setAuthToken`. */
  method SetAuthInAllStorages(b: Browser, cfg: AppConfig, token: string)
    modifies b
    ensures b.State() == if b.hasWindow then AuthUtils.WithToken(old(b.State()), cfg, token, b.https) else old(b.State())
  {
    if !b.hasWindow {
      return;
    }
    b.SetLocal(cfg.tokenKey, token);
    b.SetCookie(cfg.tokenKey, AuthUtils.SessionCookie(token, b.https));
    b.SetSession(cfg.tokenKey, token);
  }

  /** What `clearAuthFromAllStorages` leaves: neither key in any store, and
      no raw cookie lines. */
  function Cleared(st: Stores, cfg: AppConfig): (r: Stores)
    ensures forall k :: k in {cfg.tokenKey, cfg.userStorageKey} ==>
      k !in r.cookies && k !in r.local && k !in r.session
    ensures forall k :: k !in {cfg.tokenKey, cfg.userStorageKey} ==>
      CookieValue(r.cookies, k) == CookieValue(st.cookies, k) && Item(r.local, k) == Item(st.local, k)
      && Item(r.session, k) == Item(st.session, k)
    ensures r.cookieWrites == st.cookieWrites
  {
    var keys := {cfg.tokenKey, cfg.userStorageKey};
    st.(cookies := st.cookies - keys, local := st.local - keys, session := st.session - keys)
  }

  method ClearAuthFromAllStorages(b: Browser, cfg: AppConfig)
    modifies b
    ensures b.State() == if b.hasWindow then Cleared(old(b.State()), cfg) else old(b.State())
  {
    if !b.hasWindow {
      return;
    }
    b.RemoveLocal(cfg.tokenKey);
    b.RemoveLocal(cfg.userStorageKey);
    b.RemoveCookie(cfg.tokenKey);
    b.RemoveCookie(cfg.userStorageKey);
    b.RemoveSession(cfg.tokenKey);
    b.RemoveSession(cfg.userStorageKey);
    assert b.local == old(b.local) - {cfg.tokenKey, cfg.userStorageKey};
    assert b.cookies == old(b.cookies) - {cfg.tokenKey, cfg.userStorageKey};
    assert b.session == old(b.session) - {cfg.tokenKey, cfg.userStorageKey};
  }

  /** `getAuthFromAllStorages` on a page with a window: `cookie || local ||
      session` (which may be '' or null), and the stores after.  A truthy
      token is written to all three stores when any of them lacks one; three
      truthy values are left as they are, even when they differ. */
  function GetAuthStep(st: Stores, https: bool, cfg: AppConfig): (r: (Option<string>, Stores))
    ensures var c, l, s := CookieValue(st.cookies, cfg.tokenKey), Item(st.local, cfg.tokenKey), Item(st.session, cfg.tokenKey);
      r.0 == Or(c, Or(l, s))
      && (Truthy(c) && Truthy(l) && Truthy(s) ==> r.1 == st)
      && (!Truthy(r.0) ==> r.1 == st)
      && (Truthy(r.0) && !(Truthy(c) && Truthy(l) && Truthy(s)) ==> r.1 == AuthUtils.WithToken(st, cfg, r.0.value, https))
  {
    var c := CookieValue(st.cookies, cfg.tokenKey);
    var l := Item(st.local, cfg.tokenKey);
    var s := Item(st.session, cfg.tokenKey);
    var token := Or(c, Or(l, s));
    if Truthy(token) && (!Truthy(c) || !Truthy(l) || !Truthy(s)) then (token, AuthUtils.WithToken(st, cfg, token.value, https))
    else (token, st)
  }

  /** Reading again finds the same token and writes nothing more. */
  lemma GetAuthSettles(st: Stores, https: bool, cfg: AppConfig)
    ensures var r := GetAuthStep(st, https, cfg);
      GetAuthStep(r.1, https, cfg) == r
  {
    var r := GetAuthStep(st, https, cfg);
    if r.1 != st {
      var t := r.0;
      assert CookieValue(r.1.cookies, cfg.tokenKey) == t;
    }
  }

  /** `getAuthFromAllStorages`: `null` without a window. */
  method GetAuthFromAllStorages(b: Browser, cfg: AppConfig) returns (token: Option<string>)
    modifies b
    ensures b.hasWindow ==> (token, b.State()) == GetAuthStep(old(b.State()), b.https, cfg)
    ensures !b.hasWindow ==> token == None && b.State() == old(b.State())
  {
    if !b.hasWindow {
      return None;
    }
    var c := CookieValue(b.cookies, cfg.tokenKey);
    var l := Item(b.local, cfg.tokenKey);
    var s := Item(b.session, cfg.tokenKey);
    token := Or(c, Or(l, s));
    if Truthy(token) && (!Truthy(c) || !Truthy(l) || !Truthy(s)) {
      SetAuthInAllStorages(b, cfg, token.value);
    }
  }

  /** `isAuthenticated`: the token found is truthy. */
  method IsAuthenticated(b: Browser, cfg: AppConfig) returns (r: bool)
    modifies b
    ensures r <==> b.hasWindow && Truthy(GetAuthStep(old(b.State()), b.https, cfg).0)
    ensures b.hasWindow ==> b.State() == GetAuthStep(old(b.State()), b.https, cfg).1
    ensures !b.hasWindow ==> b.State() == old(b.State())
  {
    var token := GetAuthFromAllStorages(b, cfg);
    r := Truthy(token);
  }

  /** The header `getAuthHeader` builds from a token: the `Bearer` scheme of
      section 2.1 of RFC 6750, or `undefined` for a falsy token. */
  function AuthHeader(token: Option<string>): (r: Option<map<string, string>>)
    ensures r.Some? <==> Truthy(token)
    ensures r.Some? ==>
      r.value.Keys == {AuthorizationHeader}
      && |r.value[AuthorizationHeader]| == |BearerPrefix| + |token.value|
      && r.value[AuthorizationHeader][..|BearerPrefix|] == BearerPrefix
      && r.value[AuthorizationHeader][|BearerPrefix|..] == token.value
  {
    if Truthy(token) then Some(map[AuthorizationHeader := BearerPrefix + token.value]) else None
  }

  /** `getAuthHeader`. */
  method GetAuthHeader(b: Browser, cfg: AppConfig) returns (r: Option<map<string, string>>)
    modifies b
    ensures r == AuthHeader(if b.hasWindow then GetAuthStep(old(b.State()), b.https, cfg).0 else None)
    ensures b.hasWindow ==> b.State() == GetAuthStep(old(b.State()), b.https, cfg).1
    ensures !b.hasWindow ==> b.State() == old(b.State())
  {
    var token := GetAuthFromAllStorages(b, cfg);
    r := AuthHeader(token);
  }

  /** `initAuth`, with the outcome of the `/api/users/me` check as a
      parameter (`Ok(true)` for a response with data): a truthy
      `localStorage` token that the server accepts is written to all three
      stores. */
  method InitAuth(b: Browser, cfg: AppConfig, check: Result<bool>) returns (ok: bool)
    modifies b
    ensures var l := Item(old(b.local), cfg.tokenKey);
      ok <==> b.hasWindow && Truthy(l) && check == Ok(true)
    ensures ok ==> b.State() == AuthUtils.WithToken(old(b.State()), cfg, old(b.local)[cfg.tokenKey], b.https)
    ensures !ok ==> b.State() == old(b.State())
  {
    if !b.hasWindow {
      return false;
    }
    var token := Item(b.local, cfg.tokenKey);
    if !Truthy(token) {
      return false;
    }
    if check == Ok(true) {
      SetAuthInAllStorages(b, cfg, token.value);
      return true;
    }
    return false;
  }
}
