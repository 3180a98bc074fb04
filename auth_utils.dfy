/** frontend/src/shared/lib/auth-utils.ts: the token is kept in the cookie
    jar, `localStorage` and `sessionStorage`; reading it heals the cookie from
    the other two; a `sessionStorage` slot backs it up across a reload. */
module AuthUtils {
  import opened Wrappers
  import opened Browser

  const TokenExpiryDays := 30
  /** The cookies' `maxAge`, in seconds. */
  const TokenMaxAge := TokenExpiryDays * 24 * 60 * 60
  const BackupKey := "auth_token_backup"
  const EpochExpiry := "Thu, 01 Jan 1970 00:00:00 UTC"

  /** A cookie header handed in by the server: its text, and the name-value
      pairs universal-cookie parses from it. */
  datatype CookieHeader = CookieHeader(text: string, parsed: map<string, string>)

  /** The options `setAuthToken` and `setUserInfo` give their cookie. */
  function SessionCookie(value: string, https: bool): (c: Cookie)
    ensures c.value == value && c.secure == https && c.maxAge == 2592000
  {
    Cookie(value, "/", TokenMaxAge, "lax", https)
  }

  /** What `setAuthToken` writes on a page with a window. */
  function WithToken(st: Stores, cfg: AppConfig, token: string, https: bool): (r: Stores)
    ensures CookieValue(r.cookies, cfg.tokenKey) == Some(token)
    ensures Item(r.local, cfg.tokenKey) == Some(token) && Item(r.session, cfg.tokenKey) == Some(token)
    ensures r.cookies[cfg.tokenKey] == SessionCookie(token, https)
    ensures forall k :: k != cfg.tokenKey ==>
      CookieValue(r.cookies, k) == CookieValue(st.cookies, k) && Item(r.local, k) == Item(st.local, k)
      && Item(r.session, k) == Item(st.session, k)
    ensures r.cookieWrites == st.cookieWrites
  {
    st.(cookies := st.cookies[cfg.tokenKey := SessionCookie(token, https)],
        local := st.local[cfg.tokenKey := token],
        session := st.session[cfg.tokenKey := token])
  }

  /** Writing the same token twice is writing it once. */
  lemma WithTokenTwice(st: Stores, cfg: AppConfig, token: string, https: bool)
    ensures WithToken(WithToken(st, cfg, token, https), cfg, token, https) == WithToken(st, cfg, token, https)
  {
  }

  /** `setAuthToken`: `false` without a window, otherwise the three writes. */
  method SetAuthToken(b: Browser, cfg: AppConfig, token: string) returns (ok: bool)
    modifies b
    ensures ok == b.hasWindow
    ensures b.State() == if b.hasWindow then WithToken(old(b.State()), cfg, token, b.https) else old(b.State())
  {
    if !b.hasWindow {
      return false;
    }
    b.SetCookie(cfg.tokenKey, SessionCookie(token, b.https));
    b.SetLocal(cfg.tokenKey, token);
    b.SetSession(cfg.tokenKey, token);
    return true;
  }

  /** The cookie `key` as the readers see it: from the given header when its
      text is non-empty, else from the page's jar, else nothing. */
  function CookieFrom(st: Stores, hasWindow: bool, header: Option<CookieHeader>, key: string): (r: Option<string>)
    ensures !hasWindow && (header.None? || header.value.text == "") ==> r == None
  {
    if header.Some? && header.value.text != "" then Item(header.value.parsed, key)
    else if hasWindow then CookieValue(st.cookies, key)
    else None
  }

  /** `getAuthToken(cookieString)`: the token found, and the storages after. */
  function GetAuthTokenStep(st: Stores, hasWindow: bool, https: bool, cfg: AppConfig, header: Option<CookieHeader>)
    : (r: (Option<string>, Stores))
    ensures var c := CookieFrom(st, hasWindow, header, cfg.tokenKey);
      (Truthy(c) ==> r == (c, st))
      && (!hasWindow ==> r == (if Truthy(c) then c else None, st))
      && (Truthy(r.0) || r.0 == None)
  {
    var c := CookieFrom(st, hasWindow, header, cfg.tokenKey);
    if Truthy(c) then (c, st)
    else if !hasWindow then (None, st)
    else
      var l := Item(st.local, cfg.tokenKey);
      var s := Item(st.session, cfg.tokenKey);
      if Truthy(l) then (l, WithToken(st, cfg, l.value, https))
      else if Truthy(s) then (s, WithToken(st, cfg, s.value, https))
      else (None, st)
  }

  /** Without a cookie token, `localStorage` wins over `sessionStorage` and the
      token found is written back to all three stores, overwriting
      `sessionStorage`; with none anywhere, nothing is written. */
  lemma GetAuthTokenHeals(st: Stores, https: bool, cfg: AppConfig, header: Option<CookieHeader>)
    requires !Truthy(CookieFrom(st, true, header, cfg.tokenKey))
    ensures var l, s := Item(st.local, cfg.tokenKey), Item(st.session, cfg.tokenKey);
      var r := GetAuthTokenStep(st, true, https, cfg, header);
      (Truthy(l) ==> r == (l, WithToken(st, cfg, l.value, https)))
      && (!Truthy(l) && Truthy(s) ==> r == (s, WithToken(st, cfg, s.value, https)))
      && (!Truthy(l) && !Truthy(s) ==> r == (None, st))
  {
  }

  /** On the client, reading the token again finds the same token and writes
      nothing more. */
  lemma GetAuthTokenSettles(st: Stores, https: bool, cfg: AppConfig)
    ensures var r := GetAuthTokenStep(st, true, https, cfg, None);
      GetAuthTokenStep(r.1, true, https, cfg, None) == r
  {
    var r := GetAuthTokenStep(st, true, https, cfg, None);
    if r.1 != st {
      assert CookieValue(r.1.cookies, cfg.tokenKey) == r.0;
    }
  }

  /** `getAuthToken`. */
  method GetAuthToken(b: Browser, cfg: AppConfig, header: Option<CookieHeader>) returns (token: Option<string>)
    modifies b
    ensures (token, b.State()) == GetAuthTokenStep(old(b.State()), b.hasWindow, b.https, cfg, header)
  {
    var c := CookieFrom(b.State(), b.hasWindow, header, cfg.tokenKey);
    if Truthy(c) {
      return c;
    }
    if b.hasWindow {
      var l := Item(b.local, cfg.tokenKey);
      if Truthy(l) {
        var _ := SetAuthToken(b, cfg, l.value);
        return l;
      }
      var s := Item(b.session, cfg.tokenKey);
      if Truthy(s) {
        var _ := SetAuthToken(b, cfg, s.value);
        return s;
      }
    }
    return None;
  }

  /** `isAuthenticated`: a token was found (reading it may heal the stores). */
  method IsAuthenticated(b: Browser, cfg: AppConfig, header: Option<CookieHeader>) returns (r: bool)
    modifies b
    ensures var step := GetAuthTokenStep(old(b.State()), b.hasWindow, b.https, cfg, header);
      r == Truthy(step.0) && b.State() == step.1
  {
    var token := GetAuthToken(b, cfg, header);
    r := Truthy(token);
  }

  /** The raw `document.cookie` lines `logout` writes: expired token and
      user-info cookies, again with a `domain` attribute off localhost. */
  function LogoutLines(cfg: AppConfig, hostname: string): (lines: seq<string>)
    ensures |lines| == if hostname == "localhost" then 2 else 4
  {
    var plain := [cfg.tokenKey + "=; expires=" + EpochExpiry + "; path=/;",
                  cfg.userStorageKey + "=; expires=" + EpochExpiry + "; path=/;"];
    if hostname == "localhost" then plain
    else plain + [cfg.tokenKey + "=; expires=" + EpochExpiry + "; path=/; domain=" + hostname + ";",
                  cfg.userStorageKey + "=; expires=" + EpochExpiry + "; path=/; domain=" + hostname + ";"]
  }

  /** What `logout` leaves on a page with a window. */
  function LoggedOut(st: Stores, cfg: AppConfig, hostname: string): (r: Stores)
    ensures forall k :: k in {cfg.tokenKey, cfg.userStorageKey} ==>
      k !in r.cookies && k !in r.local && k !in r.session
    ensures forall k :: k !in {cfg.tokenKey, cfg.userStorageKey} ==>
      CookieValue(r.cookies, k) == CookieValue(st.cookies, k) && Item(r.local, k) == Item(st.local, k)
      && Item(r.session, k) == Item(st.session, k)
    ensures r.cookieWrites == st.cookieWrites + LogoutLines(cfg, hostname)
  {
    var keys := {cfg.tokenKey, cfg.userStorageKey};
    Stores(st.cookies - keys, st.local - keys, st.session - keys, st.cookieWrites + LogoutLines(cfg, hostname))
  }

  /** `logout`: `false` without a window, otherwise both keys leave every
      store. */
  method Logout(b: Browser, cfg: AppConfig) returns (ok: bool)
    modifies b
    ensures ok == b.hasWindow
    ensures b.State() == if b.hasWindow then LoggedOut(old(b.State()), cfg, b.hostname) else old(b.State())
  {
    if !b.hasWindow {
      return false;
    }
    var lines := LogoutLines(cfg, b.hostname);
    ForgetKey(b, cfg.tokenKey);
    ForgetKey(b, cfg.userStorageKey);
    WriteCookieLines(b, lines);
    assert b.cookies == old(b.cookies) - {cfg.tokenKey, cfg.userStorageKey};
    assert b.local == old(b.local) - {cfg.tokenKey, cfg.userStorageKey};
    assert b.session == old(b.session) - {cfg.tokenKey, cfg.userStorageKey};
    return true;
  }

  /** The key leaves the cookies and both storages. */
  method ForgetKey(b: Browser, key: string)
    modifies b
    ensures b.State() == old(b.State()).(cookies := old(b.cookies) - {key}, local := old(b.local) - {key},
                                         session := old(b.session) - {key})
  {
    b.RemoveCookie(key);
    b.RemoveLocal(key);
    b.RemoveSession(key);
  }

  /** The raw cookie lines are written one after the other. */
  method WriteCookieLines(b: Browser, lines: seq<string>)
    requires |lines| == 2 || |lines| == 4
    modifies b
    ensures b.State() == old(b.State()).(cookieWrites := old(b.cookieWrites) + lines)
  {
    b.WriteDocumentCookie(lines[0]);
    b.WriteDocumentCookie(lines[1]);
    if |lines| == 4 {
      b.WriteDocumentCookie(lines[2]);
      b.WriteDocumentCookie(lines[3]);
    }
    assert b.cookieWrites == old(b.cookieWrites) + lines;
  }

  /** After logging out on the client no token is found and nothing is
      written. */
  lemma NoTokenAfterLogout(st: Stores, https: bool, cfg: AppConfig, hostname: string)
    ensures var out := LoggedOut(st, cfg, hostname);
      GetAuthTokenStep(out, true, https, cfg, None) == (None, out)
  {
  }

  /** After `setAuthToken(t)` with a non-empty `t`, the client reads `t`
      back without writing. */
  lemma TokenReadBack(st: Stores, https: bool, cfg: AppConfig, token: string)
    requires token != ""
    ensures var st1 := WithToken(st, cfg, token, https);
      GetAuthTokenStep(st1, true, https, cfg, None) == (Some(token), st1)
  {
  }

  /** `setUserInfo` with the user info's JSON text: the user-info cookie and
      `localStorage` slot hold it; `sessionStorage` is not touched. */
  method SetUserInfo(b: Browser, cfg: AppConfig, userInfoJson: string) returns (ok: bool)
    modifies b
    ensures ok == b.hasWindow
    ensures b.State() == if b.hasWindow then
        old(b.State()).(cookies := old(b.cookies)[cfg.userStorageKey := SessionCookie(userInfoJson, b.https)],
                        local := old(b.local)[cfg.userStorageKey := userInfoJson])
      else old(b.State())
  {
    if !b.hasWindow {
      return false;
    }
    b.SetCookie(cfg.userStorageKey, SessionCookie(userInfoJson, b.https));
    b.SetLocal(cfg.userStorageKey, userInfoJson);
    return true;
  }

  /** `getUserInfo(cookieString)`; `parseJson` stands for `JSON.parse`, with
      `None` for text it rejects. A rejected cookie value gives `null`: the
      error is caught outside, so `localStorage` is not consulted. */
  function GetUserInfo<J>(st: Stores, hasWindow: bool, cfg: AppConfig, header: Option<CookieHeader>,
                          parseJson: string -> Option<J>): (r: Option<J>)
    ensures var c := CookieFrom(st, hasWindow, header, cfg.userStorageKey);
      (Truthy(c) ==> r == parseJson(c.value))
      && (!Truthy(c) && r.Some? ==> hasWindow && Truthy(Item(st.local, cfg.userStorageKey)))
      && (!Truthy(c) && hasWindow && Truthy(Item(st.local, cfg.userStorageKey)) ==>
            r == parseJson(st.local[cfg.userStorageKey]))
      && (!Truthy(c) && !hasWindow ==> r.None?)
  {
    var c := CookieFrom(st, hasWindow, header, cfg.userStorageKey);
    if Truthy(c) then parseJson(c.value)
    else if hasWindow then
      var l := Item(st.local, cfg.userStorageKey);
      if Truthy(l) then parseJson(l.value) else None
    else None
  }

  /** `syncAuthState`: the token found is written to all three stores. */
  function SyncStep(st: Stores, https: bool, cfg: AppConfig): (r: Stores)
  {
    var (token, st1) := GetAuthTokenStep(st, true, https, cfg, None);
    if Truthy(token) then WithToken(st1, cfg, token.value, https) else st1
  }

  /** Syncing amounts to one write of the token found, if any. */
  lemma SyncWritesTokenFound(st: Stores, https: bool, cfg: AppConfig)
    ensures var token := GetAuthTokenStep(st, true, https, cfg, None).0;
      SyncStep(st, https, cfg) == if Truthy(token) then WithToken(st, cfg, token.value, https) else st
  {
    var (token, st1) := GetAuthTokenStep(st, true, https, cfg, None);
    if Truthy(token) && st1 != st {
      WithTokenTwice(st, cfg, token.value, https);
    }
  }

  method SyncAuthState(b: Browser, cfg: AppConfig)
    modifies b
    ensures b.State() == if b.hasWindow then SyncStep(old(b.State()), b.https, cfg) else old(b.State())
  {
    if !b.hasWindow {
      return;
    }
    var token := GetAuthToken(b, cfg, None);
    if Truthy(token) {
      var _ := SetAuthToken(b, cfg, token.value);
    }
  }

  /** `backupAuthState`: the token found is copied to the backup slot. */
  function BackupStep(st: Stores, https: bool, cfg: AppConfig): (r: Stores)
    ensures var token := GetAuthTokenStep(st, true, https, cfg, None).0;
      Truthy(token) ==> Item(r.session, BackupKey) == token
  {
    var (token, st1) := GetAuthTokenStep(st, true, https, cfg, None);
    if Truthy(token) then st1.(session := st1.session[BackupKey := token.value]) else st1
  }

  method BackupAuthState(b: Browser, cfg: AppConfig)
    modifies b
    ensures b.State() == if b.hasWindow then BackupStep(old(b.State()), b.https, cfg) else old(b.State())
  {
    if !b.hasWindow {
      return;
    }
    var token := GetAuthToken(b, cfg, None);
    if Truthy(token) {
      b.SetSession(BackupKey, token.value);
    }
  }

  /** `recoverAuthState`: a non-empty backup is written to all three stores
      when the jar has no token cookie, and the backup slot is emptied in
      either case. */
  function RecoverStep(st: Stores, https: bool, cfg: AppConfig): (r: Stores)
    ensures var backup := Item(st.session, BackupKey);
      (!Truthy(backup) ==> r == st)
      && (Truthy(backup) && cfg.tokenKey != BackupKey ==> BackupKey !in r.session)
      && (Truthy(backup) && !Truthy(CookieValue(st.cookies, cfg.tokenKey)) ==>
            CookieValue(r.cookies, cfg.tokenKey) == backup && Item(r.local, cfg.tokenKey) == backup)
      && (Truthy(backup) && Truthy(CookieValue(st.cookies, cfg.tokenKey)) ==>
            r.cookies == st.cookies && r.local == st.local)
  {
    var backup := Item(st.session, BackupKey);
    if !Truthy(backup) then st
    else
      var st1 := if !Truthy(CookieValue(st.cookies, cfg.tokenKey)) then WithToken(st, cfg, backup.value, https) else st;
      st1.(session := st1.session - {BackupKey})
  }

  method RecoverAuthState(b: Browser, cfg: AppConfig)
    modifies b
    ensures b.State() == if b.hasWindow then RecoverStep(old(b.State()), b.https, cfg) else old(b.State())
  {
    if !b.hasWindow {
      return;
    }
    var backup := Item(b.session, BackupKey);
    if Truthy(backup) {
      if !Truthy(CookieValue(b.cookies, cfg.tokenKey)) {
        var _ := SetAuthToken(b, cfg, backup.value);
      }
      b.RemoveSession(BackupKey);
    }
  }

  /** A token backed up before a reload that lost the token cookie is back in
      the jar after recovery, and the backup slot is empty again. */
  lemma BackupSurvivesLostCookie(st: Stores, https: bool, cfg: AppConfig)
    requires cfg.tokenKey != BackupKey
    requires Truthy(CookieValue(st.cookies, cfg.tokenKey))
    ensures var token := CookieValue(st.cookies, cfg.tokenKey);
      var reloaded := BackupStep(st, https, cfg).(cookies := st.cookies - {cfg.tokenKey});
      var r := RecoverStep(reloaded, https, cfg);
      CookieValue(r.cookies, cfg.tokenKey) == token && Item(r.local, cfg.tokenKey) == token
      && Item(r.session, cfg.tokenKey) == token && BackupKey !in r.session
  {
    var token := CookieValue(st.cookies, cfg.tokenKey);
    var backedUp := BackupStep(st, https, cfg);
    assert Item(backedUp.session, BackupKey) == token;
  }
}
