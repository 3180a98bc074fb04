/** frontend/src/shared/lib/authPersistence.ts: the token in `localStorage`,
    `sessionStorage` and the cookie jar under fixed keys, with an expiry
    instant in `localStorage`.  The clock (`now`, in milliseconds),
    `Date.prototype.toISOString` (`iso`) and the parse of a date string
    (`dateOf`, `None` for an invalid date) are parameters. */
module AuthPersistence {
  import opened Wrappers
  import opened Browser

  const TokenKey := "auth_token"
  const ExpiryKey := "auth_token_expiry"
  const UserKey := "user_data"
  const BackupKey := "auth_token_backup"
  const DefaultExpiryDays := 30
  const DayMillis := 24 * 60 * 60 * 1000

  /** What `saveToken(token, expiryDays)` writes on a page with a window. */
  function Saved(st: Stores, token: string, expiryDays: int, https: bool, now: int, iso: int -> string): (r: Stores)
    ensures Item(r.local, TokenKey) == Some(token) && Item(r.session, TokenKey) == Some(token)
    ensures CookieValue(r.cookies, TokenKey) == Some(token)
    ensures r.cookies[TokenKey] == Cookie(token, "/", expiryDays * 86400, "lax", https)
    ensures Item(r.local, ExpiryKey) == Some(iso(now + expiryDays * DayMillis))
    ensures r.cookieWrites == st.cookieWrites
  {
    st.(local := st.local[TokenKey := token][ExpiryKey := iso(now + expiryDays * DayMillis)],
        session := st.session[TokenKey := token],
        cookies := st.cookies[TokenKey := Cookie(token, "/", expiryDays * 86400, "lax", https)])
  }

  method SaveToken(b: Browser, token: string, expiryDays: int, now: int, iso: int -> string)
    modifies b
    ensures b.State() == if b.hasWindow then Saved(old(b.State()), token, expiryDays, b.https, now, iso) else old(b.State())
  {
    if !b.hasWindow {
      return;
    }
    b.SetLocal(TokenKey, token);
    b.SetSession(TokenKey, token);
    b.SetCookie(TokenKey, Cookie(token, "/", expiryDays * 86400, "lax", b.https));
    b.SetLocal(ExpiryKey, iso(now + expiryDays * DayMillis));
  }

  /** What `clearToken` leaves on a page with a window. */
  function Cleared(st: Stores): (r: Stores)
    ensures TokenKey !in r.local && ExpiryKey !in r.local && TokenKey !in r.session && TokenKey !in r.cookies
    ensures forall k :: k !in {TokenKey, ExpiryKey} ==> Item(r.local, k) == Item(st.local, k)
    ensures forall k :: k != TokenKey ==>
      Item(r.session, k) == Item(st.session, k) && CookieValue(r.cookies, k) == CookieValue(st.cookies, k)
  {
    st.(local := st.local - {TokenKey, ExpiryKey}, session := st.session - {TokenKey}, cookies := st.cookies - {TokenKey})
  }

  method ClearToken(b: Browser)
    modifies b
    ensures b.State() == if b.hasWindow then Cleared(old(b.State())) else old(b.State())
  {
    if !b.hasWindow {
      return;
    }
    b.RemoveLocal(TokenKey);
    b.RemoveLocal(ExpiryKey);
    b.RemoveSession(TokenKey);
    b.RemoveCookie(TokenKey);
    assert b.local == old(b.local) - {TokenKey, ExpiryKey};
  }

  /** `expiry < new Date()`: an invalid date is never before anything. */
  predicate Expired(expiry: Option<int>, now: int)
  {
    expiry.Some? && expiry.value < now
  }

  /** `getToken` on a page with a window: the token returned and the stores
      after.  A `localStorage` token that disagrees with the cookie or the
      session copy is saved everywhere first; an expired `localStorage`
      token clears everything; otherwise the first truthy of cookie,
      session and local copy, as read before the rewrite, is returned. */
  function GetTokenStep(st: Stores, https: bool, now: int, iso: int -> string, dateOf: string -> Option<int>)
    : (r: (Option<string>, Stores))
    ensures var c, s, l := CookieValue(st.cookies, TokenKey), Item(st.session, TokenKey), Item(st.local, TokenKey);
      (r.0 == None || r.0 == Or(c, Or(s, Or(l, None))))
      && (!Truthy(l) ==> r == (Or(c, Or(s, None)), st))
  {
    var c := CookieValue(st.cookies, TokenKey);
    var s := Item(st.session, TokenKey);
    var l := Item(st.local, TokenKey);
    var st1 := if Truthy(l) && (l != c || l != s) then Saved(st, l.value, DefaultExpiryDays, https, now, iso) else st;
    var expiry := Item(st1.local, ExpiryKey);
    if Truthy(l) && Truthy(expiry) && Expired(dateOf(expiry.value), now) then (None, Cleared(st1))
    else (Or(c, Or(s, Or(l, None))), st1)
  }

  /** When `getToken` rewrites the stores it has just renewed the expiry, so
      that call never clears the token: it returns a token. */
  lemma RewriteNeverClears(st: Stores, https: bool, now: int, iso: int -> string, dateOf: string -> Option<int>)
    requires var c, s, l := CookieValue(st.cookies, TokenKey), Item(st.session, TokenKey), Item(st.local, TokenKey);
      Truthy(l) && (l != c || l != s)
    requires dateOf(iso(now + DefaultExpiryDays * DayMillis)) == Some(now + DefaultExpiryDays * DayMillis)
    ensures var c, s, l := CookieValue(st.cookies, TokenKey), Item(st.session, TokenKey), Item(st.local, TokenKey);
      var r := GetTokenStep(st, https, now, iso, dateOf);
      r == (Or(c, Or(s, l)), Saved(st, l.value, DefaultExpiryDays, https, now, iso)) && Truthy(r.0)
  {
    var l := Item(st.local, TokenKey);
    var st1 := Saved(st, l.value, DefaultExpiryDays, https, now, iso);
    assert Item(st1.local, ExpiryKey) == Some(iso(now + DefaultExpiryDays * DayMillis));
    assert !Expired(dateOf(iso(now + DefaultExpiryDays * DayMillis)), now);
  }

  /** With cookie `A` and a different `localStorage` token `B`, `getToken`
      returns `A` while every store now holds `B`. */
  lemma StaleCookieReturned(st: Stores, https: bool, now: int, iso: int -> string, dateOf: string -> Option<int>)
    requires var c, l := CookieValue(st.cookies, TokenKey), Item(st.local, TokenKey);
      Truthy(c) && Truthy(l) && c != l
    requires dateOf(iso(now + DefaultExpiryDays * DayMillis)) == Some(now + DefaultExpiryDays * DayMillis)
    ensures var c, l := CookieValue(st.cookies, TokenKey), Item(st.local, TokenKey);
      var r := GetTokenStep(st, https, now, iso, dateOf);
      r.0 == c && CookieValue(r.1.cookies, TokenKey) == l && Item(r.1.session, TokenKey) == l
      && Item(r.1.local, TokenKey) == l
  {
    RewriteNeverClears(st, https, now, iso, dateOf);
  }

  /** A consistent token whose stored expiry lies in the past is cleared
      everywhere and `null` is returned. */
  lemma ExpiredTokenCleared(st: Stores, https: bool, now: int, iso: int -> string, dateOf: string -> Option<int>)
    requires var c, s, l := CookieValue(st.cookies, TokenKey), Item(st.session, TokenKey), Item(st.local, TokenKey);
      Truthy(l) && l == c && l == s
    requires Truthy(Item(st.local, ExpiryKey)) && Expired(dateOf(st.local[ExpiryKey]), now)
    ensures GetTokenStep(st, https, now, iso, dateOf) == (None, Cleared(st))
  {
  }

  /** A token saved for a non-negative number of days is read back unchanged
      at the same instant, without further writes. */
  lemma SavedTokenReadBack(st: Stores, token: string, days: nat, https: bool, now: int,
                           iso: int -> string, dateOf: string -> Option<int>)
    requires token != ""
    requires dateOf(iso(now + days * DayMillis)) == Some(now + days * DayMillis)
    ensures var st1 := Saved(st, token, days, https, now, iso);
      GetTokenStep(st1, https, now, iso, dateOf) == (Some(token), st1)
  {
    var st1 := Saved(st, token, days, https, now, iso);
    assert Item(st1.local, ExpiryKey) == Some(iso(now + days * DayMillis));
    assert !Expired(dateOf(iso(now + days * DayMillis)), now);
  }

  /** After `clearToken` no token is found and nothing is written. */
  lemma NoTokenAfterClear(st: Stores, https: bool, now: int, iso: int -> string, dateOf: string -> Option<int>)
    ensures GetTokenStep(Cleared(st), https, now, iso, dateOf) == (None, Cleared(st))
  {
  }

  /** `getToken`: `null` without a window. */
  method GetToken(b: Browser, now: int, iso: int -> string, dateOf: string -> Option<int>) returns (token: Option<string>)
    modifies b
    ensures b.hasWindow ==> (token, b.State()) == GetTokenStep(old(b.State()), b.https, now, iso, dateOf)
    ensures !b.hasWindow ==> token == None && b.State() == old(b.State())
  {
    if !b.hasWindow {
      return None;
    }
    var c := CookieValue(b.cookies, TokenKey);
    var s := Item(b.session, TokenKey);
    var l := Item(b.local, TokenKey);
    if Truthy(l) && (l != c || l != s) {
      SaveToken(b, l.value, DefaultExpiryDays, now, iso);
    }
    if Truthy(l) {
      var expiry := Item(b.local, ExpiryKey);
      if Truthy(expiry) && Expired(dateOf(expiry.value), now) {
        ClearToken(b);
        return None;
      }
    }
    return Or(c, Or(s, Or(l, None)));
  }

  /** `isAuth`: `getToken` found a token. */
  method IsAuth(b: Browser, now: int, iso: int -> string, dateOf: string -> Option<int>) returns (r: bool)
    modifies b
    ensures b.hasWindow ==> var step := GetTokenStep(old(b.State()), b.https, now, iso, dateOf);
      r == Truthy(step.0) && b.State() == step.1
    ensures !b.hasWindow ==> !r && b.State() == old(b.State())
  {
    var token := GetToken(b, now, iso, dateOf);
    r := Truthy(token);
  }

  /** `verifyAndSyncAuthState`: the token found is saved again for the
      default period. */
  function VerifyStep(st: Stores, https: bool, now: int, iso: int -> string, dateOf: string -> Option<int>): (r: Stores)
    ensures var step := GetTokenStep(st, https, now, iso, dateOf);
      Truthy(step.0) ==>
        Item(r.local, TokenKey) == step.0 && Item(r.session, TokenKey) == step.0
        && CookieValue(r.cookies, TokenKey) == step.0
  {
    var (token, st1) := GetTokenStep(st, https, now, iso, dateOf);
    if Truthy(token) then Saved(st1, token.value, DefaultExpiryDays, https, now, iso) else st1
  }

  method VerifyAndSyncAuthState(b: Browser, now: int, iso: int -> string, dateOf: string -> Option<int>)
    modifies b
    ensures b.State() == if b.hasWindow then VerifyStep(old(b.State()), b.https, now, iso, dateOf) else old(b.State())
  {
    if !b.hasWindow {
      return;
    }
    var token := GetToken(b, now, iso, dateOf);
    if Truthy(token) {
      SaveToken(b, token.value, DefaultExpiryDays, now, iso);
    }
  }

  /** `backupAuthState`: the token found is copied to the backup slot. */
  function BackupStep(st: Stores, https: bool, now: int, iso: int -> string, dateOf: string -> Option<int>): (r: Stores)
    ensures var step := GetTokenStep(st, https, now, iso, dateOf);
      (Truthy(step.0) ==> Item(r.session, BackupKey) == step.0)
      && (!Truthy(step.0) ==> r == step.1)
  {
    var (token, st1) := GetTokenStep(st, https, now, iso, dateOf);
    if Truthy(token) then st1.(session := st1.session[BackupKey := token.value]) else st1
  }

  method BackupAuthState(b: Browser, now: int, iso: int -> string, dateOf: string -> Option<int>)
    modifies b
    ensures b.State() == if b.hasWindow then BackupStep(old(b.State()), b.https, now, iso, dateOf) else old(b.State())
  {
    if !b.hasWindow {
      return;
    }
    var token := GetToken(b, now, iso, dateOf);
    if Truthy(token) {
      b.SetSession(BackupKey, token.value);
    }
  }

  /** `recoverAuthState`: with no token cookie, the backup (else the
      `localStorage` token) is saved everywhere, and a non-empty backup slot
      is then removed; with a token cookie nothing happens, and the backup
      stays. */
  function RecoverStep(st: Stores, https: bool, now: int, iso: int -> string): (r: Stores)
    ensures var backup, c, l := Item(st.session, BackupKey), CookieValue(st.cookies, TokenKey), Item(st.local, TokenKey);
      (Truthy(c) || (!Truthy(backup) && !Truthy(l)) ==> r == st)
      && (!Truthy(c) && Truthy(backup) ==> CookieValue(r.cookies, TokenKey) == backup && BackupKey !in r.session)
      && (!Truthy(c) && !Truthy(backup) && Truthy(l) ==>
            CookieValue(r.cookies, TokenKey) == l && Item(r.session, BackupKey) == backup)
  {
    var backup := Item(st.session, BackupKey);
    var c := CookieValue(st.cookies, TokenKey);
    var l := Item(st.local, TokenKey);
    if !Truthy(c) && (Truthy(backup) || Truthy(l)) then
      var st1 := Saved(st, Or(backup, l).value, DefaultExpiryDays, https, now, iso);
      if Truthy(backup) then st1.(session := st1.session - {BackupKey}) else st1
    else st
  }

  method RecoverAuthState(b: Browser, now: int, iso: int -> string)
    modifies b
    ensures b.State() == if b.hasWindow then RecoverStep(old(b.State()), b.https, now, iso) else old(b.State())
  {
    if !b.hasWindow {
      return;
    }
    var backup := Item(b.session, BackupKey);
    var c := CookieValue(b.cookies, TokenKey);
    var l := Item(b.local, TokenKey);
    if !Truthy(c) && (Truthy(backup) || Truthy(l)) {
      var restore := Or(backup, l);
      SaveToken(b, restore.value, DefaultExpiryDays, now, iso);
      if Truthy(backup) {
        b.RemoveSession(BackupKey);
      }
    }
  }

  /** `saveUserData` with the data's JSON text. */
  method SaveUserData(b: Browser, userDataJson: string)
    modifies b
    ensures b.State() == if b.hasWindow then old(b.State()).(local := old(b.local)[UserKey := userDataJson]) else old(b.State())
  {
    if b.hasWindow {
      b.SetLocal(UserKey, userDataJson);
    }
  }

  /** `getUserData`: the parsed `localStorage` entry; `null` when it is
      missing, empty or rejected by `JSON.parse`. */
  function GetUserData<J>(st: Stores, hasWindow: bool, parseJson: string -> Option<J>): (r: Option<J>)
    ensures r.Some? ==> hasWindow && Truthy(Item(st.local, UserKey)) && r == parseJson(st.local[UserKey])
    ensures hasWindow && Truthy(Item(st.local, UserKey)) ==> r == parseJson(st.local[UserKey])
  {
    if hasWindow && Truthy(Item(st.local, UserKey)) then parseJson(st.local[UserKey]) else None
  }

  /** What `saveUserData` stores, `getUserData` parses back. */
  lemma SavedUserDataReadBack<J>(st: Stores, userDataJson: string, parseJson: string -> Option<J>)
    requires userDataJson != ""
    ensures GetUserData(st.(local := st.local[UserKey := userDataJson]), true, parseJson) == parseJson(userDataJson)
  {
  }

  method ClearUserData(b: Browser)
    modifies b
    ensures b.State() == if b.hasWindow then old(b.State()).(local := old(b.local) - {UserKey}) else old(b.State())
  {
    if b.hasWindow {
      b.RemoveLocal(UserKey);
    }
  }
}
