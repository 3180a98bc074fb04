/** frontend/src/shared/lib/auth.ts: the older token helpers, which keep the
    token in `localStorage` and in a cookie written through `document.cookie`,
    and read cookies by splitting the cookie text on "; ". */
module AuthCookies {
  import opened Wrappers
  import opened Text
  import opened Browser

  /** `setCookie`'s default lifetime, in days. */
  const DefaultDays := 7
  const DayMillis := 86400000
  const EpochExpiryGmt := "Thu, 01 Jan 1970 00:00:00 GMT"
  /** What assigning `document.cookie` throws where no `document` exists. */
  const NoDocument := "document is not defined"
  /** The fields of the user object `setUserInfo` copies into its cookie. */
  const SafeFields: set<string> := {"id", "name", "role"}

  /** The line `setCookie(name, value, days, path)` assigns to
      `document.cookie`; `encode` stands for `encodeURIComponent` and `utc`
      for `toUTCString` of an instant in milliseconds. */
  function CookieLine(name: string, value: string, days: int, path: string, now: int,
                      encode: string -> string, utc: int -> string): string
  {
    name + "=" + encode(value) + "; expires=" + utc(now + days * DayMillis)
    + "; path=" + path + "; SameSite=Lax"
  }

  /** The line `deleteCookie(name, path)` assigns: an empty value expired at
      the epoch. */
  function DeleteLine(name: string, path: string): string
  {
    name + "=; expires=" + EpochExpiryGmt + "; path=" + path + "; SameSite=Lax"
  }

  /** `cookies.find(c => c.startsWith(prefix))`: the first segment with that
      prefix, or `|segments|` for none. */
  function FirstWithPrefix(segments: seq<string>, prefix: string): (i: nat)
    ensures i <= |segments|
    ensures i < |segments| ==> StartsWith(segments[i], prefix)
    ensures forall j :: 0 <= j < i ==> !StartsWith(segments[j], prefix)
  {
    if segments == [] then 0
    else if StartsWith(segments[0], prefix) then 0
    else 1 + FirstWithPrefix(segments[1..], prefix)
  }

  /** The text `getCookie` parses: the caller's string when it is truthy,
      otherwise `document.cookie` where a `document` exists. */
  function CookieText(cookieString: Option<string>, hasDocument: bool, documentCookie: string): Option<string>
  {
    if hasDocument && !Truthy(cookieString) then Some(documentCookie) else cookieString
  }

  /** `getCookie(name, cookieString)`: the text is split on "; ", the first
      segment starting with `name=` is taken, and the text between its first
      and its second '=' is decoded (`decode` stands for
      `decodeURIComponent`). */
  function ReadCookie(name: string, cookieString: Option<string>, hasDocument: bool,
                      documentCookie: string, decode: string -> string): (r: Option<string>)
    ensures var text := CookieText(cookieString, hasDocument, documentCookie);
      r.Some? <==> (Truthy(text)
        && exists i :: 0 <= i < |Split(text.value, "; ")| && StartsWith(Split(text.value, "; ")[i], name + "="))
  {
    var text := CookieText(cookieString, hasDocument, documentCookie);
    if !Truthy(text) then None
    else
      var segments := Split(text.value, "; ");
      var i := FirstWithPrefix(segments, name + "=");
      if i == |segments| then None
      else
        assert StartsWith(Split(text.value, "; ")[i], name + "=");
        ContainsAfterPrefix(segments[i], name, '=');
        SplitHasSecond(segments[i], "=");
        Some(decode(Split(segments[i], "=")[1]))
  }

  /** A cookie text whose first segment is `name=v` reads as `v` up to its
      first '='. */
  lemma ReadFirstSegment(name: string, text: string, v: string, decode: string -> string)
    requires Lacks(name, '=') && text != ""
    requires Split(text, "; ")[0] == name + "=" + v
    ensures ReadCookie(name, Some(text), false, "", decode) == Some(decode(Split(v, "=")[0]))
  {
    var segments := Split(text, "; ");
    assert (name + "=" + v)[..|name| + 1] == name + "=";
    assert FirstWithPrefix(segments, name + "=") == 0;
    SplitAfterPrefix(name, "=", v);
  }

  /** Read as a cookie text, the line `setCookie` writes gives the value back:
      its first segment is the pair, when neither the name nor the encoded
      value holds '=' or ';' (as `encodeURIComponent`'s output never does). */
  lemma CookieLineReadsBack(name: string, value: string, days: int, path: string, now: int,
                            encode: string -> string, utc: int -> string, decode: string -> string)
    requires Lacks(name, '=') && Lacks(name, ';')
    requires Lacks(encode(value), '=') && Lacks(encode(value), ';')
    requires decode(encode(value)) == value
    ensures ReadCookie(name, Some(CookieLine(name, value, days, path, now, encode, utc)), false, "", decode) == Some(value)
  {
    var v := encode(value);
    var pair := name + "=" + v;
    var rest := "expires=" + utc(now + days * DayMillis) + "; path=" + path + "; SameSite=Lax";
    var text := CookieLine(name, value, days, path, now, encode, utc);
    assert text == pair + "; " + rest;
    LacksConcat(name, "=", ';');
    LacksConcat(name + "=", v, ';');
    SplitAfterPrefix(pair, "; ", rest);
    ReadFirstSegment(name, text, v, decode);
    SplitAbsent(v, "=");
  }

  /** The value ends at its first '=': a cookie `name=a=b` reads as `a`. */
  lemma ValueStopsAtEquals(name: string, a: string, b: string, decode: string -> string)
    requires Lacks(name, '=') && Lacks(name, ';')
    requires Lacks(a, '=') && Lacks(a, ';') && Lacks(b, ';')
    ensures ReadCookie(name, Some(name + "=" + a + "=" + b), false, "", decode) == Some(decode(a))
  {
    var v := a + "=" + b;
    var text := name + "=" + v;
    assert name + "=" + a + "=" + b == text;
    LacksConcat(a, "=", ';');
    LacksConcat(a + "=", b, ';');
    LacksConcat(name, "=", ';');
    LacksConcat(name + "=", v, ';');
    SplitAbsent(text, "; ");
    ReadFirstSegment(name, text, v, decode);
    SplitAfterPrefix(a, "=", b);
  }

  /** The line `deleteCookie` writes, read as a cookie text, holds the empty
      value, which `getAuthToken` treats as no token. */
  lemma DeleteLineReadsEmpty(name: string, path: string, decode: string -> string)
    requires Lacks(name, '=') && Lacks(name, ';')
    requires decode("") == ""
    ensures ReadCookie(name, Some(DeleteLine(name, path)), false, "", decode) == Some("")
    ensures !Truthy(ReadCookie(name, Some(DeleteLine(name, path)), false, "", decode))
  {
    var pair := name + "=" + "";
    var rest := "expires=" + EpochExpiryGmt + "; path=" + path + "; SameSite=Lax";
    var text := DeleteLine(name, path);
    DeleteLineShape(name, path);
    LacksConcat(name, "=", ';');
    LacksConcat(name + "=", "", ';');
    SplitAfterPrefix(pair, "; ", rest);
    ReadFirstSegment(name, text, "", decode);
    SplitAbsent("", "=");
  }

  /** The line `deleteCookie` writes is the empty pair, then its
      attributes. */
  lemma DeleteLineShape(name: string, path: string)
    ensures DeleteLine(name, path)
      == (name + "=" + "") + "; " + ("expires=" + EpochExpiryGmt + "; path=" + path + "; SameSite=Lax")
  {
    var eq, sep := "=", "; ";
    assert "=; expires=" == eq + sep + "expires=";
  }

  /** `setCookie`: the line is written; without a `document` the assignment
      throws. */
  method SetCookie(b: Browser, name: string, value: string, days: int, path: string, now: int,
                   encode: string -> string, utc: int -> string) returns (r: Outcome)
    modifies b
    ensures r == Pass <==> b.hasWindow
    ensures !b.hasWindow ==> r == Raise(JsError(NoDocument))
    ensures b.State() == if b.hasWindow
      then old(b.State()).(cookieWrites := old(b.cookieWrites) + [CookieLine(name, value, days, path, now, encode, utc)])
      else old(b.State())
  {
    if !b.hasWindow {
      return Raise(JsError(NoDocument));
    }
    b.WriteDocumentCookie(CookieLine(name, value, days, path, now, encode, utc));
    return Pass;
  }

  /** `deleteCookie`: the expiring line is written; without a `document` the
      assignment throws. */
  method DeleteCookie(b: Browser, name: string, path: string) returns (r: Outcome)
    modifies b
    ensures r == Pass <==> b.hasWindow
    ensures !b.hasWindow ==> r == Raise(JsError(NoDocument))
    ensures b.State() == if b.hasWindow
      then old(b.State()).(cookieWrites := old(b.cookieWrites) + [DeleteLine(name, path)])
      else old(b.State())
  {
    if !b.hasWindow {
      return Raise(JsError(NoDocument));
    }
    b.WriteDocumentCookie(DeleteLine(name, path));
    return Pass;
  }

  /** What `setAuthToken` leaves on a page with a window: the token in
      `localStorage` and a seven-day cookie line. */
  function TokenSaved(st: Stores, cfg: AppConfig, token: string, now: int,
                      encode: string -> string, utc: int -> string): (r: Stores)
    ensures Item(r.local, cfg.tokenKey) == Some(token)
    ensures forall k :: k != cfg.tokenKey ==> Item(r.local, k) == Item(st.local, k)
    ensures r.cookies == st.cookies && r.session == st.session
    ensures r.cookieWrites == st.cookieWrites + [CookieLine(cfg.tokenKey, token, DefaultDays, "/", now, encode, utc)]
  {
    st.(local := st.local[cfg.tokenKey := token],
        cookieWrites := st.cookieWrites + [CookieLine(cfg.tokenKey, token, DefaultDays, "/", now, encode, utc)])
  }

  /** `setAuthToken`: without a window `localStorage` throws first, nothing is
      written and the answer is `false`. */
  method SetAuthToken(b: Browser, cfg: AppConfig, token: string, now: int,
                      encode: string -> string, utc: int -> string) returns (ok: bool)
    modifies b
    ensures ok == b.hasWindow
    ensures b.State() == if b.hasWindow then TokenSaved(old(b.State()), cfg, token, now, encode, utc) else old(b.State())
  {
    if !b.hasWindow {
      return false;
    }
    b.SetLocal(cfg.tokenKey, token);
    var r := SetCookie(b, cfg.tokenKey, token, DefaultDays, "/", now, encode, utc);
    return true;
  }

  /** `getAuthToken(cookieString)`: a truthy cookie wins; otherwise, where
      `localStorage` exists, its entry is returned as it is, even when empty. */
  function GetAuthToken(st: Stores, hasWindow: bool, cfg: AppConfig, cookieString: Option<string>,
                        documentCookie: string, decode: string -> string): (r: Option<string>)
  {
    var c := ReadCookie(cfg.tokenKey, cookieString, hasWindow, documentCookie, decode);
    if Truthy(c) then c
    else if hasWindow then Item(st.local, cfg.tokenKey)
    else None
  }

  /** `isAuthenticated(cookieString)`. */
  function IsAuthenticated(st: Stores, hasWindow: bool, cfg: AppConfig, cookieString: Option<string>,
                           documentCookie: string, decode: string -> string): bool
  {
    Truthy(GetAuthToken(st, hasWindow, cfg, cookieString, documentCookie, decode))
  }

  /** A truthy token cookie decides the answer, whatever `localStorage`
      holds; with none, the answer is the `localStorage` entry on a page and
      nothing on the server. */
  lemma TokenSources(st: Stores, hasWindow: bool, cfg: AppConfig, cookieString: Option<string>,
                     documentCookie: string, decode: string -> string)
    ensures var c := ReadCookie(cfg.tokenKey, cookieString, hasWindow, documentCookie, decode);
      var r := GetAuthToken(st, hasWindow, cfg, cookieString, documentCookie, decode);
      (Truthy(c) ==> r == c)
      && (!Truthy(c) && hasWindow ==> r == Item(st.local, cfg.tokenKey))
      && (!hasWindow ==> r == None || r == c)
      && (IsAuthenticated(st, hasWindow, cfg, cookieString, documentCookie, decode)
          <==> Truthy(c) || (hasWindow && Truthy(Item(st.local, cfg.tokenKey))))
  {
  }

  /** After `setAuthToken`, a page whose cookie text holds no truthy token
      reads the token back from `localStorage`. */
  lemma SavedTokenReadBack(st: Stores, cfg: AppConfig, token: string, now: int,
                           encode: string -> string, utc: int -> string,
                           documentCookie: string, decode: string -> string)
    requires !Truthy(ReadCookie(cfg.tokenKey, None, true, documentCookie, decode))
    ensures GetAuthToken(TokenSaved(st, cfg, token, now, encode, utc), true, cfg, None, documentCookie, decode) == Some(token)
  {
  }

  /** What `logout` leaves on a page with a window: no token or user entry in
      `localStorage`, and an expiring line for the token cookie only. */
  function LoggedOut(st: Stores, cfg: AppConfig): (r: Stores)
    ensures Item(r.local, cfg.tokenKey) == None && Item(r.local, cfg.userStorageKey) == None
    ensures forall k :: k != cfg.tokenKey && k != cfg.userStorageKey ==> Item(r.local, k) == Item(st.local, k)
    ensures r.cookies == st.cookies && r.session == st.session
    ensures r.cookieWrites == st.cookieWrites + [DeleteLine(cfg.tokenKey, "/")]
  {
    st.(local := st.local - {cfg.tokenKey, cfg.userStorageKey},
        cookieWrites := st.cookieWrites + [DeleteLine(cfg.tokenKey, "/")])
  }

  /** `logout`: `false` without a window, where `localStorage` throws first. */
  method Logout(b: Browser, cfg: AppConfig) returns (ok: bool)
    modifies b
    ensures ok == b.hasWindow
    ensures b.State() == if b.hasWindow then LoggedOut(old(b.State()), cfg) else old(b.State())
  {
    if !b.hasWindow {
      return false;
    }
    b.RemoveLocal(cfg.tokenKey);
    b.RemoveLocal(cfg.userStorageKey);
    var r := DeleteCookie(b, cfg.tokenKey, "/");
    return true;
  }

  /** After `logout`, the token is gone unless the cookie text still carries
      one: the expiring line is only a request to the browser. */
  lemma LoggedOutToken(st: Stores, cfg: AppConfig, documentCookie: string, decode: string -> string)
    ensures var c := ReadCookie(cfg.tokenKey, None, true, documentCookie, decode);
      GetAuthToken(LoggedOut(st, cfg), true, cfg, None, documentCookie, decode) == if Truthy(c) then c else None
  {
  }

  /** The object `setUserInfo` puts in its cookie: only `id`, `name` and
      `role`, those the user object has (`JSON.stringify` drops the missing
      ones). */
  function SafeUserInfo(user: map<string, string>): (r: map<string, string>)
    ensures r.Keys == user.Keys * SafeFields
    ensures forall k :: k in r ==> r[k] == user[k]
  {
    map k | k in user && k in SafeFields :: user[k]
  }

  /** `setUserInfo(userInfo)`: `localStorage` gets the whole object and the
      cookie only its safe part. A null user is stored as "null" before
      reading its `id` throws, so the answer is `false` with `localStorage`
      already written; without a window nothing is written. `stringify`
      stands for `JSON.stringify` of an object. */
  method SetUserInfo(b: Browser, cfg: AppConfig, user: Option<map<string, string>>,
                     stringify: map<string, string> -> string,
                     now: int, encode: string -> string, utc: int -> string) returns (ok: bool)
    modifies b
    ensures ok <==> b.hasWindow && user.Some?
    ensures !b.hasWindow ==> b.State() == old(b.State())
    ensures b.hasWindow && user.None? ==> b.State() == old(b.State()).(local := old(b.local)[cfg.userStorageKey := "null"])
    ensures b.hasWindow && user.Some? ==>
      b.State() == old(b.State()).(
        local := old(b.local)[cfg.userStorageKey := stringify(user.value)],
        cookieWrites := old(b.cookieWrites)
          + [CookieLine(cfg.userStorageKey, stringify(SafeUserInfo(user.value)), DefaultDays, "/", now, encode, utc)])
  {
    if !b.hasWindow {
      return false;
    }
    if user.None? {
      b.SetLocal(cfg.userStorageKey, "null");
      return false;
    }
    b.SetLocal(cfg.userStorageKey, stringify(user.value));
    var r := SetCookie(b, cfg.userStorageKey, stringify(SafeUserInfo(user.value)), DefaultDays, "/", now, encode, utc);
    return true;
  }

  /** `getUserInfo(cookieString)`: the cookie when it parses; on a missing or
      unparsable cookie, the `localStorage` entry where one exists (null when
      it is empty or does not parse). `parseJson` stands for `JSON.parse`. */
  function GetUserInfo<J>(st: Stores, hasWindow: bool, cfg: AppConfig, cookieString: Option<string>,
                          documentCookie: string, decode: string -> string,
                          parseJson: string -> Option<J>): Option<J>
  {
    var c := ReadCookie(cfg.userStorageKey, cookieString, hasWindow, documentCookie, decode);
    if Truthy(c) && parseJson(c.value).Some? then parseJson(c.value)
    else if !hasWindow then None
    else
      var l := Item(st.local, cfg.userStorageKey);
      if Truthy(l) then parseJson(l.value) else None
  }

  /** A cookie that does not parse is skipped, and `localStorage` answers. */
  lemma UnparsableCookieFallsBack<J>(st: Stores, cfg: AppConfig, documentCookie: string,
                                     decode: string -> string, parseJson: string -> Option<J>)
    requires var c := ReadCookie(cfg.userStorageKey, None, true, documentCookie, decode);
      Truthy(c) && parseJson(c.value).None?
    requires Truthy(Item(st.local, cfg.userStorageKey))
    ensures GetUserInfo(st, true, cfg, None, documentCookie, decode, parseJson)
      == parseJson(st.local[cfg.userStorageKey])
  {
  }

  /** On the server only the cookie counts. */
  lemma ServerUserInfo<J>(st: Stores, cfg: AppConfig, cookieString: Option<string>,
                          decode: string -> string, parseJson: string -> Option<J>)
    ensures var c := ReadCookie(cfg.userStorageKey, cookieString, false, "", decode);
      GetUserInfo(st, false, cfg, cookieString, "", decode, parseJson)
        == if Truthy(c) then parseJson(c.value) else None
  {
  }
}
