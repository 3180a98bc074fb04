/** The browser state the frontend's token helpers read and write: the cookie
    jar as universal-cookie sees it, `localStorage`, `sessionStorage`, and the
    raw strings assigned to `document.cookie`.  Whether a `window` exists, the
    page's protocol and its host name are fixed per page. */
module Browser {
  import opened Wrappers

  /** The storage keys of `APP_CONFIG` (the configuration file is not part of
      this model, so they are parameters). */
  datatype AppConfig = AppConfig(tokenKey: string, userStorageKey: string)

  /** A cookie as universal-cookie's `set` stores it, with its options. */
  datatype Cookie = Cookie(value: string, path: string, maxAge: int, sameSite: string, secure: bool)

  /** The three stores and the `document.cookie` write log, as one value. */
  datatype Stores = Stores(
    cookies: map<string, Cookie>,
    local: map<string, string>,
    session: map<string, string>,
    cookieWrites: seq<string>)

  /** JavaScript truthiness of a string that may be null or undefined. */
  predicate Truthy(v: Option<string>)
  {
    v.Some? && v.value != ""
  }

  /** JavaScript's `a || b` on strings that may be missing. */
  function Or(a: Option<string>, b: Option<string>): (r: Option<string>)
    ensures Truthy(r) <==> Truthy(a) || Truthy(b)
    ensures Truthy(a) ==> r == a
  {
    if Truthy(a) then a else b
  }

  /** `storage.getItem(key)`. */
  function Item(m: map<string, string>, key: string): (r: Option<string>)
    ensures r.Some? <==> key in m
  {
    if key in m then Some(m[key]) else None
  }

  /** universal-cookie's `get(key)` on the jar. */
  function CookieValue(m: map<string, Cookie>, key: string): (r: Option<string>)
    ensures r.Some? <==> key in m
  {
    if key in m then Some(m[key].value) else None
  }

  class Browser {
    /** `typeof window !== 'undefined'`. */
    const hasWindow: bool
    /** `window.location.protocol === 'https:'`. */
    const https: bool
    /** `window.location.hostname`. */
    const hostname: string
    var cookies: map<string, Cookie>
    var local: map<string, string>
    var session: map<string, string>
    var cookieWrites: seq<string>

    /** A page with empty storages. */
    constructor(hasWindow: bool, https: bool, hostname: string)
      ensures this.hasWindow == hasWindow && this.https == https && this.hostname == hostname
      ensures State() == Stores(map[], map[], map[], [])
    {
      this.hasWindow := hasWindow;
      this.https := https;
      this.hostname := hostname;
      cookies, local, session, cookieWrites := map[], map[], map[], [];
    }

    function State(): Stores
      reads this
    {
      Stores(cookies, local, session, cookieWrites)
    }

    /** `cookies.set(key, value, options)`. */
    method SetCookie(key: string, cookie: Cookie)
      modifies this
      ensures State() == old(State()).(cookies := old(cookies)[key := cookie])
    {
      cookies := cookies[key := cookie];
    }

    /** `cookies.remove(key)`. */
    method RemoveCookie(key: string)
      modifies this
      ensures State() == old(State()).(cookies := old(cookies) - {key})
    {
      cookies := cookies - {key};
    }

    /** `localStorage.setItem(key, value)`. */
    method SetLocal(key: string, value: string)
      modifies this
      ensures State() == old(State()).(local := old(local)[key := value])
    {
      local := local[key := value];
    }

    /** `localStorage.removeItem(key)`. */
    method RemoveLocal(key: string)
      modifies this
      ensures State() == old(State()).(local := old(local) - {key})
    {
      local := local - {key};
    }

    /** `sessionStorage.setItem(key, value)`. */
    method SetSession(key: string, value: string)
      modifies this
      ensures State() == old(State()).(session := old(session)[key := value])
    {
      session := session[key := value];
    }

    /** `sessionStorage.removeItem(key)`. */
    method RemoveSession(key: string)
      modifies this
      ensures State() == old(State()).(session := old(session) - {key})
    {
      session := session - {key};
    }

    /** `document.cookie = line`: recorded as written; how the browser folds
        it into its jar is not part of this model. */
    method WriteDocumentCookie(line: string)
      modifies this
      ensures State() == old(State()).(cookieWrites := old(cookieWrites) + [line])
    {
      cookieWrites := cookieWrites + [line];
    }
  }
}
