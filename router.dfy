/** frontend/src/app/providers/router/index.ts: the route table and the
    navigation guard that sends a visitor without a token to the login
    page. */
module Router {
  import opened Wrappers
  import opened Browser

  /** A matched route record: its name and whether its `meta.requiresAuth`
      is truthy. */
  datatype RouteRecord = RouteRecord(path: string, name: string, requiresAuth: bool)

  /** The four routes, in order. */
  const Routes: seq<RouteRecord> := [
    RouteRecord("/", "Home", false),
    RouteRecord("/login", "Login", false),
    RouteRecord("/oauth2/callback", "OAuthCallback", false),
    RouteRecord("/profile", "Profile", true)]

  /** What the guard passes to `next`: nothing, or a location by name. */
  datatype Decision = Proceed | RedirectTo(name: string)

  /** `to.matched.some(record => record.meta.requiresAuth)`. */
  predicate Protected(matched: seq<RouteRecord>)
  {
    exists i :: 0 <= i < |matched| && matched[i].requiresAuth
  }

  /** The `beforeEach` guard, given `localStorage.getItem('token')`. */
  function Guard(matched: seq<RouteRecord>, token: Option<string>): (r: Decision)
  {
    if Protected(matched) then (if !Truthy(token) then RedirectTo("Login") else Proceed) else Proceed
  }

  /** A redirect happens exactly for a protected route without a truthy
      token, always to the route named Login and with no record of where the
      visitor was going. */
  lemma GuardDecides(matched: seq<RouteRecord>, token: Option<string>)
    ensures Guard(matched, token) != Proceed <==> Protected(matched) && !Truthy(token)
    ensures Guard(matched, token) != Proceed ==> Guard(matched, token) == RedirectTo("Login")
    ensures Guard(matched, token).RedirectTo? ==> Guard(matched, token).name in set r | r in Routes :: r.name
  {
    assert Routes[1].name == "Login";
  }

  /** An empty token counts as none; a signed-in visitor going to the login
      page is let through, not sent elsewhere. */
  lemma GuardCases(token: string)
    ensures Guard([Routes[3]], Some("")) == RedirectTo("Login")
    ensures Guard([Routes[3]], None) == RedirectTo("Login")
    ensures token != "" ==> Guard([Routes[3]], Some(token)) == Proceed
    ensures Guard([Routes[1]], Some(token)) == Proceed
  {
    assert Protected([Routes[3]]) by {
      assert [Routes[3]][0].requiresAuth;
    }
  }

  /** The guard reads the fixed key 'token' of `localStorage`. */
  function GuardOnPage(matched: seq<RouteRecord>, local: map<string, string>): Decision
  {
    Guard(matched, Item(local, "token"))
  }

  /** Only the profile route is protected, so the login page is never
      redirected, whatever the stores hold. */
  lemma OnlyProfileProtected(local: map<string, string>)
    ensures forall i :: 0 <= i < |Routes| ==> (Routes[i].requiresAuth <==> Routes[i].name == "Profile")
    ensures GuardOnPage([Routes[1]], local) == Proceed
  {
  }
}
