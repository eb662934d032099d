/**
 * The request gate in front of every page: visitors without a session
 * cookie are sent to the login page unless the path is public, and signed-in
 * users are sent from the login and register pages to the dashboard.
 */
module Middleware {
  import opened Wrappers

  const PublicRoutes: seq<string> := ["/", "/login", "/register"]
  const AuthRoutes: seq<string> := ["/login", "/register"]

  /** `publicRoutes.includes(pathname)`: an exact match. */
  predicate IsPublicRoute(pathname: string)
  {
    pathname in PublicRoutes
  }

  /** `authRoutes.includes(pathname)`: an exact match. */
  predicate IsAuthRoute(pathname: string)
  {
    pathname in AuthRoutes
  }

  /** A cookie that is missing or holds the empty string is no token. */
  predicate HasToken(token: Option<string>)
  {
    token.Some? && token.value != ""
  }

  datatype Outcome = Redirect(target: string) | Pass

  /** `middleware`: the first rule that applies decides. */
  function Decide(pathname: string, token: Option<string>): (r: Outcome)
    ensures r == Redirect("/login") <==> !HasToken(token) && !IsPublicRoute(pathname)
    ensures r == Redirect("/dashboard") <==> HasToken(token) && IsAuthRoute(pathname)
    ensures r.Pass? <==> if HasToken(token) then !IsAuthRoute(pathname) else IsPublicRoute(pathname)
    ensures r.Redirect? ==> r.target == "/login" || r.target == "/dashboard"
  {
    if !HasToken(token) && !IsPublicRoute(pathname) then Redirect("/login")
    else if HasToken(token) && IsAuthRoute(pathname) then Redirect("/dashboard")
    else Pass
  }

  /** The landing page is open to everyone. */
  lemma RootAlwaysPasses(token: Option<string>)
    ensures Decide("/", token) == Pass
  {
  }

  /** A signed-in user is never sent to the login page. */
  lemma TokenNeverToLogin(pathname: string, token: Option<string>)
    requires HasToken(token)
    ensures Decide(pathname, token) != Redirect("/login")
  {
  }

  /** Matching is exact: a trailing slash makes the login page a protected path. */
  lemma TrailingSlashIsProtected()
    ensures Decide("/login/", None) == Redirect("/login")
    ensures Decide("/login/", Some("t")) == Pass
  {
    assert "/login/" != "/login" by { assert |"/login/"| != |"/login"|; }
  }

  /** Every authentication page is public, so nobody is sent away from the page a redirect names. */
  lemma AuthRoutesArePublic(pathname: string)
    requires IsAuthRoute(pathname)
    ensures IsPublicRoute(pathname)
  {
  }

  /** Following a redirect with the same cookie lands on a page that lets the request through. */
  lemma NoRedirectLoop(pathname: string, token: Option<string>)
    requires Decide(pathname, token).Redirect?
    ensures Decide(Decide(pathname, token).target, token) == Pass
  {
    if HasToken(token) {
      assert !IsAuthRoute("/dashboard");
    } else {
      assert IsPublicRoute("/login");
    }
  }
}
