/** The request middleware's redirect decision, from the `token` cookie and the request path. */
module Middleware {
  import opened Wrappers
  import opened Text

  datatype Decision = RedirectToLogin | RedirectToHome | PassThrough

  const PublicRoutes: seq<string> := ["/login", "/register"]

  /** `publicRoutes.some(route => pathname.startsWith(route))`. */
  function AnyPrefix(routes: seq<string>, pathname: string): (r: bool)
    ensures r <==> exists i :: 0 <= i < |routes| && StartsWith(pathname, routes[i])
  {
    if routes == [] then false
    else
      var rest := AnyPrefix(routes[1..], pathname);
      assert forall i :: 1 <= i < |routes| ==> routes[1..][i - 1] == routes[i];
      StartsWith(pathname, routes[0]) || rest
  }

  predicate IsPublicRoute(pathname: string)
  {
    AnyPrefix(PublicRoutes, pathname)
  }

  /** A missing cookie and an empty cookie value are both falsy. */
  predicate HasToken(token: Option<string>)
  {
    token.Some? && token.value != ""
  }

  /** `middleware`: protected paths need a token, public paths are for visitors without one. */
  function Decide(token: Option<string>, pathname: string): (d: Decision)
    ensures d == RedirectToLogin <==> !HasToken(token) && !IsPublicRoute(pathname)
    ensures d == RedirectToHome <==> HasToken(token) && IsPublicRoute(pathname)
    ensures d == PassThrough <==> (HasToken(token) <==> !IsPublicRoute(pathname))
  {
    if !HasToken(token) && !IsPublicRoute(pathname) then RedirectToLogin
    else if HasToken(token) && IsPublicRoute(pathname) then RedirectToHome
    else PassThrough
  }

  /** Public means starting with "/login" or "/register", so "/loginx" is public and "/" is not. */
  lemma PublicRoutesByPrefix(pathname: string)
    ensures IsPublicRoute(pathname) <==> StartsWith(pathname, "/login") || StartsWith(pathname, "/register")
    ensures IsPublicRoute("/loginx") && !IsPublicRoute("/")
  {
    assert PublicRoutes[0] == "/login" && PublicRoutes[1] == "/register";
    assert StartsWith("/loginx", PublicRoutes[0]) by {
      assert "/loginx"[..6] == "/login";
    }
  }

  /** Following a redirect with the same cookie is never redirected again: a visitor sent to
      /login stays there, a signed-in user sent to / stays there. */
  lemma RedirectsSettle(token: Option<string>, pathname: string)
    ensures Decide(token, pathname) == RedirectToLogin ==> Decide(token, "/login") == PassThrough
    ensures Decide(token, pathname) == RedirectToHome ==> Decide(token, "/") == PassThrough
  {
    PublicRoutesByPrefix("/login");
    PublicRoutesByPrefix("/");
    assert "/login"[..6] == "/login";
  }
}
