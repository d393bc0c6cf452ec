/**
 * The route-protection middleware (middleware.ts): public routes and the API
 * pass through; every other path passes only when one of the four session
 * cookies is present, and otherwise goes to the login page with the original
 * path as `callbackUrl`.  Cookies are a map from name to value.
 */
module Middleware {

  import opened Text

  datatype Decision = Next | RedirectToLogin(callbackUrl: string)

  const PublicRoutes: seq<string> := [
    "/", "/login", "/registro", "/servicios", "/especialidades",
    "/medicos", "/membresias", "/promociones", "/contacto", "/aliados"
  ]

  const SessionCookies: seq<string> := [
    "authjs.session-token", "__Secure-authjs.session-token",
    "next-auth.session-token", "__Secure-next-auth.session-token"
  ]

  /** `pathname === route || pathname.startsWith(route + '/')`. */
  predicate MatchesRoute(path: string, route: string) {
    path == route || StartsWith(path, route + "/")
  }

  /** `routes.some(...)`, walked left to right. */
  function AnyRouteMatches(path: string, routes: seq<string>): (b: bool)
    ensures b <==> exists i :: 0 <= i < |routes| && MatchesRoute(path, routes[i])
  {
    if routes == [] then false
    else if MatchesRoute(path, routes[0]) then true
    else
      var rest := AnyRouteMatches(path, routes[1..]);
      assert forall i :: 1 <= i < |routes| ==> routes[i] == routes[1..][i - 1];
      rest
  }

  predicate IsPublicRoute(path: string) {
    AnyRouteMatches(path, PublicRoutes)
  }

  /** Whether one of the four session cookies is set; its value is never read. */
  predicate HasSessionCookie(cookies: map<string, string>) {
    exists i :: 0 <= i < |SessionCookies| && SessionCookies[i] in cookies
  }

  /** `middleware`. */
  function Decide(path: string, cookies: map<string, string>): (d: Decision)
    ensures IsPublicRoute(path) || StartsWith(path, "/api/") ==> d == Next
    ensures !IsPublicRoute(path) && !StartsWith(path, "/api/") ==>
      (d == Next <==> HasSessionCookie(cookies))
    ensures d.RedirectToLogin? ==> d.callbackUrl == path
  {
    if IsPublicRoute(path) || StartsWith(path, "/api/") then Next
    else if HasSessionCookie(cookies) then Next
    else RedirectToLogin(path)
  }

  /** A path is public exactly when it is a listed route or lies below one. */
  lemma PublicIff(path: string)
    ensures IsPublicRoute(path) <==> exists r :: r in PublicRoutes && MatchesRoute(path, r)
  {
    if IsPublicRoute(path) {
      var i :| 0 <= i < |PublicRoutes| && MatchesRoute(path, PublicRoutes[i]);
      assert PublicRoutes[i] in PublicRoutes;
    }
  }

  /** The root entry only admits "/" itself and paths starting "//". */
  lemma RootEntry(path: string)
    ensures MatchesRoute(path, "/") <==> path == "/" || StartsWith(path, "//")
  {
  }

  /** Any path strictly below a public route is public, e.g. "/medicos/3". */
  lemma BelowPublicIsPublic(route: string, rest: string)
    requires route in PublicRoutes
    ensures IsPublicRoute(route + "/" + rest)
  {
    assert (route + "/" + rest)[..|route + "/"|] == route + "/";
    var i :| 0 <= i < |PublicRoutes| && PublicRoutes[i] == route;
    assert MatchesRoute(route + "/" + rest, PublicRoutes[i]);
  }

  /** When `path[k]` and `route[k]` differ, the path neither is nor lies below the route. */
  lemma DiffersAt(path: string, route: string, k: nat)
    requires k < |path| && k < |route| && path[k] != route[k]
    ensures !MatchesRoute(path, route)
  {
  }

  /** A path whose second character starts no public route except the root is protected. */
  lemma NotPublicBySecondChar(path: string)
    requires |path| >= 2 && path[0] == '/'
    requires path[1] != '/' && path[1] != 'l' && path[1] != 'r' && path[1] != 's' && path[1] != 'e'
    requires path[1] != 'm' && path[1] != 'p' && path[1] != 'c' && path[1] != 'a'
    ensures !IsPublicRoute(path)
  {
    forall i | 0 <= i < |PublicRoutes|
      ensures !MatchesRoute(path, PublicRoutes[i])
    {
      if i == 0 {
        DiffersAt(path, "//", 1);
      } else {
        DiffersAt(path, PublicRoutes[i], 1);
      }
    }
  }

  /** /admin paths match no public route: "/aliados" is told apart by its second character. */
  lemma AdminNotPublic(rest: string)
    ensures !IsPublicRoute("/admin" + rest)
  {
    var admin := "/admin" + rest;
    forall i | 0 <= i < |PublicRoutes|
      ensures !MatchesRoute(admin, PublicRoutes[i])
    {
      if i == 0 {
        DiffersAt(admin, "//", 1);
      } else if i == 9 {
        DiffersAt(admin, PublicRoutes[i], 2);
      } else {
        DiffersAt(admin, PublicRoutes[i], 1);
      }
    }
  }

  /** "/aliado/" paths match no public route: they part from "/aliados" at the slash. */
  lemma AllyAreaNotPublic(rest: string)
    ensures !IsPublicRoute("/aliado/" + rest)
  {
    var ally := "/aliado/" + rest;
    forall i | 0 <= i < |PublicRoutes|
      ensures !MatchesRoute(ally, PublicRoutes[i])
    {
      if i == 0 {
        DiffersAt(ally, "//", 1);
      } else if i == 9 {
        DiffersAt(ally, PublicRoutes[i], 7);
      } else {
        DiffersAt(ally, PublicRoutes[i], 1);
      }
    }
  }

  /** The four protected areas are not public. */
  lemma ProtectedAreasNotPublic(rest: string)
    ensures !IsPublicRoute("/admin" + rest)
    ensures !IsPublicRoute("/doctor" + rest)
    ensures !IsPublicRoute("/dashboard" + rest)
    ensures !IsPublicRoute("/aliado/" + rest)
  {
    NotPublicBySecondChar("/doctor" + rest);
    NotPublicBySecondChar("/dashboard" + rest);
    AdminNotPublic(rest);
    AllyAreaNotPublic(rest);
  }

  /** The decision reads only which cookies are present, never their values. */
  lemma OnlyCookieNamesMatter(path: string, c1: map<string, string>, c2: map<string, string>)
    requires c1.Keys == c2.Keys
    ensures Decide(path, c1) == Decide(path, c2)
  {
    assert forall i :: 0 <= i < |SessionCookies| ==> (SessionCookies[i] in c1 <==> SessionCookies[i] in c2);
  }

  /** Without a session cookie, a protected area sends the visitor to log in, remembering the path. */
  lemma ProtectedAreaRedirects(rest: string, cookies: map<string, string>)
    requires !HasSessionCookie(cookies)
    ensures Decide("/admin" + rest, cookies) == RedirectToLogin("/admin" + rest)
    ensures Decide("/doctor" + rest, cookies) == RedirectToLogin("/doctor" + rest)
    ensures Decide("/dashboard" + rest, cookies) == RedirectToLogin("/dashboard" + rest)
  {
    ProtectedAreasNotPublic(rest);
    assert !StartsWith("/admin" + rest, "/api/") by { assert ("/admin" + rest)[2] != "/api/"[2]; }
    assert !StartsWith("/doctor" + rest, "/api/") by { assert ("/doctor" + rest)[1] != "/api/"[1]; }
    assert !StartsWith("/dashboard" + rest, "/api/") by { assert ("/dashboard" + rest)[1] != "/api/"[1]; }
  }
}
