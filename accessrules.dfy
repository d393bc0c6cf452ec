/**
 * How the separate access rules relate: the cookie-only middleware
 * (middleware.ts), the role-aware `authorized` callback (auth.config.ts),
 * the two layouts and the landing URLs of the login form and the header.
 */
module AccessRules {

  import opened Wrappers
  import opened Text
  import opened Types
  import opened AuthConfig
  import Middleware
  import AuthHeader
  import LoginForm
  import AdminLayout
  import DoctorLayout

  /** The middleware lets any session cookie into /admin, while `authorized` turns away everyone but an admin. */
  lemma CookieAloneOpensAdmin(rest: string, cookies: map<string, string>, role: UserRole)
    requires Middleware.HasSessionCookie(cookies)
    ensures Middleware.Decide("/admin" + rest, cookies) == Middleware.Next
    ensures Authorized(Some(role), "/admin" + rest) <==> role == AdminUser
  {
    Middleware.ProtectedAreasNotPublic(rest);
    assert ("/admin" + rest)[..|"/admin"|] == "/admin";
    assert !OnDoctor("/admin" + rest) by { assert ("/admin" + rest)[1] != "/doctor"[1]; }
    assert !OnAlly("/admin" + rest) by { assert ("/admin" + rest)[2] != "/aliado"[2]; }
  }

  /**
   * The partner list is public for the middleware, but `authorized` asks for
   * the ally role there, a role `authorize` never gives.
   */
  lemma PartnerListRulesDisagree(cookies: map<string, string>, u: DbUser)
    ensures Middleware.Decide("/aliados", cookies) == Middleware.Next
    ensures !Authorized(None, "/aliados")
    ensures !Authorized(Some(RoleOf(u)), "/aliados")
  {
    var i := 9;
    assert Middleware.PublicRoutes[i] == "/aliados";
    assert Middleware.MatchesRoute("/aliados", Middleware.PublicRoutes[i]);
    AllyListNeedsAllyRole(None);
    AllyListNeedsAllyRole(Some(RoleOf(u)));
  }

  /**
   * The admin layout exempts /admin/login, but that path is not public: a
   * visitor without a session cookie is sent to /login before reaching it.
   */
  lemma AdminLoginBehindMiddleware(cookies: map<string, string>)
    requires !Middleware.HasSessionCookie(cookies)
    ensures Middleware.Decide(AdminLayout.LoginPath, cookies) == Middleware.RedirectToLogin(AdminLayout.LoginPath)
    ensures !Authorized(None, AdminLayout.LoginPath)
  {
    var p := AdminLayout.LoginPath;
    assert p == "/admin" + "/login";
    Middleware.ProtectedAreaRedirects("/login", cookies);
    assert OnAdmin(p) by { assert p[..|"/admin"|] == "/admin"; }
  }

  /** The header's dashboard link is a page `authorized` lets that role open. */
  lemma DashboardLinkAuthorized(role: UserRole)
    ensures Authorized(Some(role), AuthHeader.DashboardLink(Some(role)))
  {
    var link := AuthHeader.DashboardLink(Some(role));
    match role {
      case DoctorUser =>
        assert link[..|"/doctor"|] == "/doctor";
        assert !OnAdmin(link) by { assert link[1] != "/admin"[1]; }
        assert !OnAlly(link) by { assert link[1] != "/aliado"[1]; }
      case AdminUser =>
        assert !OnDoctor(link) by { assert link[1] != "/doctor"[1]; }
        assert !OnAlly(link) by { assert link[2] != "/aliado"[2]; }
      case AllyUser =>
        assert link[..|"/aliado"|] == "/aliado";
        assert !OnDoctor(link) by { assert link[1] != "/doctor"[1]; }
        assert !OnAdmin(link) by { assert link[2] != "/admin"[2]; }
      case PatientUser =>
        DashboardAcceptsAnyRole(role, "");
        assert "/dashboard" + "" == link;
      case PublicUser =>
        DashboardAcceptsAnyRole(role, "");
        assert "/dashboard" + "" == link;
    }
  }

  /** After a successful login the landing page is one `authorized` admits for the session's role. */
  lemma LoginLandsOnAuthorizedPage(role: UserRole)
    ensures Authorized(Some(role), LoginForm.RedirectFor(Some(role)))
  {
    LoginForm.RedirectAgreesWithHeader(Some(role));
    DashboardLinkAuthorized(role);
  }

  /** Whatever the admin layout draws below /admin other than its login page, `authorized` admits. */
  lemma AdminPanelAuthorized(path: string, status: SessionStatus, user: Option<SessionUser>)
    requires OnAdmin(path) && path != AdminLayout.LoginPath
    requires AdminLayout.ViewFor(path, status, user) == AdminLayout.Panel
    ensures Authorized(user.value.role, path)
  {
    assert !OnDoctor(path) by { assert path[1] != "/doctor"[1]; }
    assert !OnAlly(path) by { assert path[2] != "/aliado"[2]; }
  }

  /** Whatever the doctor layout draws below /doctor, `authorized` admits. */
  lemma DoctorPortalAuthorized(path: string, status: SessionStatus, user: Option<SessionUser>)
    requires OnDoctor(path)
    requires DoctorLayout.ViewFor(status, user) == DoctorLayout.Portal
    ensures Authorized(user.value.role, path)
  {
    assert !OnAdmin(path) by { assert path[1] != "/admin"[1]; }
    assert !OnAlly(path) by { assert path[1] != "/aliado"[1]; }
  }
}
