/**
 * The credentials sign-in and its callbacks (auth.config.ts): `authorize`
 * checks an email and password against the user table, the `jwt` callback
 * copies the signed-in user into the token, the `session` callback copies the
 * token into the session, and `authorized` decides access by path and role.
 *
 * The user table is a map from email to row.  Password verification and
 * backend-token generation are the function parameters `verify` and
 * `backendToken`; `failure` stands for any exception raised by the database
 * or by verification, which the `catch` turns into a refusal.
 */
module AuthConfig {

  import opened Wrappers
  import opened Text
  import opened Types

  /** A user row with its Admin and Doctor relations (their ids, when present). */
  datatype DbUser = DbUser(
    id: string,
    email: Option<string>,
    name: Option<string>,
    password: Option<string>,
    status: UserStatus,
    adminId: Option<string>,
    doctorId: Option<string>)

  datatype Credentials = Credentials(email: Option<string>, password: Option<string>)

  /** The user object `authorize` hands to NextAuth. */
  datatype AuthUser = AuthUser(
    id: string,
    email: string,
    name: string,
    role: UserRole,
    status: UserStatus,
    membershipActive: Option<bool>,
    adminId: Option<string>,
    doctorId: Option<string>,
    backendToken: string)

  /** The role the relations give: admin first, then doctor, otherwise patient. */
  function RoleOf(u: DbUser): (r: UserRole)
    ensures r == AdminUser <==> u.adminId.Some?
    ensures r == DoctorUser <==> u.adminId.None? && u.doctorId.Some?
    ensures r == PatientUser <==> u.adminId.None? && u.doctorId.None?
    ensures r != AllyUser && r != PublicUser
  {
    if u.adminId.Some? then AdminUser else if u.doctorId.Some? then DoctorUser else PatientUser
  }

  /** When `authorize` lets a user in: all checks pass and nothing threw. */
  predicate Admits(db: map<string, DbUser>, c: Credentials, verify: (string, string) -> bool, failure: bool) {
    && Present(c.email) && Present(c.password) && !failure
    && c.email.value in db
    && Present(db[c.email.value].password)
    && verify(c.password.value, db[c.email.value].password.value)
    && db[c.email.value].status == UserActivo
  }

  /**
   * `authorize`.  Missing credentials, an unknown email, a row without a
   * password, a wrong password, an inactive or suspended account and any
   * exception all give null; otherwise the user comes back with the role its
   * relations give and no membership flag.
   */
  method Authorize(db: map<string, DbUser>, c: Credentials, verify: (string, string) -> bool,
                   backendToken: (string, UserRole, string) -> string, failure: bool)
    returns (r: Option<AuthUser>)
    ensures !Present(c.email) || !Present(c.password) ==> r.None?
    ensures r.Some? <==> Admits(db, c, verify, failure)
    ensures r.Some? ==>
      var u := db[c.email.value];
      && r.value.id == u.id
      && r.value.email == u.email.GetOr("")
      && r.value.name == OrElse(u.name, "")
      && r.value.role == RoleOf(u)
      && r.value.status == UserActivo
      && r.value.membershipActive.None?
      && (r.value.adminId.Some? <==> r.value.role == AdminUser)
      && (r.value.doctorId.Some? <==> r.value.role == DoctorUser)
      && (r.value.role == AdminUser ==> r.value.adminId == u.adminId)
      && (r.value.role == DoctorUser ==> r.value.doctorId == u.doctorId)
      && r.value.backendToken == backendToken(u.id, RoleOf(u), u.email.GetOr(""))
  {
    if !Present(c.email) || !Present(c.password) {
      return None;
    }
    if failure {
      return None;
    }
    if c.email.value !in db {
      return None;
    }
    var u := db[c.email.value];
    if !Present(u.password) {
      return None;
    }
    if !verify(c.password.value, u.password.value) {
      return None;
    }
    if u.status != UserActivo {
      // the thrown error is caught by the surrounding `try`
      return None;
    }
    var role := PatientUser;
    var adminId: Option<string> := None;
    var doctorId: Option<string> := None;
    if u.adminId.Some? {
      role := AdminUser;
      adminId := u.adminId;
    } else if u.doctorId.Some? {
      role := DoctorUser;
      doctorId := u.doctorId;
    }
    var email := u.email.GetOr("");
    var token := backendToken(u.id, role, email);
    r := Some(AuthUser(u.id, email, OrElse(u.name, ""), role, u.status, None, adminId, doctorId, token));
  }

  /** What NextAuth passes as `trigger`. */
  datatype Trigger = SignInTrigger | SignUpTrigger | UpdateTrigger

  /** The client's `update(...)` payload. */
  datatype SessionUpdate = SessionUpdate(name: Option<string>)

  /** The JWT the session is kept in. */
  class Token {
    var id: Option<string>
    var role: Option<UserRole>
    var email: Option<string>
    var name: Option<string>
    var status: Option<UserStatus>
    var membershipActive: Option<bool>
    var adminId: Option<string>
    var doctorId: Option<string>
    var backendToken: Option<string>

    constructor ()
      ensures id.None? && role.None? && email.None? && name.None? && status.None?
      ensures membershipActive.None? && adminId.None? && doctorId.None? && backendToken.None?
    {
      id, role, email, name, status := None, None, None, None, None;
      membershipActive, adminId, doctorId, backendToken := None, None, None, None;
    }

    /**
     * The `jwt` callback: a sign-in copies the user in; an update with a
     * payload then replaces the name and nothing else.
     */
    method Jwt(user: Option<AuthUser>, trigger: Option<Trigger>, session: Option<SessionUpdate>)
      modifies this
      ensures user.Some? ==>
        && id == Some(user.value.id) && role == Some(user.value.role) && email == Some(user.value.email)
        && status == Some(user.value.status) && membershipActive == user.value.membershipActive
        && adminId == user.value.adminId && doctorId == user.value.doctorId
        && backendToken == Some(user.value.backendToken)
      ensures user.None? ==>
        && id == old(id) && role == old(role) && email == old(email) && status == old(status)
        && membershipActive == old(membershipActive) && adminId == old(adminId) && doctorId == old(doctorId)
        && backendToken == old(backendToken)
      ensures trigger == Some(UpdateTrigger) && session.Some? ==> name == session.value.name
      ensures !(trigger == Some(UpdateTrigger) && session.Some?) ==>
        name == if user.Some? then Some(user.value.name) else old(name)
    {
      if user.Some? {
        var u := user.value;
        id := Some(u.id);
        role := Some(u.role);
        email := Some(u.email);
        name := Some(u.name);
        status := Some(u.status);
        membershipActive := u.membershipActive;
        adminId := u.adminId;
        doctorId := u.doctorId;
        backendToken := Some(u.backendToken);
      }
      if trigger == Some(UpdateTrigger) && session.Some? {
        name := session.value.name;
      }
    }
  }

  /** The user part of the session the client sees. */
  class SessionView {
    var hasUser: bool
    var id: Option<string>
    var role: Option<UserRole>
    var email: Option<string>
    var name: Option<string>
    var status: Option<UserStatus>
    var membershipActive: Option<bool>
    var adminId: Option<string>
    var doctorId: Option<string>
    var backendToken: Option<string>

    constructor (hasUser: bool)
      ensures this.hasUser == hasUser
      ensures id.None? && role.None? && email.None? && name.None? && status.None?
      ensures membershipActive.None? && adminId.None? && doctorId.None? && backendToken.None?
    {
      this.hasUser := hasUser;
      id, role, email, name, status := None, None, None, None, None;
      membershipActive, adminId, doctorId, backendToken := None, None, None, None;
    }

    /** The `session` callback: when the session has a user part, every token field is copied into it. */
    method FromToken(t: Token)
      modifies this
      ensures hasUser == old(hasUser)
      ensures hasUser ==>
        && id == t.id && role == t.role && email == t.email && name == t.name && status == t.status
        && membershipActive == t.membershipActive && adminId == t.adminId && doctorId == t.doctorId
        && backendToken == t.backendToken
      ensures !hasUser ==>
        && id == old(id) && role == old(role) && email == old(email) && name == old(name) && status == old(status)
        && membershipActive == old(membershipActive) && adminId == old(adminId) && doctorId == old(doctorId)
        && backendToken == old(backendToken)
    {
      if hasUser {
        id, role, email, name, status := t.id, t.role, t.email, t.name, t.status;
        membershipActive, adminId, doctorId, backendToken := t.membershipActive, t.adminId, t.doctorId, t.backendToken;
      }
    }
  }

  /** `useSession().status`, as the pages and layouts read it. */
  datatype SessionStatus = Loading | Authenticated | Unauthenticated

  /** `session.user` as the pages read it: every field may be missing. */
  datatype SessionUser = SessionUser(
    id: Option<string>,
    role: Option<UserRole>,
    email: Option<string>,
    name: Option<string>,
    membershipActive: Option<bool>,
    adminId: Option<string>,
    doctorId: Option<string>)

  /**
   * A credentials sign-in end to end: `authorize`, then `jwt` with the
   * returned user, then `session`.  A successful sign-in leaves the session
   * without a membership flag whatever the account holds.
   */
  method SignIn(db: map<string, DbUser>, c: Credentials, verify: (string, string) -> bool,
                backendToken: (string, UserRole, string) -> string, failure: bool, t: Token, view: SessionView)
    returns (user: Option<AuthUser>)
    requires view.hasUser
    modifies t, view
    ensures user.Some? <==> Admits(db, c, verify, failure)
    ensures user.Some? ==> t.membershipActive.None? && view.membershipActive.None?
    ensures user.Some? ==> view.role == Some(RoleOf(db[c.email.value])) && view.role != Some(AllyUser)
  {
    user := Authorize(db, c, verify, backendToken, failure);
    t.Jwt(user, Some(SignInTrigger), None);
    view.FromToken(t);
  }

  // ---- authorized --------------------------------------------------------

  predicate OnDashboard(path: string) { StartsWith(path, "/dashboard") }
  predicate OnDoctor(path: string) { StartsWith(path, "/doctor") }
  predicate OnAdmin(path: string) { StartsWith(path, "/admin") }
  predicate OnAlly(path: string) { StartsWith(path, "/aliado") }

  /** The prefixes `authorized` protects. */
  predicate Protected(path: string) {
    OnDashboard(path) || OnDoctor(path) || OnAdmin(path) || OnAlly(path)
  }

  /**
   * The `authorized` callback; `sessionRole` is the signed-in user's role, or
   * None when there is no session user.
   */
  function Authorized(sessionRole: Option<UserRole>, path: string): (allowed: bool)
    ensures !Protected(path) ==> allowed
    ensures Protected(path) && sessionRole.None? ==> !allowed
    ensures allowed && OnDoctor(path) ==> sessionRole == Some(DoctorUser)
    ensures allowed && OnAdmin(path) ==> sessionRole == Some(AdminUser)
    ensures allowed && OnAlly(path) ==> sessionRole == Some(AllyUser)
    ensures sessionRole.Some? && !OnDoctor(path) && !OnAdmin(path) && !OnAlly(path) ==> allowed
    ensures (&& sessionRole.Some?
             && (OnDoctor(path) ==> sessionRole == Some(DoctorUser))
             && (OnAdmin(path) ==> sessionRole == Some(AdminUser))
             && (OnAlly(path) ==> sessionRole == Some(AllyUser)))
            ==> allowed
  {
    if Protected(path) then
      if sessionRole.None? then false
      else if OnDoctor(path) && sessionRole.value != DoctorUser then false
      else if OnAdmin(path) && sessionRole.value != AdminUser then false
      else if OnAlly(path) && sessionRole.value != AllyUser then false
      else true
    else true
  }

  /** Any signed-in role may open the patient dashboard. */
  lemma DashboardAcceptsAnyRole(role: UserRole, rest: string)
    ensures Authorized(Some(role), "/dashboard" + rest)
  {
    assert ("/dashboard" + rest)[..|"/dashboard"|] == "/dashboard";
    assert !OnDoctor("/dashboard" + rest) by {
      assert ("/dashboard" + rest)[2] == 'a';
    }
    assert !OnAdmin("/dashboard" + rest) by {
      assert ("/dashboard" + rest)[1] == 'd';
    }
    assert !OnAlly("/dashboard" + rest) by {
      assert ("/dashboard" + rest)[2] != 'l';
    }
  }

  /**
   * The prefix test has no "/" boundary, so the public partner list
   * "/aliados" is caught by the "/aliado" rule and has to be an ally's.
   */
  lemma AllyListNeedsAllyRole(role: Option<UserRole>)
    ensures Authorized(role, "/aliados") <==> role == Some(AllyUser)
  {
    assert OnAlly("/aliados");
    assert !OnDoctor("/aliados") by { assert "/aliados"[1] != "/doctor"[1]; }
    assert !OnAdmin("/aliados") by { assert "/aliados"[2] != "/admin"[2]; }
    assert !OnDashboard("/aliados") by { assert "/aliados"[1] != "/dashboard"[1]; }
  }

  /** `authorize` never produces a role that the ally pages accept. */
  lemma AuthorizedUsersNeverReachAllyPages(u: DbUser, rest: string)
    ensures !Authorized(Some(RoleOf(u)), "/aliado" + rest)
  {
    assert ("/aliado" + rest)[..|"/aliado"|] == "/aliado";
  }
}
