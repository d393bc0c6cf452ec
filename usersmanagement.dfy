/**
 * The admin user list (components/admin/pages/users-management.tsx): search
 * and role filters over the loaded users, the role the relations give, and
 * the load, add, edit and delete handlers.  Each awaited API call is an
 * `Outcome` parameter; the confirmation dialog is the `confirmed` flag.
 */
module UsersManagement {

  import opened Wrappers
  import opened Text
  import opened Lists
  import opened Types

  /** The role select: "all", "admin", "doctor" or "patient". */
  datatype RoleFilter = AnyRole | AdminsOnly | DoctorsOnly | PatientsOnly

  /** Name (when there is one) or email contains the term, ignoring case. */
  predicate MatchesSearch(u: ApiUser, term: string) {
    (u.name.Some? && ContainsIgnoringCase(u.name.value, term)) || ContainsIgnoringCase(u.email, term)
  }

  predicate MatchesRole(u: ApiUser, f: RoleFilter) {
    match f
    case AnyRole => true
    case AdminsOnly => u.admin.Some?
    case DoctorsOnly => u.doctor.Some?
    case PatientsOnly => u.admin.None? && u.doctor.None?
  }

  function FilteredUsers(users: seq<ApiUser>, term: string, f: RoleFilter): (r: seq<ApiUser>)
    ensures forall u :: u in r <==> u in users && MatchesSearch(u, term) && MatchesRole(u, f)
    ensures IsSubsequence(r, users)
    ensures forall u :: multiset(r)[u] == if MatchesSearch(u, term) && MatchesRole(u, f) then multiset(users)[u] else 0
  {
    Filter(users, (u: ApiUser) => MatchesSearch(u, term) && MatchesRole(u, f))
  }

  /** With no term and no role filter every user is listed, in order. */
  lemma EmptyFilterListsAll(users: seq<ApiUser>)
    ensures FilteredUsers(users, "", AnyRole) == users
  {
    forall u | u in users ensures MatchesSearch(u, "") {
      ContainsIgnoringCaseEmpty(u.email);
    }
    FilterAll(users, (u: ApiUser) => MatchesSearch(u, "") && MatchesRole(u, AnyRole));
  }

  /** `getUserRole`: admin relation first, then doctor, otherwise patient. */
  function UserRoleOf(u: ApiUser): (r: UserRole)
    ensures r == AdminUser <==> u.admin.Some?
    ensures r == DoctorUser <==> u.admin.None? && u.doctor.Some?
    ensures r == PatientUser <==> u.admin.None? && u.doctor.None?
  {
    if u.admin.Some? then AdminUser else if u.doctor.Some? then DoctorUser else PatientUser
  }

  /** `getRoleLabel`. */
  function RoleLabel(u: ApiUser): (r: string)
    ensures r == "Administrador" <==> UserRoleOf(u) == AdminUser
    ensures r == "Doctor" <==> UserRoleOf(u) == DoctorUser
    ensures r == "Paciente" <==> UserRoleOf(u) == PatientUser
  {
    if u.admin.Some? then "Administrador" else if u.doctor.Some? then "Doctor" else "Paciente"
  }

  /** The patient filter is exactly the patient role; the other two filters contain their role. */
  lemma RoleFilterAgreesWithRole(u: ApiUser)
    ensures MatchesRole(u, PatientsOnly) <==> UserRoleOf(u) == PatientUser
    ensures UserRoleOf(u) == AdminUser ==> MatchesRole(u, AdminsOnly)
    ensures UserRoleOf(u) == DoctorUser ==> MatchesRole(u, DoctorsOnly)
  {
  }

  /** A user with both relations is listed under both filters and labelled an administrator. */
  lemma BothRelations(u: ApiUser)
    requires u.admin.Some? && u.doctor.Some?
    ensures MatchesRole(u, AdminsOnly) && MatchesRole(u, DoctorsOnly) && !MatchesRole(u, PatientsOnly)
    ensures RoleLabel(u) == "Administrador"
  {
  }

  /** `statusLabels`: every status is shown under its own name. */
  function StatusLabel(s: UserStatus): (r: string)
    ensures r == "Activo" <==> s == UserActivo
    ensures r == "Inactivo" <==> s == UserInactivo
    ensures r == "Suspendido" <==> s == UserSuspendido
  {
    match s
    case UserActivo => "Activo"
    case UserInactivo => "Inactivo"
    case UserSuspendido => "Suspendido"
  }

  class UsersPage {
    var users: seq<ApiUser>
    var searchTerm: string
    var filterRole: RoleFilter
    var openDialog: bool
    var editingUser: Option<ApiUser>
    var loading: bool
    var error: Option<string>
    var submitting: bool

    constructor ()
      ensures users == [] && searchTerm == "" && filterRole == AnyRole && !openDialog
      ensures editingUser.None? && loading && error.None? && !submitting
    {
      users, searchTerm, filterRole, openDialog := [], "", AnyRole, false;
      editingUser, loading, error, submitting := None, true, None, false;
    }

    /** The rows on display. */
    function Shown(): seq<ApiUser>
      reads this
    {
      FilteredUsers(users, searchTerm, filterRole)
    }

    /** `loadUsers`: a non-array answer loads nothing; a failure empties the list and shows the error. */
    method LoadUsers(response: Outcome<Option<seq<ApiUser>>>)
      modifies this
      ensures response.Succeeded? ==> users == response.value.GetOr([]) && error.None?
      ensures response.Failed? ==> users == [] && error == Some(ErrorText(response, "Error al cargar usuarios"))
      ensures !loading
      ensures searchTerm == old(searchTerm) && filterRole == old(filterRole) && openDialog == old(openDialog)
      ensures editingUser == old(editingUser) && submitting == old(submitting)
    {
      loading := true;
      error := None;
      if response.Succeeded? {
        users := response.value.GetOr([]);
      } else {
        error := Some(ErrorText(response, "Error al cargar usuarios"));
        users := [];
      }
      loading := false;
    }

    /** `handleAddUser`: the created user is appended and the dialog closes; a failure only alerts. */
    method HandleAddUser(response: Outcome<ApiUser>) returns (alert: Option<string>)
      modifies this
      ensures response.Succeeded? ==> users == old(users) + [response.value] && !openDialog && alert.None?
      ensures response.Failed? ==>
        users == old(users) && openDialog == old(openDialog) && alert == Some(ErrorText(response, "Error al crear usuario"))
      ensures !submitting
      ensures searchTerm == old(searchTerm) && filterRole == old(filterRole) && editingUser == old(editingUser)
      ensures loading == old(loading) && error == old(error)
    {
      alert := None;
      submitting := true;
      if response.Succeeded? {
        users := users + [response.value];
        openDialog := false;
      } else {
        alert := Some(ErrorText(response, "Error al crear usuario"));
      }
      submitting := false;
    }

    /**
     * `handleEditUser`: without a user being edited nothing happens; otherwise
     * every row with the edited id becomes the returned user.
     */
    method HandleEditUser(response: Outcome<ApiUser>) returns (alert: Option<string>)
      modifies this
      ensures old(editingUser).None? ==>
        users == old(users) && editingUser.None? && openDialog == old(openDialog)
        && submitting == old(submitting) && alert.None?
      ensures old(editingUser).Some? && response.Succeeded? ==>
        && |users| == |old(users)|
        && (forall i :: 0 <= i < |users| ==>
              users[i] == if old(users)[i].id == old(editingUser).value.id then response.value else old(users)[i])
        && editingUser.None? && !openDialog && alert.None?
      ensures old(editingUser).Some? && response.Failed? ==>
        users == old(users) && editingUser == old(editingUser) && openDialog == old(openDialog)
        && alert == Some(ErrorText(response, "Error al actualizar usuario"))
      ensures old(editingUser).Some? ==> !submitting
      ensures searchTerm == old(searchTerm) && filterRole == old(filterRole)
      ensures loading == old(loading) && error == old(error)
    {
      alert := None;
      if editingUser.None? {
        return;
      }
      var id := editingUser.value.id;
      submitting := true;
      if response.Succeeded? {
        users := MapWhere(users, (u: ApiUser) => u.id == id, (u: ApiUser) => response.value);
        editingUser := None;
        openDialog := false;
      } else {
        alert := Some(ErrorText(response, "Error al actualizar usuario"));
      }
      submitting := false;
    }

    /** `handleDeleteUser`: after confirmation and a successful call, every row with that id is gone. */
    method HandleDeleteUser(id: string, confirmed: bool, response: Outcome<()>) returns (alert: Option<string>)
      modifies this
      ensures confirmed && response.Succeeded? ==>
        (forall u :: u in users <==> u in old(users) && u.id != id) && IsSubsequence(users, old(users))
        && (forall u :: multiset(users)[u] == if u.id != id then multiset(old(users))[u] else 0)
        && alert.None?
      ensures !confirmed ==> users == old(users) && alert.None?
      ensures confirmed && response.Failed? ==>
        users == old(users) && alert == Some(ErrorText(response, "Error al eliminar usuario"))
      ensures searchTerm == old(searchTerm) && filterRole == old(filterRole) && openDialog == old(openDialog)
      ensures editingUser == old(editingUser) && loading == old(loading) && error == old(error)
      ensures submitting == old(submitting)
    {
      alert := None;
      if confirmed {
        if response.Succeeded? {
          users := Filter(users, (u: ApiUser) => u.id != id);
        } else {
          alert := Some(ErrorText(response, "Error al eliminar usuario"));
        }
      }
    }
  }
}
