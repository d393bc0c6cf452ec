/**
 * The admin doctor list (components/admin/pages/doctors-management.tsx): the
 * search over name, specialty and email, the status labels, and the load,
 * add, edit and delete handlers.  Each awaited API call is an `Outcome`
 * parameter; the confirmation dialog is the `confirmed` flag.
 */
module DoctorsManagement {

  import opened Wrappers
  import opened Text
  import opened Lists
  import opened Types

  /** `statusLabels[...].label`. */
  function StatusLabel(s: DoctorStatus): (r: string)
    ensures s == DoctorDeVacaciones ==> r == "De Vacaciones"
    ensures s == DoctorActivo ==> r == "Activo"
    ensures s == DoctorInactivo ==> r == "Inactivo"
  {
    match s
    case DoctorActivo => "Activo"
    case DoctorInactivo => "Inactivo"
    case DoctorDeVacaciones => "De Vacaciones"
  }

  /** The three statuses get three different labels. */
  lemma StatusLabelsDistinct(a: DoctorStatus, b: DoctorStatus)
    ensures StatusLabel(a) == StatusLabel(b) <==> a == b
  {
  }

  predicate MatchesSearch(d: ApiDoctor, term: string) {
    ContainsIgnoringCase(d.name, term) || ContainsIgnoringCase(d.specialty.name, term)
    || ContainsIgnoringCase(d.email, term)
  }

  function FilteredDoctors(doctors: seq<ApiDoctor>, term: string): (r: seq<ApiDoctor>)
    ensures forall d :: d in r <==> d in doctors && MatchesSearch(d, term)
    ensures IsSubsequence(r, doctors)
    ensures forall d :: multiset(r)[d] == if MatchesSearch(d, term) then multiset(doctors)[d] else 0
  {
    Filter(doctors, (d: ApiDoctor) => MatchesSearch(d, term))
  }

  /** An empty term lists every doctor, in order. */
  lemma EmptyTermListsAll(doctors: seq<ApiDoctor>)
    ensures FilteredDoctors(doctors, "") == doctors
  {
    forall d | d in doctors ensures MatchesSearch(d, "") {
      ContainsIgnoringCaseEmpty(d.name);
    }
    FilterAll(doctors, (d: ApiDoctor) => MatchesSearch(d, ""));
  }

  class DoctorsPage {
    var doctors: seq<ApiDoctor>
    var specialties: seq<ApiSpecialty>
    var searchTerm: string
    var openDialog: bool
    var editingDoctor: Option<ApiDoctor>
    var loading: bool
    var error: Option<string>
    var submitting: bool

    constructor ()
      ensures doctors == [] && specialties == [] && searchTerm == "" && !openDialog
      ensures editingDoctor.None? && loading && error.None? && !submitting
    {
      doctors, specialties, searchTerm, openDialog := [], [], "", false;
      editingDoctor, loading, error, submitting := None, true, None, false;
    }

    function Shown(): seq<ApiDoctor>
      reads this
    {
      FilteredDoctors(doctors, searchTerm)
    }

    /**
     * `loadData`: both lists are fetched together; a non-array answer gives
     * an empty list, and any failure empties both and shows the error.
     */
    method LoadData(response: Outcome<(Option<seq<ApiDoctor>>, Option<seq<ApiSpecialty>>)>)
      modifies this
      ensures response.Succeeded? ==>
        doctors == response.value.0.GetOr([]) && specialties == response.value.1.GetOr([]) && error.None?
      ensures response.Failed? ==>
        doctors == [] && specialties == [] && error == Some(ErrorText(response, "Error al cargar datos"))
      ensures !loading
      ensures searchTerm == old(searchTerm) && openDialog == old(openDialog)
      ensures editingDoctor == old(editingDoctor) && submitting == old(submitting)
    {
      loading := true;
      error := None;
      if response.Succeeded? {
        doctors := response.value.0.GetOr([]);
        specialties := response.value.1.GetOr([]);
      } else {
        error := Some(ErrorText(response, "Error al cargar datos"));
        doctors := [];
        specialties := [];
      }
      loading := false;
    }

    /** `handleAddDoctor`. */
    method HandleAddDoctor(response: Outcome<ApiDoctor>) returns (alert: Option<string>)
      modifies this
      ensures response.Succeeded? ==> doctors == old(doctors) + [response.value] && !openDialog && alert.None?
      ensures response.Failed? ==>
        doctors == old(doctors) && openDialog == old(openDialog) && alert == Some(ErrorText(response, "Error al crear doctor"))
      ensures !submitting
      ensures specialties == old(specialties) && searchTerm == old(searchTerm) && editingDoctor == old(editingDoctor)
      ensures loading == old(loading) && error == old(error)
    {
      alert := None;
      submitting := true;
      if response.Succeeded? {
        doctors := doctors + [response.value];
        openDialog := false;
      } else {
        alert := Some(ErrorText(response, "Error al crear doctor"));
      }
      submitting := false;
    }

    /** `handleEditDoctor`: every row with the edited id becomes the returned doctor. */
    method HandleEditDoctor(response: Outcome<ApiDoctor>) returns (alert: Option<string>)
      modifies this
      ensures old(editingDoctor).None? ==>
        doctors == old(doctors) && editingDoctor.None? && openDialog == old(openDialog)
        && submitting == old(submitting) && alert.None?
      ensures old(editingDoctor).Some? && response.Succeeded? ==>
        && |doctors| == |old(doctors)|
        && (forall i :: 0 <= i < |doctors| ==>
              doctors[i] == if old(doctors)[i].id == old(editingDoctor).value.id then response.value else old(doctors)[i])
        && editingDoctor.None? && !openDialog && alert.None?
      ensures old(editingDoctor).Some? && response.Failed? ==>
        doctors == old(doctors) && editingDoctor == old(editingDoctor) && openDialog == old(openDialog)
        && alert == Some(ErrorText(response, "Error al actualizar doctor"))
      ensures old(editingDoctor).Some? ==> !submitting
      ensures specialties == old(specialties) && searchTerm == old(searchTerm)
      ensures loading == old(loading) && error == old(error)
    {
      alert := None;
      if editingDoctor.None? {
        return;
      }
      var id := editingDoctor.value.id;
      submitting := true;
      if response.Succeeded? {
        doctors := MapWhere(doctors, (d: ApiDoctor) => d.id == id, (d: ApiDoctor) => response.value);
        editingDoctor := None;
        openDialog := false;
      } else {
        alert := Some(ErrorText(response, "Error al actualizar doctor"));
      }
      submitting := false;
    }

    /** `handleDeleteDoctor`: after confirmation and a successful call, every row with that id is gone. */
    method HandleDeleteDoctor(id: string, confirmed: bool, response: Outcome<()>) returns (alert: Option<string>)
      modifies this
      ensures confirmed && response.Succeeded? ==>
        (forall d :: d in doctors <==> d in old(doctors) && d.id != id) && IsSubsequence(doctors, old(doctors))
        && (forall d :: multiset(doctors)[d] == if d.id != id then multiset(old(doctors))[d] else 0)
        && alert.None?
      ensures !confirmed ==> doctors == old(doctors) && alert.None?
      ensures confirmed && response.Failed? ==>
        doctors == old(doctors) && alert == Some(ErrorText(response, "Error al eliminar doctor"))
      ensures specialties == old(specialties) && searchTerm == old(searchTerm) && openDialog == old(openDialog)
      ensures editingDoctor == old(editingDoctor) && loading == old(loading) && error == old(error)
      ensures submitting == old(submitting)
    {
      alert := None;
      if !confirmed {
        return;
      }
      if response.Succeeded? {
        doctors := Filter(doctors, (d: ApiDoctor) => d.id != id);
      } else {
        alert := Some(ErrorText(response, "Error al eliminar doctor"));
      }
    }
  }
}
