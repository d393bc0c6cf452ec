/**
 * The admin specialty list (components/admin/pages/specialties-management.tsx):
 * the search over name and description, the doctor count shown per card,
 * and the load, add, edit and delete handlers.  Each awaited API call is an
 * `Outcome` parameter; the confirmation dialog is the `confirmed` flag.
 */
module SpecialtiesManagement {

  import opened Wrappers
  import opened Text
  import opened Lists
  import opened Types

  predicate MatchesSearch(s: ApiSpecialty, term: string) {
    ContainsIgnoringCase(s.name, term) || ContainsIgnoringCase(s.description, term)
  }

  function FilteredSpecialties(specialties: seq<ApiSpecialty>, term: string): (r: seq<ApiSpecialty>)
    ensures forall s :: s in r <==> s in specialties && MatchesSearch(s, term)
    ensures IsSubsequence(r, specialties)
    ensures forall s :: multiset(r)[s] == if MatchesSearch(s, term) then multiset(specialties)[s] else 0
  {
    Filter(specialties, (s: ApiSpecialty) => MatchesSearch(s, term))
  }

  /** An empty term lists every specialty, in order. */
  lemma EmptyTermListsAll(specialties: seq<ApiSpecialty>)
    ensures FilteredSpecialties(specialties, "") == specialties
  {
    forall s | s in specialties ensures MatchesSearch(s, "") {
      ContainsIgnoringCaseEmpty(s.name);
    }
    FilterAll(specialties, (s: ApiSpecialty) => MatchesSearch(s, ""));
  }

  /** `specialty._count?.doctors || 0`. */
  function DoctorCountShown(s: ApiSpecialty): (n: int)
    ensures s.doctorCount.None? ==> n == 0
    ensures s.doctorCount.Some? ==> n == s.doctorCount.value
  {
    if s.doctorCount.Some? && s.doctorCount.value != 0 then s.doctorCount.value else 0
  }

  class SpecialtiesPage {
    var specialties: seq<ApiSpecialty>
    var searchTerm: string
    var openDialog: bool
    var editingSpecialty: Option<ApiSpecialty>
    var loading: bool
    var error: Option<string>
    var submitting: bool

    constructor ()
      ensures specialties == [] && searchTerm == "" && !openDialog
      ensures editingSpecialty.None? && loading && error.None? && !submitting
    {
      specialties, searchTerm, openDialog := [], "", false;
      editingSpecialty, loading, error, submitting := None, true, None, false;
    }

    function Shown(): seq<ApiSpecialty>
      reads this
    {
      FilteredSpecialties(specialties, searchTerm)
    }

    /** `loadSpecialties`: a non-array answer loads nothing; a failure empties the list and shows the error. */
    method LoadSpecialties(response: Outcome<Option<seq<ApiSpecialty>>>)
      modifies this
      ensures response.Succeeded? ==> specialties == response.value.GetOr([]) && error.None?
      ensures response.Failed? ==>
        specialties == [] && error == Some(ErrorText(response, "Error al cargar especialidades"))
      ensures !loading
      ensures searchTerm == old(searchTerm) && openDialog == old(openDialog)
      ensures editingSpecialty == old(editingSpecialty) && submitting == old(submitting)
    {
      loading := true;
      error := None;
      if response.Succeeded? {
        specialties := response.value.GetOr([]);
      } else {
        error := Some(ErrorText(response, "Error al cargar especialidades"));
        specialties := [];
      }
      loading := false;
    }

    /** `handleAddSpecialty`. */
    method HandleAddSpecialty(response: Outcome<ApiSpecialty>) returns (alert: Option<string>)
      modifies this
      ensures response.Succeeded? ==> specialties == old(specialties) + [response.value] && !openDialog && alert.None?
      ensures response.Failed? ==>
        specialties == old(specialties) && openDialog == old(openDialog)
        && alert == Some(ErrorText(response, "Error al crear especialidad"))
      ensures !submitting
      ensures searchTerm == old(searchTerm) && editingSpecialty == old(editingSpecialty)
      ensures loading == old(loading) && error == old(error)
    {
      alert := None;
      submitting := true;
      if response.Succeeded? {
        specialties := specialties + [response.value];
        openDialog := false;
      } else {
        alert := Some(ErrorText(response, "Error al crear especialidad"));
      }
      submitting := false;
    }

    /** `handleEditSpecialty`: every row with the edited id becomes the returned specialty. */
    method HandleEditSpecialty(response: Outcome<ApiSpecialty>) returns (alert: Option<string>)
      modifies this
      ensures old(editingSpecialty).None? ==>
        specialties == old(specialties) && editingSpecialty.None? && openDialog == old(openDialog)
        && submitting == old(submitting) && alert.None?
      ensures old(editingSpecialty).Some? && response.Succeeded? ==>
        && |specialties| == |old(specialties)|
        && (forall i :: 0 <= i < |specialties| ==>
              specialties[i] == if old(specialties)[i].id == old(editingSpecialty).value.id
                                then response.value else old(specialties)[i])
        && editingSpecialty.None? && !openDialog && alert.None?
      ensures old(editingSpecialty).Some? && response.Failed? ==>
        specialties == old(specialties) && editingSpecialty == old(editingSpecialty) && openDialog == old(openDialog)
        && alert == Some(ErrorText(response, "Error al actualizar especialidad"))
      ensures old(editingSpecialty).Some? ==> !submitting
      ensures searchTerm == old(searchTerm) && loading == old(loading) && error == old(error)
    {
      alert := None;
      if editingSpecialty.None? {
        return;
      }
      var id := editingSpecialty.value.id;
      submitting := true;
      if response.Succeeded? {
        specialties := MapWhere(specialties, (s: ApiSpecialty) => s.id == id, (s: ApiSpecialty) => response.value);
        editingSpecialty := None;
        openDialog := false;
      } else {
        alert := Some(ErrorText(response, "Error al actualizar especialidad"));
      }
      submitting := false;
    }

    /** `handleDeleteSpecialty`: after confirmation and a successful call, every row with that id is gone. */
    method HandleDeleteSpecialty(id: string, confirmed: bool, response: Outcome<()>) returns (alert: Option<string>)
      modifies this
      ensures confirmed && response.Succeeded? ==>
        (forall s :: s in specialties <==> s in old(specialties) && s.id != id)
        && IsSubsequence(specialties, old(specialties))
        && (forall s :: multiset(specialties)[s] == if s.id != id then multiset(old(specialties))[s] else 0)
        && alert.None?
      ensures !confirmed ==> specialties == old(specialties) && alert.None?
      ensures confirmed && response.Failed? ==>
        specialties == old(specialties)
        && alert == Some(ErrorText(response, "Error al eliminar especialidad. Asegúrese de que no tenga doctores asignados."))
      ensures searchTerm == old(searchTerm) && openDialog == old(openDialog)
      ensures editingSpecialty == old(editingSpecialty) && loading == old(loading) && error == old(error)
      ensures submitting == old(submitting)
    {
      alert := None;
      if !confirmed {
        return;
      }
      if response.Succeeded? {
        specialties := Filter(specialties, (s: ApiSpecialty) => s.id != id);
      } else {
        alert := Some(ErrorText(response, "Error al eliminar especialidad. Asegúrese de que no tenga doctores asignados."));
      }
    }
  }
}
