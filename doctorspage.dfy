/**
 * The public doctor directory (components/pages/doctors-page.tsx): active
 * doctors only, narrowed by a search term and by the specialty named in the
 * `especialidad` URL parameter.
 */
module DoctorsPage {

  import opened Wrappers
  import opened Text
  import opened Lists
  import opened Types

  /** Name or specialty name contains the term, ignoring case. */
  predicate MatchesSearch(d: ApiDoctor, term: string) {
    ContainsIgnoringCase(d.name, term) || ContainsIgnoringCase(d.specialty.name, term)
  }

  /** No (or an empty) filter passes everyone; otherwise the whole specialty name must equal it, ignoring case. */
  predicate MatchesSpecialty(d: ApiDoctor, filter: Option<string>) {
    !Present(filter) || Lower(d.specialty.name) == Lower(filter.value)
  }

  function Listed(doctors: seq<ApiDoctor>, term: string, filter: Option<string>): (r: seq<ApiDoctor>)
    ensures forall d :: d in r <==>
      d in doctors && MatchesSearch(d, term) && MatchesSpecialty(d, filter) && d.status == DoctorActivo
    ensures IsSubsequence(r, doctors)
    ensures forall d :: multiset(r)[d] ==
                        if MatchesSearch(d, term) && MatchesSpecialty(d, filter) && d.status == DoctorActivo
                        then multiset(doctors)[d] else 0
    ensures forall d :: d in r ==> d.status == DoctorActivo
  {
    Filter(doctors, (d: ApiDoctor) => MatchesSearch(d, term) && MatchesSpecialty(d, filter) && d.status == DoctorActivo)
  }

  /** With no term and no filter the directory is every active doctor, in order. */
  lemma NoFilterListsActive(doctors: seq<ApiDoctor>)
    ensures Listed(doctors, "", None) == Filter(doctors, (d: ApiDoctor) => d.status == DoctorActivo)
  {
    forall d | d in doctors ensures MatchesSearch(d, "") {
      ContainsIgnoringCaseEmpty(d.name);
    }
    FilterCongruent(doctors, (d: ApiDoctor) => MatchesSearch(d, "") && MatchesSpecialty(d, None) && d.status == DoctorActivo,
                    (d: ApiDoctor) => d.status == DoctorActivo);
  }

  /** Filtering by two predicates that agree on the sequence gives the same result. */
  lemma {:induction false} FilterCongruent(s: seq<ApiDoctor>, p: ApiDoctor -> bool, q: ApiDoctor -> bool)
    requires forall x :: x in s ==> (p(x) <==> q(x))
    ensures Filter(s, p) == Filter(s, q)
    decreases |s|
  {
    if s != [] {
      FilterCongruent(s[1..], p, q);
    }
  }

  /** The specialty filter is an equality: a filter that only appears inside the name does not match. */
  lemma SpecialtyIsNotSubstring(d: ApiDoctor)
    requires d.specialty.name == "Cardiología"
    ensures !MatchesSpecialty(d, Some("cardio"))
    ensures MatchesSpecialty(d, Some("CARDIOLOGíA"))
  {
    assert |Lower("cardio")| != |Lower(d.specialty.name)|;
  }

  /** The search box and the specialty badge. */
  class Directory {
    var searchTerm: string
    var specialtyFilter: Option<string>

    /** The filter starts from `searchParams.get("especialidad")`. */
    constructor (especialidad: Option<string>)
      ensures searchTerm == "" && specialtyFilter == especialidad
    {
      searchTerm := "";
      specialtyFilter := especialidad;
    }

    function Shown(doctors: seq<ApiDoctor>): (r: seq<ApiDoctor>)
      reads this
    {
      Listed(doctors, searchTerm, specialtyFilter)
    }

    /** The effect that follows a change of the URL parameter. */
    method SyncParameter(especialidad: Option<string>)
      modifies this
      ensures specialtyFilter == especialidad && searchTerm == old(searchTerm)
    {
      specialtyFilter := especialidad;
    }

    method SetSearchTerm(term: string)
      modifies this
      ensures searchTerm == term && specialtyFilter == old(specialtyFilter)
    {
      searchTerm := term;
    }

    /** The badge's close button. */
    method ClearSpecialty()
      modifies this
      ensures specialtyFilter.None? && searchTerm == old(searchTerm)
    {
      specialtyFilter := None;
    }
  }
}
