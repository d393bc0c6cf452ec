/**
 * The doctor's patient list (components/pages/doctor-patients-list.tsx): a
 * fixed list of three patients narrowed by a search on name or email.
 */
module DoctorPatientsList {

  import opened Text
  import opened Lists

  datatype Patient = Patient(
    id: int,
    name: string,
    age: int,
    email: string,
    phone: string,
    lastVisit: string,
    nextAppointment: string,
    medicalHistory: seq<string>)

  const Patients: seq<Patient> := [
    Patient(1, "Juan Pérez García", 35, "juan.perez@email.com", "+1 (555) 123-4567",
            "2025-01-15", "2025-01-20", ["Hipertensión", "Colesterol elevado"]),
    Patient(2, "María López Rodríguez", 42, "maria.lopez@email.com", "+1 (555) 234-5678",
            "2025-01-10", "2025-01-25", ["Post-operatorio", "Diabetes tipo 2"]),
    Patient(3, "Pedro Sánchez Martinez", 58, "pedro.sanchez@email.com", "+1 (555) 345-6789",
            "2024-12-28", "2025-02-01", ["Hipertensión arterial", "Obesidad"])
  ]

  predicate Matches(p: Patient, term: string) {
    ContainsIgnoringCase(p.name, term) || ContainsIgnoringCase(p.email, term)
  }

  function Filtered(term: string): (r: seq<Patient>)
    ensures forall p :: p in r <==> p in Patients && Matches(p, term)
    ensures IsSubsequence(r, Patients)
  {
    Filter(Patients, (p: Patient) => Matches(p, term))
  }

  /** The empty-state message is shown exactly when no patient matches. */
  predicate ShowsEmptyState(term: string) {
    |Filtered(term)| == 0
  }

  /** An empty search lists all three patients in order. */
  lemma EmptyTermListsAll()
    ensures Filtered("") == Patients && |Filtered("")| == 3
    ensures !ShowsEmptyState("")
  {
    forall p | p in Patients ensures Matches(p, "") {
      ContainsIgnoringCaseEmpty(p.name);
    }
    FilterAll(Patients, (p: Patient) => Matches(p, ""));
  }

  /** The empty state appears exactly when no patient of the list matches. */
  lemma EmptyStateIff(term: string)
    ensures ShowsEmptyState(term) <==> forall p :: p in Patients ==> !Matches(p, term)
  {
    if !ShowsEmptyState(term) {
      assert Filtered(term)[0] in Filtered(term);
    }
  }
}
