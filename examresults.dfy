/**
 * The patient's exam results (components/pages/exam-results.tsx): a fixed
 * list of four results narrowed by a search on exam type or doctor.
 */
module ExamResults {

  import opened Text
  import opened Lists

  datatype ExamResult = ExamResult(id: int, examType: string, date: string, doctor: string, status: string, file: string)

  const Results: seq<ExamResult> := [
    ExamResult(1, "Examen de Sangre", "2024-12-10", "Dr. López", "completed", "/examen-sangre.pdf"),
    ExamResult(2, "Radiografía de Tórax", "2024-11-25", "Dr. Sánchez", "completed", "/radiografia-torax.pdf"),
    ExamResult(3, "EKG", "2024-10-15", "Dr. García", "completed", "/ekg.pdf"),
    ExamResult(4, "Ultrasonografía", "2024-09-30", "Dra. Martínez", "completed", "/ultrasonografia.pdf")
  ]

  predicate Matches(e: ExamResult, term: string) {
    ContainsIgnoringCase(e.examType, term) || ContainsIgnoringCase(e.doctor, term)
  }

  function Filtered(term: string): (r: seq<ExamResult>)
    ensures forall e :: e in r <==> e in Results && Matches(e, term)
    ensures IsSubsequence(r, Results)
  {
    Filter(Results, (e: ExamResult) => Matches(e, term))
  }

  /** The empty-state message is shown exactly when no result matches. */
  predicate ShowsEmptyState(term: string) {
    |Filtered(term)| == 0
  }

  /** An empty search lists all four results in order. */
  lemma EmptyTermListsAll()
    ensures Filtered("") == Results && |Filtered("")| == 4
    ensures !ShowsEmptyState("")
  {
    forall e | e in Results ensures Matches(e, "") {
      ContainsIgnoringCaseEmpty(e.examType);
    }
    FilterAll(Results, (e: ExamResult) => Matches(e, ""));
  }

  lemma EmptyStateIff(term: string)
    ensures ShowsEmptyState(term) <==> forall e :: e in Results ==> !Matches(e, term)
  {
    if !ShowsEmptyState(term) {
      assert Filtered(term)[0] in Filtered(term);
    }
  }
}
