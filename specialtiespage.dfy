/**
 * The public specialty catalogue (components/pages/specialties-page.tsx).
 * Its search is the admin list's rule (name or description contains the
 * term, ignoring case), used here as is; what this page adds is the
 * pluralised count label under each card.
 */
module SpecialtiesPage {

  import opened Wrappers
  import opened Text
  import opened Lists
  import opened Types
  import SpecialtiesManagement

  function Filtered(specialties: seq<ApiSpecialty>, term: string): (r: seq<ApiSpecialty>)
    ensures forall s :: s in r <==> s in specialties && SpecialtiesManagement.MatchesSearch(s, term)
    ensures IsSubsequence(r, specialties)
    ensures forall s :: multiset(r)[s] == if SpecialtiesManagement.MatchesSearch(s, term) then multiset(specialties)[s] else 0
    ensures term == "" ==> r == specialties
  {
    if term == "" then SpecialtiesManagement.EmptyTermListsAll(specialties);
      SpecialtiesManagement.FilteredSpecialties(specialties, term)
    else SpecialtiesManagement.FilteredSpecialties(specialties, term)
  }

  /** The word after the count: singular exactly for one. */
  function CountWord(n: int): string {
    if n == 1 then " especialista" else " especialistas"
  }

  /** "n especialista", with an "s" unless n is exactly 1; a missing count shows as 0. */
  function CountLabel(s: ApiSpecialty): (r: string)
    ensures var n := SpecialtiesManagement.DoctorCountShown(s);
      |r| == |IntString(n)| + |CountWord(n)| && r[..|IntString(n)|] == IntString(n)
      && r[|IntString(n)|..] == CountWord(n)
    ensures var n := SpecialtiesManagement.DoctorCountShown(s);
      r[|r| - 1] == 's' <==> n != 1
  {
    var n := SpecialtiesManagement.DoctorCountShown(s);
    var r := IntString(n) + CountWord(n);
    assert r[..|IntString(n)|] == IntString(n);
    assert r[|IntString(n)|..] == CountWord(n);
    assert r[|r| - 1] == CountWord(n)[|CountWord(n)| - 1];
    r
  }

  /** The label reads back under `parseInt` as the count it shows. */
  lemma {:induction false} CountLabelReadsBack(s: ApiSpecialty)
    ensures ParseInt(CountLabel(s)) == Some(SpecialtiesManagement.DoctorCountShown(s))
  {
    var n := SpecialtiesManagement.DoctorCountShown(s);
    ParseIntLeading(n, CountWord(n));
  }

  /** The label is singular exactly for one doctor, and a specialty without a count reads "0 especialistas". */
  lemma CountLabelPlural(s: ApiSpecialty)
    ensures s.doctorCount == Some(1) ==> CountLabel(s) == "1 especialista"
    ensures s.doctorCount.None? ==> CountLabel(s) == "0 especialistas"
    ensures s.doctorCount == Some(2) ==> CountLabel(s) == "2 especialistas"
  {
    if s.doctorCount == Some(1) {
      LabelOfOne(s);
    } else if s.doctorCount.None? {
      LabelOfNone(s);
    } else if s.doctorCount == Some(2) {
      LabelOfTwo(s);
    }
  }

  lemma {:induction false} LabelOfOne(s: ApiSpecialty)
    requires s.doctorCount == Some(1)
    ensures CountLabel(s) == "1 especialista"
  {
    LabelOfOneDigit(s, 1);
  }

  lemma {:induction false} LabelOfNone(s: ApiSpecialty)
    requires s.doctorCount.None?
    ensures CountLabel(s) == "0 especialistas"
  {
    LabelOfOneDigit(s, 0);
  }

  lemma {:induction false} LabelOfTwo(s: ApiSpecialty)
    requires s.doctorCount == Some(2)
    ensures CountLabel(s) == "2 especialistas"
  {
    LabelOfOneDigit(s, 2);
  }

  /** A count below ten shows as its one digit followed by the word. */
  lemma {:induction false} LabelOfOneDigit(s: ApiSpecialty, n: nat)
    requires n < 10 && SpecialtiesManagement.DoctorCountShown(s) == n
    ensures CountLabel(s) == [DigitChar(n)] + CountWord(n)
  {
    assert IntString(n) == [DigitChar(n)];
  }
}
