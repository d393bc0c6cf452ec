/**
 * The array operations the source applies to its tables and lists, as
 * functions on sequences: `filter`, `map` with a conditional replacement,
 * `find`, `slice(0, n)` and `sort` with a numeric comparator.
 */
module Lists {

  import opened Wrappers

  /** r can be obtained from s by deleting elements: same elements, same order. */
  predicate IsSubsequence<T(==,!new)>(r: seq<T>, s: seq<T>)
    decreases |s|
  {
    if r == [] then true
    else if s == [] then false
    else (r[0] == s[0] && IsSubsequence(r[1..], s[1..])) || IsSubsequence(r, s[1..])
  }

  lemma {:induction false} SubsequenceRefl<T(!new)>(s: seq<T>)
    ensures IsSubsequence(s, s)
    decreases |s|
  {
    if s != [] {
      SubsequenceRefl(s[1..]);
    }
  }

  /** `s.filter(p)`. */
  function Filter<T(==,!new)>(s: seq<T>, p: T -> bool): (r: seq<T>)
    ensures |r| <= |s|
    ensures forall x :: x in r <==> x in s && p(x)
    ensures forall x :: multiset(r)[x] == if p(x) then multiset(s)[x] else 0
    ensures IsSubsequence(r, s)
  {
    if s == [] then []
    else
      var rest := Filter(s[1..], p);
      assert s == [s[0]] + s[1..];
      if p(s[0]) then [s[0]] + rest else rest
  }

  lemma {:induction false} FilterAll<T(!new)>(s: seq<T>, p: T -> bool)
    requires forall x :: x in s ==> p(x)
    ensures Filter(s, p) == s
    decreases |s|
  {
    if s != [] {
      FilterAll(s[1..], p);
    }
  }

  lemma {:induction false} FilterNone<T(!new)>(s: seq<T>, p: T -> bool)
    requires forall x :: x in s ==> !p(x)
    ensures Filter(s, p) == []
    decreases |s|
  {
    if s != [] {
      FilterNone(s[1..], p);
    }
  }

  /** The number of elements satisfying p (`s.filter(p).length`). */
  function Count<T(==,!new)>(s: seq<T>, p: T -> bool): (n: nat)
    ensures n <= |s|
  {
    |Filter(s, p)|
  }

  /** Filtering by a stronger predicate keeps no more elements. */
  lemma {:induction false} CountMonotone<T(!new)>(s: seq<T>, p: T -> bool, q: T -> bool)
    requires forall x :: p(x) ==> q(x)
    ensures Count(s, p) <= Count(s, q)
    decreases |s|
  {
    if s != [] {
      CountMonotone(s[1..], p, q);
    }
  }

  /** Elements satisfying r, each of which satisfies p or q, number at most the p's plus the q's. */
  lemma {:induction false} CountCovered<T(!new)>(s: seq<T>, r: T -> bool, p: T -> bool, q: T -> bool)
    requires forall x :: r(x) ==> p(x) || q(x)
    ensures Count(s, r) <= Count(s, p) + Count(s, q)
    decreases |s|
  {
    if s != [] {
      CountCovered(s[1..], r, p, q);
    }
  }

  /** `s.map(x => p(x) ? f(x) : x)`. */
  function MapWhere<T>(s: seq<T>, p: T -> bool, f: T -> T): (r: seq<T>)
    ensures |r| == |s|
    ensures forall i :: 0 <= i < |s| ==> r[i] == if p(s[i]) then f(s[i]) else s[i]
  {
    if s == [] then [] else [if p(s[0]) then f(s[0]) else s[0]] + MapWhere(s[1..], p, f)
  }

  /** A map that matches nothing gives back the same sequence. */
  lemma MapWhereNoMatch<T(!new)>(s: seq<T>, p: T -> bool, f: T -> T)
    ensures (forall x :: x in s ==> !p(x)) ==> MapWhere(s, p, f) == s
  {
    if forall x :: x in s ==> !p(x) {
      var r := MapWhere(s, p, f);
      forall i | 0 <= i < |s|
        ensures r[i] == s[i]
      {
        assert s[i] in s;
      }
    }
  }

  /** The index of the first element satisfying p, or |s| when there is none. */
  function FirstIndex<T>(s: seq<T>, p: T -> bool): (k: nat)
    ensures k <= |s|
    ensures forall j :: 0 <= j < k ==> !p(s[j])
    ensures k < |s| ==> p(s[k])
  {
    if s == [] then 0 else if p(s[0]) then 0 else 1 + FirstIndex(s[1..], p)
  }

  /** `s.find(p)`: the first element satisfying p. */
  function FindFirst<T(!new)>(s: seq<T>, p: T -> bool): (r: Option<T>)
    ensures r.None? <==> forall x :: x in s ==> !p(x)
    ensures r.Some? ==> r.value in s && p(r.value)
    ensures r.Some? ==> exists k :: 0 <= k < |s| && s[k] == r.value && forall j :: 0 <= j < k ==> !p(s[j])
  {
    var k := FirstIndex(s, p);
    if k < |s| then Some(s[k])
    else
      assert forall x :: x in s ==> !p(x) by {
        forall x | x in s
          ensures !p(x)
        {
          var j :| 0 <= j < |s| && s[j] == x;
        }
      }
      None
  }

  /** `s.slice(0, n)`. */
  function Take<T>(s: seq<T>, n: nat): (r: seq<T>)
    ensures |r| == if |s| < n then |s| else n
    ensures r == s[..|r|]
  {
    if |s| <= n then s else s[..n]
  }

  predicate SortedBy<T>(s: seq<T>, key: T -> int) {
    forall i, j :: 0 <= i < j < |s| ==> key(s[i]) <= key(s[j])
  }

  lemma SortedTail<T>(s: seq<T>, key: T -> int)
    requires s != [] && SortedBy(s, key)
    ensures SortedBy(s[1..], key)
    ensures forall i :: 0 <= i < |s[1..]| ==> key(s[0]) <= key(s[1..][i])
  {
    forall i, j | 0 <= i < j < |s[1..]| ensures key(s[1..][i]) <= key(s[1..][j]) {
      assert s[1..][i] == s[i + 1] && s[1..][j] == s[j + 1];
    }
    forall i | 0 <= i < |s[1..]| ensures key(s[0]) <= key(s[1..][i]) {
      assert s[1..][i] == s[i + 1];
    }
  }

  /** A bound on every key of s bounds every key of a subsequence. */
  lemma {:induction false} SubsequenceBound<T(!new)>(r: seq<T>, s: seq<T>, key: T -> int, lo: int)
    requires IsSubsequence(r, s)
    requires forall i :: 0 <= i < |s| ==> lo <= key(s[i])
    ensures forall i :: 0 <= i < |r| ==> lo <= key(r[i])
    decreases |s|
  {
    if r != [] {
      assert forall i :: 0 <= i < |s[1..]| ==> s[1..][i] == s[i + 1];
      if r[0] == s[0] && IsSubsequence(r[1..], s[1..]) {
        SubsequenceBound(r[1..], s[1..], key, lo);
        assert forall i :: 1 <= i < |r| ==> r[i] == r[1..][i - 1];
      } else {
        SubsequenceBound(r, s[1..], key, lo);
      }
    }
  }

  /** A subsequence of a sorted sequence is sorted: filtering keeps the order. */
  lemma {:induction false} SubsequenceSorted<T(!new)>(r: seq<T>, s: seq<T>, key: T -> int)
    requires IsSubsequence(r, s) && SortedBy(s, key)
    ensures SortedBy(r, key)
    decreases |s|
  {
    if r != [] {
      SortedTail(s, key);
      if r[0] == s[0] && IsSubsequence(r[1..], s[1..]) {
        SubsequenceSorted(r[1..], s[1..], key);
        SubsequenceBound(r[1..], s[1..], key, key(s[0]));
        forall i, j | 0 <= i < j < |r| ensures key(r[i]) <= key(r[j]) {
          assert r[j] == r[1..][j - 1];
          if i > 0 {
            assert r[i] == r[1..][i - 1];
          }
        }
      } else {
        SubsequenceSorted(r, s[1..], key);
      }
    }
  }

  lemma ConcatAssoc<T>(a: seq<T>, b: seq<T>, c: seq<T>)
    ensures a + (b + c) == (a + b) + c
  {
  }

  lemma SortedCons<T>(h: T, t: seq<T>, key: T -> int)
    requires SortedBy(t, key)
    requires forall i :: 0 <= i < |t| ==> key(h) <= key(t[i])
    ensures SortedBy([h] + t, key)
  {
    forall i, j | 0 <= i < j < |[h] + t| ensures key(([h] + t)[i]) <= key(([h] + t)[j]) {
      assert ([h] + t)[j] == t[j - 1];
      if i > 0 {
        assert ([h] + t)[i] == t[i - 1];
      }
    }
  }

  /** A head no larger than x and than every element of t stays in front of t with x inserted. */
  lemma SortedBelow<T>(h: T, x: T, t: seq<T>, rest: seq<T>, key: T -> int)
    requires forall i :: 0 <= i < |t| ==> key(h) <= key(t[i])
    requires key(h) <= key(x)
    requires multiset(rest) == multiset(t) + multiset{x}
    requires SortedBy(rest, key)
    ensures SortedBy([h] + rest, key)
  {
    forall i | 0 <= i < |rest| ensures key(h) <= key(rest[i]) {
      assert rest[i] in multiset(rest);
      if rest[i] != x {
        assert rest[i] in multiset(t);
      }
    }
    SortedCons(h, rest, key);
  }

  /** Inserts x before the first element whose key is not smaller. */
  function InsertBy<T>(x: T, s: seq<T>, key: T -> int): (r: seq<T>)
    ensures multiset(r) == multiset(s) + multiset{x}
    ensures |r| == |s| + 1
  {
    if s == [] then [x]
    else if key(x) <= key(s[0]) then [x] + s
    else
      assert s == [s[0]] + s[1..];
      [s[0]] + InsertBy(x, s[1..], key)
  }

  /** Inserting into a sorted sequence keeps it sorted. */
  lemma {:induction false} InsertBySorted<T>(x: T, s: seq<T>, key: T -> int)
    requires SortedBy(s, key)
    ensures SortedBy(InsertBy(x, s, key), key)
    decreases |s|
  {
    if s != [] {
      SortedTail(s, key);
      if key(x) <= key(s[0]) {
        SortedCons(x, s, key);
      } else {
        InsertBySorted(x, s[1..], key);
        SortedBelow(s[0], x, s[1..], InsertBy(x, s[1..], key), key);
      }
    }
  }

  /**
   * `[...s].sort((a, b) => key(a) - key(b))`: a stable insertion sort on a copy;
   * the result is ordered by key and has the same elements as s.
   */
  function SortBy<T>(s: seq<T>, key: T -> int): (r: seq<T>)
    ensures SortedBy(r, key)
    ensures multiset(r) == multiset(s)
    ensures |r| == |s|
  {
    if s == [] then []
    else
      assert s == [s[0]] + s[1..];
      var t := SortBy(s[1..], key);
      InsertBySorted(s[0], t, key);
      InsertBy(s[0], t, key)
  }
}
