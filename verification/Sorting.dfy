/** Python's `sorted`, by insertion: a permutation in order, and one that keeps ties in the order they came in. */
module Sorting {
  import opened Sequences

  ghost predicate TotalPreorder<T(!new)>(before: (T, T) -> bool) {
    && (forall x, y :: before(x, y) || before(y, x))
    && (forall x, y, z :: before(x, y) && before(y, z) ==> before(x, z))
  }

  ghost predicate Sorted<T>(s: seq<T>, before: (T, T) -> bool) {
    forall i, j :: 0 <= i < j < |s| ==> before(s[i], s[j])
  }

  /** Puts `x` behind everything that may stand before it. */
  function Insert<T>(s: seq<T>, x: T, before: (T, T) -> bool): seq<T> {
    if s == [] then [x] else
      var k := |s| - 1;
      if before(s[k], x) then s + [x] else Insert(s[..k], x, before) + [s[k]]
  }

  function Sort<T>(s: seq<T>, before: (T, T) -> bool): seq<T> {
    if s == [] then [] else Insert(Sort(s[..|s| - 1], before), s[|s| - 1], before)
  }

  lemma {:induction false} InsertPermutes<T>(s: seq<T>, x: T, before: (T, T) -> bool)
    ensures multiset(Insert(s, x, before)) == multiset(s) + multiset{x}
  {
    if s != [] {
      InsertPermutes(s[..|s| - 1], x, before);
      assert s == s[..|s| - 1] + [s[|s| - 1]];
    }
  }

  lemma {:induction false} Total<T(!new)>(before: (T, T) -> bool, x: T, y: T)
    requires TotalPreorder(before)
    ensures before(x, y) || before(y, x)
  {
  }

  lemma {:induction false} Transitive<T(!new)>(before: (T, T) -> bool, x: T, y: T, z: T)
    requires TotalPreorder(before) && before(x, y) && before(y, z)
    ensures before(x, z)
  {
  }

  lemma {:induction false} SortedAppends<T>(s: seq<T>, x: T, before: (T, T) -> bool)
    requires Sorted(s, before) && forall i :: 0 <= i < |s| ==> before(s[i], x)
    ensures Sorted(s + [x], before)
  {
  }

  lemma {:induction false} InsertSorts<T(!new)>(s: seq<T>, x: T, before: (T, T) -> bool)
    requires TotalPreorder(before) && Sorted(s, before)
    ensures Sorted(Insert(s, x, before), before)
  {
    hide TotalPreorder;
    if s != [] {
      var front, last := s[..|s| - 1], s[|s| - 1];
      if before(last, x) {
        forall i | 0 <= i < |s|
          ensures before(s[i], x)
        {
          if i < |s| - 1 {
            Transitive(before, s[i], last, x);
          }
        }
        SortedAppends(s, x, before);
      } else {
        InsertSorts(front, x, before);
        NobodyIsLater(front, x, last, before);
        SortedAppends(Insert(front, x, before), last, before);
      }
    }
  }

  lemma {:induction false} NobodyIsLater<T(!new)>(s: seq<T>, x: T, last: T, before: (T, T) -> bool)
    requires TotalPreorder(before) && !before(last, x) && forall i :: 0 <= i < |s| ==> before(s[i], last)
    ensures forall i :: 0 <= i < |Insert(s, x, before)| ==> before(Insert(s, x, before)[i], last)
  {
    hide TotalPreorder;
    var inserted := Insert(s, x, before);
    Total(before, last, x);
    InsertPermutes(s, x, before);
    SameMembers(inserted, s + [x]);
    forall i | 0 <= i < |inserted|
      ensures before(inserted[i], last)
    {
      assert inserted[i] in s + [x];
    }
  }

  lemma {:induction false} SortSorts<T(!new)>(s: seq<T>, before: (T, T) -> bool)
    requires TotalPreorder(before)
    ensures Sorted(Sort(s, before), before) && multiset(Sort(s, before)) == multiset(s)
  {
    hide TotalPreorder, Sorted, Insert;
    if s == [] {
      NothingIsSorted(before);
    } else {
      var front, last := s[..|s| - 1], s[|s| - 1];
      SortSorts(front, before);
      InsertSorts(Sort(front, before), last, before);
      InsertPermutes(Sort(front, before), last, before);
      assert s == front + [last];
    }
  }

  lemma {:induction false} NothingIsSorted<T>(before: (T, T) -> bool)
    ensures Sorted([], before)
  {
  }

  /** The elements of one class, such as all that tie with one of them, in the order in which they come. */
  function Only<T>(s: seq<T>, tied: T -> bool): seq<T> {
    if s == [] then [] else
      Only(s[..|s| - 1], tied) + if tied(s[|s| - 1]) then [s[|s| - 1]] else []
  }

  /** Elements that tie with each other keep their order. */
  lemma {:induction false} SortIsStable<T(!new)>(s: seq<T>, before: (T, T) -> bool, tied: T -> bool)
    requires TotalPreorder(before)
    requires forall x, y :: tied(x) && tied(y) ==> before(x, y)
    ensures Only(Sort(s, before), tied) == Only(s, tied)
  {
    if s != [] {
      var front, last := s[..|s| - 1], s[|s| - 1];
      SortIsStable(front, before, tied);
      SortSorts(front, before);
      InsertKeepsOrder(Sort(front, before), last, before, tied);
    }
  }

  lemma {:induction false} InsertKeepsOrder<T(!new)>(s: seq<T>, x: T, before: (T, T) -> bool, tied: T -> bool)
    requires forall u, v :: tied(u) && tied(v) ==> before(u, v)
    requires Sorted(s, before) && TotalPreorder(before)
    ensures Only(Insert(s, x, before), tied) == Only(s, tied) + if tied(x) then [x] else []
  {
    if s != [] && !before(s[|s| - 1], x) {
      InsertKeepsOrder(s[..|s| - 1], x, before, tied);
    }
  }
}
