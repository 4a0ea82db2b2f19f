/** Sorting by a strict total order: the result is determined by what is sorted. */
module Sorting {

  ghost predicate StrictOrder<T(!new)>(less: (T, T) -> bool) {
    && (forall x :: !less(x, x))
    && (forall x, y, z :: less(x, y) && less(y, z) ==> less(x, z))
    && (forall x, y :: x != y ==> less(x, y) || less(y, x))
  }

  ghost predicate Sorted<T>(less: (T, T) -> bool, s: seq<T>) {
    forall i, j :: 0 <= i < j < |s| ==> less(s[i], s[j])
  }

  ghost predicate Distinct<T>(s: seq<T>) {
    forall i, j :: 0 <= i < j < |s| ==> s[i] != s[j]
  }

  function InsertSorted<T>(less: (T, T) -> bool, s: seq<T>, x: T): seq<T> {
    if s == [] then [x]
    else if less(s[|s| - 1], x) then s + [x]
    else InsertSorted(less, s[..|s| - 1], x) + [s[|s| - 1]]
  }

  function Sort<T>(less: (T, T) -> bool, s: seq<T>): seq<T> {
    if s == [] then [] else InsertSorted(less, Sort(less, s[..|s| - 1]), s[|s| - 1])
  }

  lemma {:induction false} InsertMembers<T>(less: (T, T) -> bool, s: seq<T>, x: T)
    ensures multiset(InsertSorted(less, s, x)) == multiset(s) + multiset{x}
  {
    if s != [] {
      var n := |s| - 1;
      assert s[..n] + [s[n]] == s;
      InsertMembers(less, s[..n], x);
    }
  }

  lemma {:induction false} InsertSorts<T(!new)>(less: (T, T) -> bool, s: seq<T>, x: T)
    requires StrictOrder(less) && Sorted(less, s) && x !in s
    ensures Sorted(less, InsertSorted(less, s, x))
  {
    if s != [] {
      var n := |s| - 1;
      if less(s[n], x) {
        assert forall i :: 0 <= i < n ==> less(s[i], s[n]);
      } else {
        assert s[n] != x;
        InsertSorts(less, s[..n], x);
        InsertMembers(less, s[..n], x);
        var t := InsertSorted(less, s[..n], x);
        forall i | 0 <= i < |t| ensures less(t[i], s[n]) {
          assert t[i] in multiset(t);
          assert t[i] in s[..n] || t[i] == x;
        }
      }
    }
  }

  lemma {:induction false} SortMembers<T>(less: (T, T) -> bool, s: seq<T>)
    ensures multiset(Sort(less, s)) == multiset(s)
  {
    if s != [] {
      var n := |s| - 1;
      assert s[..n] + [s[n]] == s;
      SortMembers(less, s[..n]);
      InsertMembers(less, Sort(less, s[..n]), s[n]);
    }
  }

  lemma MembersAgree<T>(s: seq<T>, t: seq<T>, x: T)
    requires multiset(s) == multiset(t)
    ensures x in s <==> x in t
  {
    assert x in s <==> x in multiset(s);
    assert x in t <==> x in multiset(t);
  }

  lemma {:induction false} SortSorts<T(!new)>(less: (T, T) -> bool, s: seq<T>)
    requires StrictOrder(less) && Distinct(s)
    ensures Sorted(less, Sort(less, s))
  {
    if s != [] {
      var n := |s| - 1;
      SortSorts(less, s[..n]);
      SortMembers(less, s[..n]);
      MembersAgree(Sort(less, s[..n]), s[..n], s[n]);
      InsertSorts(less, Sort(less, s[..n]), s[n]);
    }
  }

  lemma SortedDistinct<T(!new)>(less: (T, T) -> bool, s: seq<T>)
    requires StrictOrder(less) && Sorted(less, s)
    ensures Distinct(s)
  {
  }

  /** Two sorted sequences of the same elements are equal. */
  lemma {:induction false} SortedUnique<T(!new)>(less: (T, T) -> bool, a: seq<T>, b: seq<T>)
    requires StrictOrder(less) && Sorted(less, a) && Sorted(less, b)
    requires multiset(a) == multiset(b)
    ensures a == b
  {
    assert |a| == |multiset(a)| && |b| == |multiset(b)|;
    if a != [] {
      var n := |a| - 1;
      LastIsGreatest(less, a, b);
      WithoutLast(a);
      WithoutLast(b);
      hide StrictOrder;
      SortedUnique(less, a[..n], b[..n]);
    }
  }

  lemma WithoutLast<T>(s: seq<T>)
    requires s != []
    ensures multiset(s[..|s| - 1]) == multiset(s) - multiset{s[|s| - 1]}
    ensures s == s[..|s| - 1] + [s[|s| - 1]]
  {
    assert s == s[..|s| - 1] + [s[|s| - 1]];
  }

  lemma {:induction false} CountsOnce<T>(s: seq<T>, x: T)
    requires Distinct(s)
    ensures multiset(s)[x] == if x in s then 1 else 0
  {
    if s != [] {
      var n := |s| - 1;
      WithoutLast(s);
      CountsOnce(s[..n], x);
      assert s[n] !in s[..n];
    }
  }

  lemma LastIsGreatest<T(!new)>(less: (T, T) -> bool, a: seq<T>, b: seq<T>)
    requires StrictOrder(less) && Sorted(less, a) && Sorted(less, b)
    requires multiset(a) == multiset(b) && |a| == |b| && a != []
    ensures a[|a| - 1] == b[|b| - 1]
  {
    var n := |a| - 1;
    MembersAgree(a, b, a[n]);
    MembersAgree(a, b, b[n]);
    var i :| 0 <= i < |b| && b[i] == a[n];
    var j :| 0 <= j < |a| && a[j] == b[n];
    assert i < n ==> less(a[n], b[n]);
    assert j < n ==> less(b[n], a[n]);
  }

  /** Sorting does not depend on the order of the input. */
  lemma SortIsCanonical<T(!new)>(less: (T, T) -> bool, s: seq<T>, t: seq<T>)
    requires StrictOrder(less) && Distinct(s) && Distinct(t) && multiset(s) == multiset(t)
    ensures Sort(less, s) == Sort(less, t)
  {
    SortSorts(less, s);
    SortSorts(less, t);
    SortMembers(less, s);
    SortMembers(less, t);
    SortedUnique(less, Sort(less, s), Sort(less, t));
  }
}
