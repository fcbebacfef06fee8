/** Sorting by a strict total order. */
module Sorting {

  ghost predicate StrictTotalOrder<T(!new)>(less: (T, T) -> bool) {
    && (forall x :: !less(x, x))
    && (forall x, y, z :: less(x, y) && less(y, z) ==> less(x, z))
    && (forall x, y :: x == y || less(x, y) || less(y, x))
  }

  ghost predicate StrictlySorted<T(!new)>(s: seq<T>, less: (T, T) -> bool) {
    forall i, j :: 0 <= i < j < |s| ==> less(s[i], s[j])
  }

  /** Where x belongs in a sorted list. */
  function Insert<T(==)>(s: seq<T>, x: T, less: (T, T) -> bool): seq<T> {
    if |s| == 0 then [x]
    else if x == s[0] then s
    else if less(x, s[0]) then [x] + s
    else [s[0]] + Insert(s[1..], x, less)
  }

  /** The distinct members of a list, in order. */
  function SortedDistinct<T(==)>(s: seq<T>, less: (T, T) -> bool): seq<T> {
    if |s| == 0 then [] else Insert(SortedDistinct(s[..|s| - 1], less), s[|s| - 1], less)
  }

  lemma {:induction false} InsertMembers<T>(s: seq<T>, x: T, less: (T, T) -> bool)
    ensures forall y :: y in Insert(s, x, less) <==> y in s || y == x
  {
    if |s| > 0 && x != s[0] && !less(x, s[0]) {
      InsertMembers(s[1..], x, less);
      assert s == [s[0]] + s[1..];
    }
  }

  lemma {:induction false} InsertSorted<T(!new)>(s: seq<T>, x: T, less: (T, T) -> bool)
    requires StrictTotalOrder(less) && StrictlySorted(s, less)
    ensures StrictlySorted(Insert(s, x, less), less)
  {
    if |s| > 0 && x != s[0] {
      if less(x, s[0]) {
        var r := [x] + s;
        forall i, j | 0 <= i < j < |r|
          ensures less(r[i], r[j])
        {
          if i == 0 {
            assert r[j] == s[j - 1];
            assert j == 1 || less(s[0], s[j - 1]);
          }
        }
      } else {
        var rest := Insert(s[1..], x, less);
        InsertSorted(s[1..], x, less);
        InsertMembers(s[1..], x, less);
        forall j | 0 <= j < |rest|
          ensures less(s[0], rest[j])
        {
          assert rest[j] in rest;
          assert rest[j] in s[1..] || rest[j] == x;
        }
      }
    }
  }

  lemma {:induction false} SortedDistinctIsSorted<T(!new)>(s: seq<T>, less: (T, T) -> bool)
    requires StrictTotalOrder(less)
    ensures StrictlySorted(SortedDistinct(s, less), less)
    ensures forall x :: x in SortedDistinct(s, less) <==> x in s
  {
    if |s| > 0 {
      SortedDistinctIsSorted(s[..|s| - 1], less);
      InsertSorted(SortedDistinct(s[..|s| - 1], less), s[|s| - 1], less);
      InsertMembers(SortedDistinct(s[..|s| - 1], less), s[|s| - 1], less);
      assert s == s[..|s| - 1] + [s[|s| - 1]];
    }
  }

  /** A sorted list is determined by its members. */
  lemma {:induction false} SortedUnique<T(!new)>(a: seq<T>, b: seq<T>, less: (T, T) -> bool)
    requires StrictTotalOrder(less) && StrictlySorted(a, less) && StrictlySorted(b, less)
    requires forall x :: x in a <==> x in b
    ensures a == b
  {
    assert |a| > 0 ==> a[0] in a;
    assert |b| > 0 ==> b[0] in b;
    if |a| > 0 {
      assert a[0] == b[0];
      assert a == [a[0]] + a[1..];
      assert b == [b[0]] + b[1..];
      forall x
        ensures x in a[1..] <==> x in b[1..]
      {
        assert x in a[1..] ==> x in a && less(a[0], x);
        assert x in b[1..] ==> x in b && less(b[0], x);
      }
      SortedUnique(a[1..], b[1..], less);
    }
  }

  /** Sorting the members of a set, taken out in any order. */
  method Sorted<T(==, !new)>(members: set<T>, less: (T, T) -> bool) returns (sorted: seq<T>)
    requires StrictTotalOrder(less)
    ensures StrictlySorted(sorted, less)
    ensures forall x :: x in sorted <==> x in members
  {
    sorted := [];
    var rest := members;
    while rest != {}
      invariant rest <= members
      invariant StrictlySorted(sorted, less)
      invariant forall x :: x in sorted <==> x in members - rest
      decreases rest
    {
      var x :| x in rest;
      InsertSorted(sorted, x, less);
      InsertMembers(sorted, x, less);
      sorted := Insert(sorted, x, less);
      rest := rest - {x};
    }
  }
}
