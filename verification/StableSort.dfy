/** Ordering by time, with equal times kept in their order. */
module StableSort {
  import opened Basics
  import opened Seqs

  /** x goes behind everything that is not later. */
  function InsertByTime<T>(s: seq<T>, x: T, at: T -> Time): seq<T> {
    if |s| == 0 || at(s[|s| - 1]) <= at(x) then s + [x]
    else InsertByTime(s[..|s| - 1], x, at) + [s[|s| - 1]]
  }

  function SortByTime<T>(s: seq<T>, at: T -> Time): seq<T> {
    if |s| == 0 then [] else InsertByTime(SortByTime(s[..|s| - 1], at), s[|s| - 1], at)
  }

  ghost predicate InTimeOrder<T>(s: seq<T>, at: T -> Time) {
    forall i, j :: 0 <= i < j < |s| ==> at(s[i]) <= at(s[j])
  }

  /** r holds the members of s in time order, and those of one time in the order of s. */
  ghost predicate IsStableSortOf<T>(r: seq<T>, s: seq<T>, at: T -> Time) {
    && InTimeOrder(r, at)
    && multiset(r) == multiset(s)
    && forall t: Time :: AtTime(r, at, t) == AtTime(s, at, t)
  }

  /** The members that are at time t, in order. */
  function AtTime<T>(s: seq<T>, at: T -> Time, t: Time): seq<T> {
    if |s| == 0 then []
    else AtTime(s[..|s| - 1], at, t) + (if at(s[|s| - 1]) == t then [s[|s| - 1]] else [])
  }

  lemma {:induction false} AtTimeAppend<T>(s: seq<T>, x: T, at: T -> Time, t: Time)
    ensures AtTime(s + [x], at, t) == AtTime(s, at, t) + (if at(x) == t then [x] else [])
  {
    assert (s + [x])[..|s|] == s;
  }

  lemma {:induction false} AtTimeFilter<T>(s: seq<T>, p: T -> bool, at: T -> Time, t: Time)
    ensures AtTime(Filter(s, p), at, t) == Filter(AtTime(s, at, t), p)
  {
    if |s| > 0 {
      var rest, l := s[..|s| - 1], s[|s| - 1];
      AtTimeFilter(rest, p, at, t);
      assert s == rest + [l];
      FilterAppend(rest, l, p);
      AtTimeAppend(rest, l, at, t);
      AtTimeAppend(Filter(rest, p), l, at, t);
      FilterAppend(AtTime(rest, at, t), l, p);
      assert Filter(rest, p) + [] == Filter(rest, p);
      assert AtTime(rest, at, t) + [] == AtTime(rest, at, t);
    }
  }

  lemma {:induction false} NoneAtTime<T>(s: seq<T>, at: T -> Time, t: Time)
    requires forall x :: x in s ==> at(x) < t
    ensures AtTime(s, at, t) == []
  {
    if |s| > 0 {
      assert s == s[..|s| - 1] + [s[|s| - 1]];
      NoneAtTime(s[..|s| - 1], at, t);
    }
  }

  lemma {:induction false} InsertKeepsOrder<T>(s: seq<T>, x: T, at: T -> Time)
    requires InTimeOrder(s, at)
    ensures InTimeOrder(InsertByTime(s, x, at), at)
  {
    if |s| > 0 && at(s[|s| - 1]) > at(x) {
      var rest, l := s[..|s| - 1], s[|s| - 1];
      InsertKeepsOrder(rest, x, at);
      InsertUpTo(rest, x, at, at(l));
    }
  }

  lemma {:induction false} InsertKeepsMembers<T>(s: seq<T>, x: T, at: T -> Time)
    ensures multiset(InsertByTime(s, x, at)) == multiset(s) + multiset{x}
  {
    if |s| > 0 && at(s[|s| - 1]) > at(x) {
      var rest, l := s[..|s| - 1], s[|s| - 1];
      assert s == rest + [l];
      InsertKeepsMembers(rest, x, at);
    }
  }

  lemma {:induction false} InsertUpTo<T>(s: seq<T>, x: T, at: T -> Time, bound: Time)
    requires at(x) <= bound && forall i :: 0 <= i < |s| ==> at(s[i]) <= bound
    ensures forall i :: 0 <= i < |InsertByTime(s, x, at)| ==> at(InsertByTime(s, x, at)[i]) <= bound
  {
    if |s| > 0 {
      InsertUpTo(s[..|s| - 1], x, at, bound);
    }
  }

  lemma {:induction false} InsertIsStable<T>(s: seq<T>, x: T, at: T -> Time, t: Time)
    ensures AtTime(InsertByTime(s, x, at), at, t) == AtTime(s + [x], at, t)
  {
    AtTimeAppend(s, x, at, t);
    if |s| > 0 && at(s[|s| - 1]) > at(x) {
      var rest, l := s[..|s| - 1], s[|s| - 1];
      InsertIsStable(rest, x, at, t);
      AtTimeAppend(InsertByTime(rest, x, at), l, at, t);
      AtTimeAppend(rest, x, at, t);
    }
  }

  lemma {:induction false} SortIsStable<T>(s: seq<T>, at: T -> Time)
    ensures IsStableSortOf(SortByTime(s, at), s, at)
  {
    if |s| > 0 {
      var rest, l := s[..|s| - 1], s[|s| - 1];
      assert s == rest + [l];
      SortIsStable(rest, at);
      InsertKeepsOrder(SortByTime(rest, at), l, at);
      InsertKeepsMembers(SortByTime(rest, at), l, at);
      forall t: Time
        ensures AtTime(SortByTime(s, at), at, t) == AtTime(s, at, t)
      {
        InsertIsStable(SortByTime(rest, at), l, at, t);
        AtTimeAppend(SortByTime(rest, at), l, at, t);
      }
    }
  }

  lemma {:induction false} InsertLast<T>(s: seq<T>, x: T, at: T -> Time)
    requires |s| > 0 ==> at(s[|s| - 1]) <= at(x)
    ensures InsertByTime(s, x, at) == s + [x]
  {
  }

  /** A list in time order stays as it is. */
  lemma {:induction false} SortOfSorted<T>(s: seq<T>, at: T -> Time)
    requires InTimeOrder(s, at)
    ensures SortByTime(s, at) == s
  {
    if |s| > 0 {
      var rest, l := s[..|s| - 1], s[|s| - 1];
      SortOfSorted(rest, at);
      InsertLast(rest, l, at);
      assert s == rest + [l];
      hide InsertByTime;
    }
  }

  lemma {:induction false} FilterUpTo<T>(s: seq<T>, p: T -> bool, at: T -> Time, bound: Time)
    requires forall i :: 0 <= i < |s| ==> at(s[i]) <= bound
    ensures forall i :: 0 <= i < |Filter(s, p)| ==> at(Filter(s, p)[i]) <= bound
  {
    if |s| > 0 {
      FilterUpTo(s[..|s| - 1], p, at, bound);
    }
  }

  lemma {:induction false} FilterInTimeOrder<T>(s: seq<T>, p: T -> bool, at: T -> Time)
    requires InTimeOrder(s, at)
    ensures InTimeOrder(Filter(s, p), at)
  {
    if |s| > 0 {
      FilterInTimeOrder(s[..|s| - 1], p, at);
      FilterUpTo(s[..|s| - 1], p, at, at(s[|s| - 1]));
    }
  }

  /** ORDER BY of the rows that meet a condition. */
  method OrderedByTime<T>(rows: seq<T>, p: T -> bool, at: T -> Time) returns (r: seq<T>)
    ensures r == SortByTime(Filter(rows, p), at)
    ensures IsStableSortOf(r, Filter(rows, p), at)
  {
    r := [];
    for i := 0 to |rows|
      invariant r == SortByTime(Filter(rows[..i], p), at)
    {
      assert rows[..i + 1] == rows[..i] + [rows[i]];
      FilterAppend(rows[..i], rows[i], p);
      if p(rows[i]) {
        ghost var f := Filter(rows[..i], p);
        assert (f + [rows[i]])[..|f|] == f;
        r := InsertByTime(r, rows[i], at);
      }
    }
    assert rows[..|rows|] == rows;
    SortIsStable(Filter(rows, p), at);
  }
}
