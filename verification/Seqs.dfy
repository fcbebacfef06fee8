/** Folds over sequences, and why those folds do not depend on the order of their input. */
module Seqs {
  import opened Basics

  /** The values that `f` picks, in order. */
  function FilterMap<T, U>(s: seq<T>, f: T -> Option<U>): seq<U> {
    if |s| == 0 then []
    else
      var rest := FilterMap(s[..|s| - 1], f);
      match f(s[|s| - 1])
      case None => rest
      case Some(v) => rest + [v]
  }

  function Filter<T>(s: seq<T>, p: T -> bool): seq<T> {
    if |s| == 0 then []
    else
      var rest := Filter(s[..|s| - 1], p);
      if p(s[|s| - 1]) then rest + [s[|s| - 1]] else rest
  }

  /** What `f` makes of the members, one after another. */
  function FlatMap<T, U>(s: seq<T>, f: T -> seq<U>): seq<U> {
    if |s| == 0 then [] else FlatMap(s[..|s| - 1], f) + f(s[|s| - 1])
  }

  function Map<T, U>(s: seq<T>, f: T -> U): (r: seq<U>)
    ensures |r| == |s|
    ensures forall i :: 0 <= i < |s| ==> r[i] == f(s[i])
  {
    seq(|s|, i requires 0 <= i < |s| => f(s[i]))
  }

  function Sum(s: seq<real>): real {
    if |s| == 0 then 0.0 else Sum(s[..|s| - 1]) + s[|s| - 1]
  }

  function SumInt(s: seq<int>): int {
    if |s| == 0 then 0 else SumInt(s[..|s| - 1]) + s[|s| - 1]
  }

  lemma {:induction false} FilterMapAppend<T, U>(s: seq<T>, x: T, f: T -> Option<U>)
    ensures FilterMap(s + [x], f) == FilterMap(s, f) + (if f(x).Some? then [f(x).value] else [])
  {
    assert (s + [x])[..|s|] == s;
  }

  lemma {:induction false} FilterAppend<T>(s: seq<T>, x: T, p: T -> bool)
    ensures Filter(s + [x], p) == Filter(s, p) + (if p(x) then [x] else [])
  {
    assert (s + [x])[..|s|] == s;
  }

  lemma {:induction false} FilterMapConcat<T, U>(a: seq<T>, b: seq<T>, f: T -> Option<U>)
    ensures FilterMap(a + b, f) == FilterMap(a, f) + FilterMap(b, f)
  {
    if |b| == 0 {
      assert a + b == a;
    } else {
      var b', x := b[..|b| - 1], b[|b| - 1];
      assert a + b == (a + b') + [x] && b == b' + [x];
      FilterMapAppend(a + b', x, f);
      FilterMapAppend(b', x, f);
      FilterMapConcat(a, b', f);
    }
  }

  /** What holds of every member by its place still holds after appending a member it holds of. */
  lemma {:induction false} AppendAll<T>(s: seq<T>, x: T, p: (int, T) -> bool)
    requires (forall i :: 0 <= i < |s| ==> p(i, s[i])) && p(|s|, x)
    ensures forall i :: 0 <= i < |s + [x]| ==> p(i, (s + [x])[i])
  {
  }

  /** What a filtered mapping contains. */
  lemma {:induction false} FilterMapMembers<T, U>(s: seq<T>, f: T -> Option<U>)
    ensures forall u :: u in FilterMap(s, f) ==> exists i :: 0 <= i < |s| && f(s[i]) == Some(u)
    ensures forall i :: 0 <= i < |s| && f(s[i]).Some? ==> f(s[i]).value in FilterMap(s, f)
  {
    if |s| > 0 {
      var s' := s[..|s| - 1];
      FilterMapMembers(s', f);
      forall u | u in FilterMap(s, f)
        ensures exists i :: 0 <= i < |s| && f(s[i]) == Some(u)
      {
        if u in FilterMap(s', f) {
          var i :| 0 <= i < |s'| && f(s'[i]) == Some(u);
          assert s[i] == s'[i];
        } else {
          assert f(s[|s| - 1]) == Some(u);
        }
      }
      forall i | 0 <= i < |s| && f(s[i]).Some?
        ensures f(s[i]).value in FilterMap(s, f)
      {
        if i < |s| - 1 {
          assert s'[i] == s[i];
        }
      }
    }
  }

  /** Something is picked from the filtered members exactly when some member is kept and picked. */
  lemma {:induction false} FilterMapSome<T, U>(s: seq<T>, p: T -> bool, f: T -> Option<U>)
    ensures |FilterMap(Filter(s, p), f)| > 0 <==> exists i :: 0 <= i < |s| && p(s[i]) && f(s[i]).Some?
  {
    if |s| > 0 {
      var rest, l := s[..|s| - 1], s[|s| - 1];
      FilterMapSome(rest, p, f);
      FilterMapAppend(Filter(rest, p), l, f);
      if i :| 0 <= i < |rest| && p(rest[i]) && f(rest[i]).Some? {
        assert s[i] == rest[i];
      }
      if i :| 0 <= i < |s| && p(s[i]) && f(s[i]).Some? {
        assert i < |rest| ==> rest[i] == s[i];
      }
    }
  }

  /** What holds of every value that `f` picks holds of all that are picked. */
  lemma {:induction false} FilterMapAll<T, U>(s: seq<T>, f: T -> Option<U>, p: U -> bool)
    requires forall i :: 0 <= i < |s| && f(s[i]).Some? ==> p(f(s[i]).value)
    ensures forall j :: 0 <= j < |FilterMap(s, f)| ==> p(FilterMap(s, f)[j])
  {
    if |s| > 0 {
      FilterMapAll(s[..|s| - 1], f, p);
    }
  }

  lemma {:induction false} FilterMembers<T>(s: seq<T>, p: T -> bool)
    ensures forall x :: x in Filter(s, p) <==> x in s && p(x)
  {
    if |s| > 0 {
      FilterMembers(s[..|s| - 1], p);
      assert s == s[..|s| - 1] + [s[|s| - 1]];
    }
  }

  lemma {:induction false} FilterNone<T>(s: seq<T>, p: T -> bool)
    requires forall x :: x in s ==> !p(x)
    ensures Filter(s, p) == []
  {
    if |s| > 0 {
      assert s == s[..|s| - 1] + [s[|s| - 1]];
      FilterNone(s[..|s| - 1], p);
    }
  }

  /** A permutation of `a + [x]` is `x` inserted somewhere into a permutation of `a`. */
  lemma {:induction false} PermutationOfAppend<T>(a: seq<T>, x: T, b: seq<T>) returns (b1: seq<T>, b2: seq<T>)
    requires multiset(a + [x]) == multiset(b)
    ensures b == b1 + [x] + b2
    ensures multiset(a) == multiset(b1 + b2)
  {
    assert x in multiset(a + [x]);
    assert x in multiset(b);
    var i :| 0 <= i < |b| && b[i] == x;
    b1, b2 := b[..i], b[i + 1..];
    assert b == b1 + [x] + b2;
    assert multiset(b) == multiset(b1) + multiset([x]) + multiset(b2);
    assert multiset(a + [x]) == multiset(a) + multiset([x]);
    assert multiset(b1 + b2) == multiset(b1) + multiset(b2);
    assert multiset(a) == multiset(b) - multiset([x]);
  }

  lemma {:induction false} FilterMapPermuted<T, U>(a: seq<T>, b: seq<T>, f: T -> Option<U>)
    requires multiset(a) == multiset(b)
    ensures multiset(FilterMap(a, f)) == multiset(FilterMap(b, f))
  {
    if |a| == 0 {
      assert |multiset(b)| == 0;
    } else {
      var a', x := a[..|a| - 1], a[|a| - 1];
      assert a == a' + [x];
      var b1, b2 := PermutationOfAppend(a', x, b);
      FilterMapPermuted(a', b1 + b2, f);
      FilterMapAppend(a', x, f);
      FilterMapConcat(b1 + [x], b2, f);
      FilterMapAppend(b1, x, f);
      FilterMapConcat(b1, b2, f);
    }
  }

  lemma {:induction false} FilterConcat<T>(a: seq<T>, b: seq<T>, p: T -> bool)
    ensures Filter(a + b, p) == Filter(a, p) + Filter(b, p)
  {
    if |b| == 0 {
      assert a + b == a;
    } else {
      var b', x := b[..|b| - 1], b[|b| - 1];
      assert a + b == (a + b') + [x] && b == b' + [x];
      FilterAppend(a + b', x, p);
      FilterAppend(b', x, p);
      FilterConcat(a, b', p);
    }
  }

  /** Filtering commutes with permuting. */
  lemma {:induction false} FilterPermuted<T>(a: seq<T>, b: seq<T>, p: T -> bool)
    requires multiset(a) == multiset(b)
    ensures multiset(Filter(a, p)) == multiset(Filter(b, p))
  {
    if |a| == 0 {
      assert |multiset(b)| == 0;
    } else {
      var a', x := a[..|a| - 1], a[|a| - 1];
      assert a == a' + [x];
      var b1, b2 := PermutationOfAppend(a', x, b);
      FilterPermuted(a', b1 + b2, p);
      FilterAppend(a', x, p);
      FilterConcat(b1 + [x], b2, p);
      FilterAppend(b1, x, p);
      FilterConcat(b1, b2, p);
    }
  }

  lemma {:induction false} MapConcat<T, U>(a: seq<T>, b: seq<T>, f: T -> U)
    ensures Map(a + b, f) == Map(a, f) + Map(b, f)
  {
  }

  /** Mapping commutes with permuting. */
  lemma {:induction false} MapPermuted<T, U>(a: seq<T>, b: seq<T>, f: T -> U)
    requires multiset(a) == multiset(b)
    ensures multiset(Map(a, f)) == multiset(Map(b, f))
  {
    if |a| == 0 {
      assert |multiset(b)| == 0;
    } else {
      var a', x := a[..|a| - 1], a[|a| - 1];
      assert a == a' + [x];
      var b1, b2 := PermutationOfAppend(a', x, b);
      MapPermuted(a', b1 + b2, f);
      MapConcat(a', [x], f);
      MapConcat(b1 + [x], b2, f);
      MapConcat(b1, [x], f);
      MapConcat(b1, b2, f);
    }
  }

  /** Splitting a list by two exclusive conditions permutes it. */
  lemma {:induction false} FilterSplit<T>(s: seq<T>, p: T -> bool, q: T -> bool, either: T -> bool)
    requires forall x :: x in s ==> (either(x) <==> p(x) || q(x)) && !(p(x) && q(x))
    ensures multiset(Filter(s, either)) == multiset(Filter(s, p) + Filter(s, q))
  {
    if |s| > 0 {
      var s', x := s[..|s| - 1], s[|s| - 1];
      assert s == s' + [x];
      FilterSplit(s', p, q, either);
      FilterAppend(s', x, p);
      FilterAppend(s', x, q);
      FilterAppend(s', x, either);
    }
  }

  /** Filters that agree on the members of a list agree. */
  lemma {:induction false} FilterAgrees<T>(s: seq<T>, p: T -> bool, q: T -> bool)
    requires forall x :: x in s ==> (p(x) <==> q(x))
    ensures Filter(s, p) == Filter(s, q)
  {
    if |s| > 0 {
      var s' := s[..|s| - 1];
      assert s == s' + [s[|s| - 1]];
      FilterAgrees(s', p, q);
    }
  }

  lemma {:induction false} FilterMapAgrees<T, U>(s: seq<T>, f: T -> Option<U>, g: T -> Option<U>)
    requires forall x :: x in s ==> f(x) == g(x)
    ensures FilterMap(s, f) == FilterMap(s, g)
  {
    if |s| > 0 {
      var s' := s[..|s| - 1];
      assert s == s' + [s[|s| - 1]];
      FilterMapAgrees(s', f, g);
    }
  }

  lemma {:induction false} FilterFilter<T>(s: seq<T>, p: T -> bool, q: T -> bool, both: T -> bool)
    requires forall x :: x in s ==> (both(x) <==> p(x) && q(x))
    ensures Filter(Filter(s, p), q) == Filter(s, both)
  {
    if |s| > 0 {
      var s', x := s[..|s| - 1], s[|s| - 1];
      assert s == s' + [x];
      FilterFilter(s', p, q, both);
      FilterAppend(Filter(s', p), x, q);
    }
  }

  lemma {:induction false} SumConcat(a: seq<real>, b: seq<real>)
    ensures Sum(a + b) == Sum(a) + Sum(b)
  {
    if |b| == 0 {
      assert a + b == a;
    } else {
      assert (a + b)[..|a + b| - 1] == a + b[..|b| - 1];
      SumConcat(a, b[..|b| - 1]);
    }
  }

  lemma {:induction false} SumPermuted(a: seq<real>, b: seq<real>)
    requires multiset(a) == multiset(b)
    ensures Sum(a) == Sum(b) && |a| == |b|
  {
    assert |a| == |multiset(a)| == |multiset(b)| == |b|;
    if |a| > 0 {
      var a', x := a[..|a| - 1], a[|a| - 1];
      assert a == a' + [x];
      var b1, b2 := PermutationOfAppend(a', x, b);
      SumPermuted(a', b1 + b2);
      SumConcat(b1 + [x], b2);
      SumConcat(b1, [x]);
      SumConcat(b1, b2);
      assert Sum([x]) == x by { assert [x][..0] == []; }
    }
  }

  lemma {:induction false} SumIntConcat(a: seq<int>, b: seq<int>)
    ensures SumInt(a + b) == SumInt(a) + SumInt(b)
  {
    if |b| == 0 {
      assert a + b == a;
    } else {
      assert (a + b)[..|a + b| - 1] == a + b[..|b| - 1];
      SumIntConcat(a, b[..|b| - 1]);
    }
  }

  lemma {:induction false} SumIntPermuted(a: seq<int>, b: seq<int>)
    requires multiset(a) == multiset(b)
    ensures SumInt(a) == SumInt(b)
  {
    if |a| == 0 {
      assert |multiset(b)| == 0;
    } else {
      var a', x := a[..|a| - 1], a[|a| - 1];
      assert a == a' + [x];
      var b1, b2 := PermutationOfAppend(a', x, b);
      SumIntPermuted(a', b1 + b2);
      SumIntConcat(b1 + [x], b2);
      SumIntConcat(b1, [x]);
      SumIntConcat(b1, b2);
      assert SumInt([x]) == x by { assert [x][..0] == []; }
    }
  }

  /** A sum lies between its length times any lower and any upper bound of its terms. */
  lemma {:induction false} SumBetween(s: seq<real>, lo: real, hi: real)
    requires forall i :: 0 <= i < |s| ==> lo <= s[i] <= hi
    ensures |s| as real * lo <= Sum(s) <= |s| as real * hi
  {
    if |s| > 0 {
      SumBetween(s[..|s| - 1], lo, hi);
      assert |s| as real == (|s| - 1) as real + 1.0;
    }
  }

  /** Picking from the kept members is picking from those members that are kept. */
  lemma {:induction false} PickKept<T, U>(s: seq<T>, keep: T -> bool, f: T -> Option<U>, both: T -> Option<U>)
    requires forall x :: x in s ==> both(x) == if keep(x) then f(x) else None
    ensures FilterMap(Filter(s, keep), f) == FilterMap(s, both)
  {
    if |s| > 0 {
      var rest, l := s[..|s| - 1], s[|s| - 1];
      assert s == rest + [l];
      PickKept(rest, keep, f, both);
      FilterMapAppend(Filter(rest, keep), l, f);
    }
  }

  /** Picking values is picking their sources and looking the values up. */
  lemma {:induction false} PickThenMap<T, U, V>(s: seq<T>, f: T -> Option<V>, source: T -> Option<U>, value: U -> V)
    requires forall x :: x in s ==> f(x) == match source(x) case Some(u) => Some(value(u)) case None => None
    ensures FilterMap(s, f) == Map(FilterMap(s, source), value)
  {
    if |s| > 0 {
      var rest, l := s[..|s| - 1], s[|s| - 1];
      assert s == rest + [l];
      PickThenMap(rest, f, source, value);
      MapConcat(FilterMap(rest, source), if source(l).Some? then [source(l).value] else [], value);
    }
  }

  lemma {:induction false} SumMapAppend<T>(s: seq<T>, x: T, f: T -> real)
    ensures Sum(Map(s + [x], f)) == Sum(Map(s, f)) + f(x)
  {
    var l := Map(s + [x], f);
    assert l[..|s|] == Map(s, f) && l[|s|] == f(x);
  }

  lemma {:induction false} SumOfKept<T(!new)>(s: seq<T>, keep: T -> bool, f: T -> Option<real>, g: T -> real)
    requires forall x :: g(x) == if keep(x) && f(x).Some? then f(x).value else 0.0
    ensures Sum(FilterMap(Filter(s, keep), f)) == Sum(Map(s, g))
  {
    if |s| > 0 {
      var rest, l := s[..|s| - 1], s[|s| - 1];
      assert s == rest + [l];
      SumOfKept(rest, keep, f, g);
      FilterAppend(rest, l, keep);
      FilterMapAppend(Filter(rest, keep), l, f);
      SumMapAppend(rest, l, g);
      hide Filter, FilterMap, Sum, Map;
      if keep(l) && f(l).Some? {
        SumOneMore(FilterMap(Filter(rest, keep), f), f(l).value);
      }
    }
  }

  lemma {:induction false} SumOfSources<T(!new), U>(s: seq<T>, source: T -> Option<U>, value: U -> real, g: T -> real)
    requires forall x :: g(x) == match source(x) case Some(u) => value(u) case None => 0.0
    ensures Sum(Map(FilterMap(s, source), value)) == Sum(Map(s, g))
  {
    if |s| > 0 {
      var rest, l := s[..|s| - 1], s[|s| - 1];
      assert s == rest + [l];
      SumOfSources(rest, source, value, g);
      FilterMapAppend(rest, l, source);
      SumMapAppend(rest, l, g);
      hide FilterMap, Sum, Map;
      if source(l).Some? {
        SumMapAppend(FilterMap(rest, source), source(l).value, value);
      }
    }
  }

  /** Adding what is picked of the kept members is adding what their sources are worth. */
  lemma {:induction false} SumOfPicked<T(!new), U>(s: seq<T>, keep: T -> bool, f: T -> Option<real>,
      source: T -> Option<U>, value: U -> real, g: T -> real)
    requires forall x :: g(x) == if keep(x) && f(x).Some? then f(x).value else 0.0
    requires forall x :: g(x) == match source(x) case Some(u) => value(u) case None => 0.0
    ensures Sum(FilterMap(Filter(s, keep), f)) == Sum(Map(FilterMap(s, source), value))
  {
    SumOfKept(s, keep, f, g);
    SumOfSources(s, source, value, g);
  }

  lemma {:induction false} SumOneMore(values: seq<real>, v: real)
    ensures Sum(values + [v]) == Sum(values) + v
  {
    assert (values + [v])[..|values|] == values;
  }

  lemma {:induction false} FilterMapOfMap<T(!new), U, V>(s: seq<T>, f: T -> U, g: U -> Option<V>, h: T -> Option<V>)
    requires forall x :: g(f(x)) == h(x)
    ensures FilterMap(Map(s, f), g) == FilterMap(s, h)
  {
    if |s| > 0 {
      FilterMapOfMap(s[..|s| - 1], f, g, h);
      assert Map(s, f)[..|s| - 1] == Map(s[..|s| - 1], f);
    }
  }

  lemma {:induction false} MapOfMap<T(!new), U, V>(s: seq<T>, f: T -> U, g: U -> V, h: T -> V)
    requires forall x :: g(f(x)) == h(x)
    ensures Map(Map(s, f), g) == Map(s, h)
  {
  }

  lemma {:induction false} PickedIsFilter<T(!new)>(s: seq<T>, p: T -> bool, f: T -> Option<T>)
    requires forall x :: f(x) == if p(x) then Some(x) else None
    ensures FilterMap(s, f) == Filter(s, p)
  {
    if |s| > 0 {
      PickedIsFilter(s[..|s| - 1], p, f);
    }
  }
}
