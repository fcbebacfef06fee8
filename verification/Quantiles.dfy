/** Quantiles of a list of numbers, and of the buckets that stand for them. */
module Quantiles {
  import opened Basics
  import opened Seqs
  import opened Buckets

  /** How many values are at most v. */
  function CountAtMost(values: seq<real>, v: real): (n: nat)
    ensures n <= |values|
  {
    if |values| == 0 then 0
    else CountAtMost(values[..|values| - 1], v) + (if values[|values| - 1] <= v then 1 else 0)
  }

  /** v is a value that at least the share q of the values do not exceed. */
  predicate Covers(values: seq<real>, q: real, v: real) {
    CountAtMost(values, v) as real >= Times(q, |values| as real)
  }

  /** v is the least value that covers the share q. */
  ghost predicate IsQuantile(values: seq<real>, q: real, v: real) {
    v in values && Covers(values, q, v) && forall w :: w in values && w < v ==> !Covers(values, q, w)
  }

  lemma {:induction false} CountAll(values: seq<real>, v: real)
    requires forall i :: 0 <= i < |values| ==> values[i] <= v
    ensures CountAtMost(values, v) == |values|
  {
    if |values| > 0 {
      CountAll(values[..|values| - 1], v);
    }
  }

  lemma {:induction false} GreatestValue(values: seq<real>) returns (v: real)
    requires |values| > 0
    ensures v in values && forall w :: w in values ==> w <= v
  {
    v := values[0];
    if |values| > 1 {
      var rest := values[..|values| - 1];
      var w := GreatestValue(rest);
      assert values == rest + [values[|values| - 1]];
      v := if w < values[|values| - 1] then values[|values| - 1] else w;
    }
  }

  /** Every nonempty list has every quantile. */
  lemma {:induction false} QuantileExists(values: seq<real>, q: real) returns (v: real)
    requires |values| > 0 && q <= 1.0
    ensures IsQuantile(values, q, v)
  {
    v := GreatestValue(values);
    forall i | 0 <= i < |values|
      ensures values[i] <= v
    {
      assert values[i] in values;
    }
    CountAll(values, v);
    Share(q, |values|);
    v := Descend(values, q, v, set w | w in values && w < v);
  }

  lemma {:induction false} Share(q: real, n: nat)
    requires q <= 1.0
    ensures Times(q, n as real) <= n as real
  {
  }

  lemma {:induction false} Descend(values: seq<real>, q: real, from: real, below: set<real>) returns (v: real)
    requires from in values && Covers(values, q, from)
    requires below == set w | w in values && w < from
    ensures IsQuantile(values, q, v)
    decreases below
  {
    v := from;
    if !IsQuantile(values, q, from) {
      var w :| w in values && w < from && Covers(values, q, w);
      var lower := set u | u in values && u < w;
      assert w in below && w !in lower;
      assert lower <= below;
      v := Descend(values, q, w, lower);
    }
  }

  lemma {:induction false} QuantileUnique(values: seq<real>, q: real, v: real, w: real)
    requires IsQuantile(values, q, v) && IsQuantile(values, q, w)
    ensures v == w
  {
  }

  /** The quantile of a nonempty list. */
  ghost function QuantileOf(values: seq<real>, q: real): (v: real)
    requires |values| > 0 && q <= 1.0
    ensures IsQuantile(values, q, v)
  {
    QuantileIsThere(values, q);
    var v :| IsQuantile(values, q, v);
    v
  }

  lemma {:induction false} QuantileIsThere(values: seq<real>, q: real)
    requires |values| > 0 && q <= 1.0
    ensures exists v :: IsQuantile(values, q, v)
  {
    var v := QuantileExists(values, q);
  }

  /** A larger share has a quantile at least as large. */
  lemma {:induction false} QuantileMonotone(values: seq<real>, p: real, q: real, v: real, w: real)
    requires p <= q && IsQuantile(values, p, v) && IsQuantile(values, q, w)
    ensures v <= w
  {
    ShareMonotone(p, q, |values|);
  }

  lemma {:induction false} ShareMonotone(p: real, q: real, n: nat)
    requires p <= q
    ensures Times(p, n as real) <= Times(q, n as real)
  {
  }

  function BucketsOf(values: seq<real>): (r: seq<real>)
    ensures |r| == |values| && forall i :: 0 <= i < |r| ==> r[i] == Bucket(values[i])
  {
    seq(|values|, i requires 0 <= i < |values| => Bucket(values[i]))
  }

  /** Counting buckets counts the values whose buckets are low enough. */
  lemma {:induction false} CountBuckets(values: seq<real>, v: real, b: real)
    requires forall i :: 0 <= i < |values| && values[i] <= v ==> Bucket(values[i]) <= b
    ensures CountAtMost(values, v) <= CountAtMost(BucketsOf(values), b)
  {
    if |values| > 0 {
      var rest := values[..|values| - 1];
      CountBuckets(rest, v, b);
      assert BucketsOf(values)[..|values| - 1] == BucketsOf(rest);
    }
  }

  lemma {:induction false} CountValues(values: seq<real>, v: real, b: real)
    requires forall i :: 0 <= i < |values| && Bucket(values[i]) <= b ==> values[i] <= v
    ensures CountAtMost(BucketsOf(values), b) <= CountAtMost(values, v)
  {
    if |values| > 0 {
      var rest := values[..|values| - 1];
      CountValues(rest, v, b);
      assert BucketsOf(values)[..|values| - 1] == BucketsOf(rest);
    }
  }

  /** The quantile of the buckets is the bucket of the quantile. */
  lemma {:induction false} BucketOfQuantile(values: seq<real>, q: real, v: real)
    requires IsQuantile(values, q, v)
    ensures IsQuantile(BucketsOf(values), q, Bucket(v))
  {
    var bs := BucketsOf(values);
    var i :| 0 <= i < |values| && values[i] == v;
    assert bs[i] == Bucket(v);
    forall j | 0 <= j < |values| && values[j] <= v
      ensures Bucket(values[j]) <= Bucket(v)
    {
      BucketMonotone(values[j], v);
    }
    CountBuckets(values, v, Bucket(v));
    forall b | b in bs && b < Bucket(v)
      ensures !Covers(bs, q, b)
    {
      LowerBucketDoesNotCover(values, q, v, b);
    }
  }

  lemma {:induction false} LowerBucketDoesNotCover(values: seq<real>, q: real, v: real, b: real)
    requires IsQuantile(values, q, v)
    requires b in BucketsOf(values) && b < Bucket(v)
    ensures !Covers(BucketsOf(values), q, b)
  {
    var low := Filter(values, x => Bucket(x) <= b);
    FilterMembers(values, x => Bucket(x) <= b);
    var j :| 0 <= j < |values| && BucketsOf(values)[j] == b;
    assert values[j] in low;
    var w := GreatestValue(low);
    assert w in values && Bucket(w) <= b;
    if v <= w {
      BucketMonotone(v, w);
    }
    assert !Covers(values, q, w);
    forall i | 0 <= i < |values| && Bucket(values[i]) <= b
      ensures values[i] <= w
    {
      assert values[i] in low;
    }
    CountValues(values, w, b);
  }

  /** A quantile read off the buckets is within one part in 101 of the quantile of the values. */
  lemma {:induction false} BucketQuantileAccurate(values: seq<real>, q: real, b: real) returns (v: real)
    requires q <= 1.0 && IsQuantile(BucketsOf(values), q, b)
    ensures IsQuantile(values, q, v) && b == Bucket(v)
    ensures v <= 0.0 ==> b == 0.0
    ensures v > 0.0 ==> v - v / 101.0 <= b <= v + v / 101.0
  {
    v := QuantileExists(values, q);
    BucketOfQuantile(values, q, v);
    QuantileUnique(BucketsOf(values), q, b, Bucket(v));
    if v > 0.0 {
      BucketAccurate(v);
    }
  }
}
