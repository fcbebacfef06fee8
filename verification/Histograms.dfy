/** How often each bucket occurs, and quantiles read off cumulative counts. */
module Histograms {
  import opened Basics
  import opened Sorting
  import opened Quantiles

  type Histogram = map<real, nat>

  /** The histogram counts every value, and nothing else. */
  ghost predicate IsHistogram(h: Histogram, values: multiset<real>) {
    forall b :: (b in h <==> b in values) && (b in h ==> h[b] == values[b])
  }

  function AddTo(h: Histogram, b: real, n: nat): Histogram {
    h[b := n + if b in h then h[b] else 0]
  }

  lemma {:induction false} AddCounts(h: Histogram, values: multiset<real>, more: seq<real>, b: real)
    requires IsHistogram(h, values) && |more| > 0 && forall i :: 0 <= i < |more| ==> more[i] == b
    ensures IsHistogram(AddTo(h, b, |more|), values + multiset(more))
  {
    AllAlike(more, b);
    forall c | c != b
      ensures c !in multiset(more)
    {
    }
  }

  lemma {:induction false} AllAlike(s: seq<real>, b: real)
    requires forall i :: 0 <= i < |s| ==> s[i] == b
    ensures multiset(s)[b] == |s|
  {
    if |s| > 0 {
      assert s == s[..|s| - 1] + [s[|s| - 1]];
      AllAlike(s[..|s| - 1], b);
    }
  }

  lemma {:induction false} CountNone(values: seq<real>, v: real)
    requires forall i :: 0 <= i < |values| ==> v < values[i]
    ensures CountAtMost(values, v) == 0
  {
    if |values| > 0 {
      CountNone(values[..|values| - 1], v);
    }
  }

  /** From one bucket to the next, the count grows by how often the next one occurs. */
  lemma {:induction false} CountStep(values: seq<real>, v: real, w: real)
    requires v < w && forall i :: 0 <= i < |values| ==> values[i] <= v || w <= values[i]
    ensures CountAtMost(values, w) == CountAtMost(values, v) + multiset(values)[w]
  {
    if |values| > 0 {
      var rest := values[..|values| - 1];
      assert values == rest + [values[|values| - 1]];
      CountStep(rest, v, w);
    }
  }

  predicate Less(x: real, y: real) {
    x < y
  }

  lemma {:induction false} LessIsOrder()
    ensures StrictTotalOrder(Less)
  {
  }

  lemma {:induction false} Counts(h: Histogram, values: seq<real>)
    requires IsHistogram(h, multiset(values))
    ensures forall b :: (b in h <==> b in values) && (b in h ==> h[b] == multiset(values)[b])
  {
    forall b
      ensures b in h <==> b in values
    {
      assert b in values <==> b in multiset(values);
    }
  }

  /** sum(...) OVER (ORDER BY bucket). */
  method Cumulate(h: Histogram, ghost values: seq<real>) returns (buckets: seq<real>, cumulative: seq<nat>)
    requires IsHistogram(h, multiset(values))
    ensures StrictlySorted(buckets, Less)
    ensures forall b :: b in buckets <==> b in values
    ensures |cumulative| == |buckets|
    ensures forall i :: 0 <= i < |buckets| ==> cumulative[i] == CountAtMost(values, buckets[i])
  {
    LessIsOrder();
    buckets := Sorted(h.Keys, Less);
    Counts(h, values);
    cumulative := [];
    var sum := 0;
    for i := 0 to |buckets|
      invariant |cumulative| == i && Cumulates(values, buckets, cumulative)
      invariant sum == if i == 0 then 0 else CountAtMost(values, buckets[i - 1])
    {
      assert buckets[i] in buckets && h[buckets[i]] == multiset(values)[buckets[i]];
      NextBucket(values, buckets, i);
      hide CountAtMost, StrictTotalOrder, StrictlySorted, IsHistogram, Less, Cumulates;
      sum := sum + h[buckets[i]];
      CumulatesOneMore(values, buckets, cumulative, sum);
      cumulative := cumulative + [sum];
    }
  }

  ghost predicate Cumulates(values: seq<real>, buckets: seq<real>, cumulative: seq<nat>) {
    && |cumulative| <= |buckets|
    && forall i :: 0 <= i < |cumulative| ==> cumulative[i] == CountAtMost(values, buckets[i])
  }

  lemma {:induction false} CumulatesOneMore(values: seq<real>, buckets: seq<real>, cumulative: seq<nat>, sum: nat)
    requires Cumulates(values, buckets, cumulative) && |cumulative| < |buckets|
    requires sum == CountAtMost(values, buckets[|cumulative|])
    ensures Cumulates(values, buckets, cumulative + [sum])
  {
  }

  lemma {:induction false} Contained(values: seq<real>, buckets: seq<real>, i: int)
    requires 0 <= i < |values| && forall b :: b in buckets <==> b in values
    ensures exists k :: 0 <= k < |buckets| && buckets[k] == values[i]
  {
    var v: real := values[i];
    assert exists j :: 0 <= j < |values| && values[j] == v;
    assert v in values;
    assert v in buckets;
  }

  lemma {:induction false} NextBucket(values: seq<real>, buckets: seq<real>, i: int)
    requires 0 <= i < |buckets| && StrictlySorted(buckets, Less) && forall b :: b in buckets <==> b in values
    ensures CountAtMost(values, buckets[i])
         == (if i == 0 then 0 else CountAtMost(values, buckets[i - 1])) + multiset(values)[buckets[i]]
  {
    var w := buckets[i];
    var v := if i == 0 then w - 1.0 else buckets[i - 1];
    assert i == 0 || Less(buckets[i - 1], buckets[i]);
    forall j | 0 <= j < |values|
      ensures values[j] <= v || w <= values[j]
      ensures i == 0 ==> v < values[j]
    {
      Contained(values, buckets, j);
      var k :| 0 <= k < |buckets| && buckets[k] == values[j];
      assert k < i - 1 ==> Less(buckets[k], buckets[i - 1]);
      assert i < k ==> Less(buckets[i], buckets[k]);
    }
    CountStep(values, v, w);
    if i == 0 {
      CountNone(values, v);
    }
  }

  /** min(bucket) FILTER (WHERE cumulative >= q * total). */
  method Quantile(h: Histogram, q: real, ghost values: seq<real>) returns (v: real)
    requires IsHistogram(h, multiset(values)) && |values| > 0 && q <= 1.0
    ensures IsQuantile(values, q, v)
  {
    var buckets, cumulative := Cumulate(h, values);
    Contained(values, buckets, 0);
    LastCountsAll(values, buckets);
    var total := cumulative[|buckets| - 1];
    Share(q, total);
    var i := 0;
    while cumulative[i] as real < Times(q, total as real)
      invariant 0 <= i < |buckets|
      invariant forall k :: 0 <= k < i ==> !Covers(values, q, buckets[k])
      decreases |buckets| - i
    {
      i := i + 1;
    }
    v := buckets[i];
    assert v in buckets;
    forall w | w in values && w < v
      ensures !Covers(values, q, w)
    {
      assert w in buckets;
      var k :| 0 <= k < |buckets| && buckets[k] == w;
      assert i < k ==> Less(buckets[i], buckets[k]);
    }
  }

  lemma {:induction false} LastCountsAll(values: seq<real>, buckets: seq<real>)
    requires |buckets| > 0 && StrictlySorted(buckets, Less) && forall b :: b in buckets <==> b in values
    ensures CountAtMost(values, buckets[|buckets| - 1]) == |values|
  {
    var last := |buckets| - 1;
    forall i | 0 <= i < |values|
      ensures values[i] <= buckets[last]
    {
      Contained(values, buckets, i);
      var k :| 0 <= k < |buckets| && buckets[k] == values[i];
      assert k < last ==> Less(buckets[k], buckets[last]);
    }
    CountAll(values, buckets[last]);
  }
}
