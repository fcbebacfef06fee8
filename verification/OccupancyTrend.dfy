/** The trend of the number of people at one observation point. */
module OccupancyTrend {
  import opened Basics
  import opened LeastSquares
  import opened Seqs

  datatype PeopleSample = PeopleSample(at: Time, people: real)

  const OCCUPANCY_TREND_SPAN: Duration := 5 * MINUTE

  function First(samples: seq<PeopleSample>): (r: Time)
    requires |samples| > 0
    ensures forall i :: 0 <= i < |samples| ==> r <= samples[i].at
    ensures exists i :: 0 <= i < |samples| && r == samples[i].at
  {
    if |samples| == 1 then samples[0].at
    else
      var rest := First(samples[..|samples| - 1]);
      if samples[|samples| - 1].at < rest then samples[|samples| - 1].at else rest
  }

  function Last(samples: seq<PeopleSample>): (r: Time)
    requires |samples| > 0
    ensures forall i :: 0 <= i < |samples| ==> samples[i].at <= r
    ensures exists i :: 0 <= i < |samples| && r == samples[i].at
  {
    if |samples| == 1 then samples[0].at
    else
      var rest := Last(samples[..|samples| - 1]);
      if samples[|samples| - 1].at > rest then samples[|samples| - 1].at else rest
  }

  /** The samples as points in minutes since `from` and people. */
  function Points(samples: seq<PeopleSample>, from: Time): seq<Sample> {
    Map(samples, sample => Point(sample, from))
  }

  function Point(sample: PeopleSample, from: Time): Sample {
    Sample(Minutes(sample.at - from), sample.people)
  }

  /** A trend needs two samples that span at least half of the trend window. */
  predicate HasTrend(samples: seq<PeopleSample>) {
    |samples| >= 2 && Last(samples) - First(samples) >= OCCUPANCY_TREND_SPAN / 2
  }

  /** People per minute. */
  function Trend(samples: seq<PeopleSample>): Option<real> {
    if !HasTrend(samples) then None
    else
      TrendVariance(samples);
      var r := SumsOf(Points(samples, First(samples)));
      Some(r.Covariance() / r.Variance())
  }

  /** Sum over i of the squared distance of x_i from c. */
  function SquaresAround(s: seq<Sample>, c: real): real {
    if |s| == 0 then 0.0 else SquaresAround(s[..|s| - 1], c) + Square(s[|s| - 1].x - c)
  }

  lemma {:induction false} SquaresAroundBound(s: seq<Sample>, c: real, i: int, j: int)
    requires 0 <= i < |s| && 0 <= j < |s|
    ensures SquaresAround(s, c) >= Square(s[i].x - c)
    ensures i != j ==> SquaresAround(s, c) >= Square(s[i].x - c) + Square(s[j].x - c)
  {
    var t, l := s[..|s| - 1], |s| - 1;
    SquaresAroundNonNegative(t, c);
    SquarePositive(s[l].x - c);
    if i < l && j < l {
      SquaresAroundBound(t, c, i, j);
    } else if i < l {
      SquaresAroundBound(t, c, i, i);
    } else if j < l {
      SquaresAroundBound(t, c, j, j);
    }
  }

  lemma {:induction false} SquaresAroundNonNegative(s: seq<Sample>, c: real)
    ensures SquaresAround(s, c) >= 0.0
  {
    if |s| > 0 {
      SquaresAroundNonNegative(s[..|s| - 1], c);
      SquarePositive(s[|s| - 1].x - c);
    }
  }

  function SquaresOfSums(r: Sums, c: real): real {
    r.xx - 2.0 * (c * r.x) + r.n as real * (c * c)
  }

  lemma {:induction false} AddSquares(r: Sums, l: Sample, c: real)
    ensures SquaresOfSums(r.Add(l), c) == SquaresOfSums(r, c) + Square(l.x - c)
  {
    assert r.Add(l).n as real == r.n as real + 1.0;
    assert (r.n as real + 1.0) * (c * c) == r.n as real * (c * c) + c * c;
    assert c * (r.x + l.x) == c * r.x + c * l.x;
    assert (l.x - c) * (l.x - c) == l.x * l.x - 2.0 * (c * l.x) + c * c;
  }

  lemma {:induction false} SquaresAroundFromSums(s: seq<Sample>, c: real)
    ensures SquaresAround(s, c) == SquaresOfSums(SumsOf(s), c)
  {
    if |s| > 0 {
      SquaresAroundFromSums(s[..|s| - 1], c);
      AddSquares(SumsOf(s[..|s| - 1]), s[|s| - 1], c);
    }
  }

  /** `at` is the mean of the samples. */
  ghost predicate IsMean(r: Sums, at: Sample) {
    Times(r.n as real, at.x) == r.x && Times(r.n as real, at.y) == r.y
  }

  /** Sums around the mean are the variance and covariance divided by the number of samples. */
  lemma {:induction false} AroundMean(s: seq<Sample>, at: Sample)
    requires IsMean(SumsOf(s), at)
    ensures Times(|s| as real, SquaresAround(s, at.x)) == SumsOf(s).Variance()
    ensures Times(|s| as real, CrossAround(s, at)) == SumsOf(s).Covariance()
  {
    SquaresAroundFromSums(s, at.x);
    CrossAroundFromSums(s, at);
    SumsAroundMean(SumsOf(s), at);
  }

  lemma {:induction false} SumsAroundMean(r: Sums, at: Sample)
    requires IsMean(r, at)
    ensures Times(r.n as real, SquaresOfSums(r, at.x)) == r.Variance()
    ensures Times(r.n as real, CrossOfSums(r, at)) == r.Covariance()
  {
    MeanSquares(r.n as real, r.x, r.xx, at.x);
    MeanCross(r.n as real, r.x, r.y, r.xy, at.x, at.y);
  }

  lemma {:induction false} MeanSquares(n: real, x: real, xx: real, m: real)
    requires n * m == x
    ensures n * (xx - 2.0 * (m * x) + n * (m * m)) == n * xx - x * x
  {
    assert n * (m * x) == x * x;
    assert n * (m * m) == m * x;
    assert n * (xx - 2.0 * (m * x) + m * x) == n * xx - n * (m * x);
  }

  lemma {:induction false} MeanCross(n: real, x: real, y: real, xy: real, p: real, q: real)
    requires n * p == x && n * q == y
    ensures n * (xy - p * y - q * x + n * (p * q)) == n * xy - x * y
  {
    assert n * (p * q) == p * y;
    assert n * (q * x) == x * y;
    assert n * (xy - q * x) == n * xy - n * (q * x);
  }

  /** Half the squared distance of two numbers is at most the sum of squares around any centre. */
  lemma {:induction false} TwoSquares(f: real, l: real, c: real)
    ensures Square(f - c) + Square(l - c) >= Square(l - f) / 2.0
  {
    var p, q := f - c, l - c;
    SquarePositive(p + q);
    assert Square(l - f) == Square(q - p);
    assert Square(q - p) + Square(p + q) == 2.0 * Square(p) + 2.0 * Square(q);
  }

  /** Half the square of the minutes that the samples span. */
  function HalfSquare(samples: seq<PeopleSample>): real
    requires |samples| > 0
  {
    Square(Minutes(Last(samples) - First(samples))) / 2.0
  }

  /** Whenever a trend is computed, the sum of squares around the mean is at least half the
      square of the spanned minutes, so it is positive and the slope is defined. */
  lemma {:induction false} TrendVariance(samples: seq<PeopleSample>)
    requires HasTrend(samples)
    ensures SumsOf(Points(samples, First(samples))).Variance() > 0.0
    ensures forall at :: SquaresAround(Points(samples, First(samples)), at) >= HalfSquare(samples) > 0.0
  {
    var s := Points(samples, First(samples));
    SquarePositive(Minutes(Last(samples) - First(samples)));
    forall at
      ensures SquaresAround(s, at) >= HalfSquare(samples)
    {
      SpreadAround(samples, at);
    }
    var at := Mean(SumsOf(s));
    AroundMean(s, at);
    TimesPositive(|s| as real, SquaresAround(s, at.x));
  }

  lemma {:induction false} SpreadAround(samples: seq<PeopleSample>, at: real)
    requires HasTrend(samples)
    ensures SquaresAround(Points(samples, First(samples)), at) >= HalfSquare(samples)
  {
    var i, j := Extremes(samples);
    SpreadOf(Points(samples, First(samples)), at, i, j);
    hide SquaresAround, First, Last, Points, Square, Minutes;
  }

  lemma {:induction false} SpreadOf(s: seq<Sample>, at: real, i: int, j: int)
    requires 0 <= i < |s| && 0 <= j < |s| && i != j
    ensures SquaresAround(s, at) >= Square(s[j].x - s[i].x) / 2.0
  {
    hide SquaresAround, Square;
    SquaresAroundBound(s, at, i, j);
    TwoSquares(s[i].x, s[j].x, at);
  }

  /** The earliest and the latest of the points are two, and span the minutes of the samples. */
  lemma {:induction false} Extremes(samples: seq<PeopleSample>) returns (i: int, j: int)
    requires HasTrend(samples)
    ensures var s := Points(samples, First(samples));
      && 0 <= i < |s| && 0 <= j < |s| && i != j
      && s[j].x - s[i].x == Minutes(Last(samples) - First(samples))
  {
    i :| 0 <= i < |samples| && samples[i].at == First(samples);
    j :| 0 <= j < |samples| && samples[j].at == Last(samples);
    assert Minutes(0) == 0.0;
  }

  lemma {:induction false} Mean(r: Sums) returns (at: Sample)
    requires r.n > 0
    ensures IsMean(r, at)
  {
    var x := Quotient(r.x, r.n as real);
    var y := Quotient(r.y, r.n as real);
    at := Sample(x, y);
  }

  lemma {:induction false} SlopeIsQuotient(r: Sums, slope: real)
    requires r.Variance() > 0.0
    ensures slope == r.Covariance() / r.Variance() <==> SlopeOf(r, slope)
  {
    var q := Quotient(r.Covariance(), r.Variance());
    UniqueSlope(r, slope, q);
  }

  /** The trend is the slope of the best line through the samples. */
  lemma {:induction false} TrendIsBestSlope(samples: seq<PeopleSample>, slope: real)
    ensures Trend(samples) == Some(slope)
       <==> HasTrend(samples) && IsBestSlope(Points(samples, First(samples)), slope)
  {
    if HasTrend(samples) {
      TrendVariance(samples);
      var s := Points(samples, First(samples));
      BestSlope(s, slope);
      SlopeIsQuotient(SumsOf(s), slope);
    }
  }

  /** There is one exactly when two samples are at least two and a half minutes apart. */
  lemma {:induction false} TrendExists(samples: seq<PeopleSample>)
    ensures Trend(samples).Some? <==>
            exists i, j :: 0 <= i < |samples| && 0 <= j < |samples| && samples[j].at - samples[i].at >= 150_000_000
  {
    if |samples| > 0 {
      var i :| 0 <= i < |samples| && First(samples) == samples[i].at;
      var j :| 0 <= j < |samples| && Last(samples) == samples[j].at;
      hide SumsOf, Points;
      assert HasTrend(samples) ==> samples[j].at - samples[i].at >= 150_000_000;
    }
  }

  /** People who change at a constant rate have that rate as their trend. */
  lemma {:induction false} TrendOfLine(samples: seq<PeopleSample>, at: Time, people: real, rate: real)
    requires HasTrend(samples)
    requires forall i :: 0 <= i < |samples| ==> samples[i].people == LineAt(people, rate, Minutes(samples[i].at - at))
    ensures Trend(samples) == Some(rate)
  {
    TrendVariance(samples);
    var from := First(samples);
    var s := Points(samples, from);
    var a := LineAt(people, rate, Minutes(from - at));
    forall i | 0 <= i < |s|
      ensures s[i].y == LineAt(a, rate, s[i].x)
    {
      Shift(people, rate, Minutes(samples[i].at - at), Minutes(from - at), s[i].x);
    }
    OnLineCovariance(s, a, rate);
    SlopeIsQuotient(SumsOf(s), rate);
  }

  lemma {:induction false} Shift(a: real, rate: real, whole: real, part: real, rest: real)
    requires whole == part + rest
    ensures LineAt(a, rate, whole) == LineAt(LineAt(a, rate, part), rate, rest)
  {
  }

  /** People who never decrease over time never have a negative trend. */
  lemma {:induction false} TrendOfGrowth(samples: seq<PeopleSample>)
    requires HasTrend(samples)
    requires forall i, j :: 0 <= i < |samples| && 0 <= j < |samples| && samples[i].at < samples[j].at
                        ==> samples[i].people <= samples[j].people
    ensures Trend(samples).Some? && Trend(samples).value >= 0.0
  {
    TrendVariance(samples);
    var s := Points(samples, First(samples));
    ComonotoneCovariance(s);
    QuotientNonNegative(SumsOf(s).Covariance(), SumsOf(s).Variance());
  }

  lemma {:induction false} QuotientNonNegative(c: real, v: real)
    requires c >= 0.0 && v > 0.0
    ensures c / v >= 0.0
  {
  }

  /** Reordering the samples does not change the trend. */
  lemma {:induction false} TrendPermuted(a: seq<PeopleSample>, b: seq<PeopleSample>)
    requires multiset(a) == multiset(b)
    ensures Trend(a) == Trend(b)
  {
    assert |a| == |multiset(a)| == |multiset(b)| == |b|;
    if |a| > 0 {
      SameMembers(a, b);
      SameMembers(b, a);
      MapPermuted(a, b, (sample: PeopleSample) => Point(sample, First(a)));
      SumsPermuted(Points(a, First(a)), Points(b, First(a)));
    }
  }

  lemma {:induction false} SameMembers(a: seq<PeopleSample>, b: seq<PeopleSample>)
    requires multiset(a) == multiset(b) && |a| > 0 && |b| > 0
    ensures First(a) <= First(b) && Last(b) <= Last(a)
  {
    var i :| 0 <= i < |b| && b[i].at == First(b);
    assert b[i] in multiset(b);
    assert b[i] in multiset(a);
    var j :| 0 <= j < |b| && b[j].at == Last(b);
    assert b[j] in multiset(b);
    assert b[j] in multiset(a);
  }

  method FirstAndLast(samples: seq<PeopleSample>) returns (first: Time, last: Time)
    requires |samples| > 0
    ensures first == First(samples) && last == Last(samples)
  {
    first, last := samples[0].at, samples[0].at;
    for i := 0 to |samples|
      invariant first == First(samples[..if i == 0 then 1 else i])
      invariant last == Last(samples[..if i == 0 then 1 else i])
    {
      assert i > 0 ==> samples[..i + 1][..i] == samples[..i];
      if samples[i].at < first {
        first := samples[i].at;
      }
      if samples[i].at > last {
        last := samples[i].at;
      }
    }
    assert samples[..|samples|] == samples;
  }

  method Means(samples: seq<PeopleSample>, first: Time) returns (meanAt: real, meanPeople: real)
    requires |samples| > 0
    ensures IsMean(SumsOf(Points(samples, first)), Sample(meanAt, meanPeople))
  {
    ghost var s := Points(samples, first);
    meanAt, meanPeople := 0.0, 0.0;
    for i := 0 to |samples|
      invariant meanAt == SumsOf(s[..i]).x && meanPeople == SumsOf(s[..i]).y
    {
      assert s[..i + 1][..i] == s[..i];
      meanAt := meanAt + Minutes(samples[i].at - first);
      meanPeople := meanPeople + samples[i].people;
    }
    assert s[..|samples|] == s;
    var count := |samples| as real;
    meanAt := meanAt / count;
    meanPeople := meanPeople / count;
  }

  /** The slope is computed around the mean, in three passes over the samples. */
  method PeopleTrend(samples: seq<PeopleSample>) returns (trend: Option<real>)
    ensures trend == Trend(samples)
  {
    if |samples| < 2 {
      return None;
    }
    var first, last := FirstAndLast(samples);
    if last - first < OCCUPANCY_TREND_SPAN / 2 {
      return None;
    }
    var meanAt, meanPeople := Means(samples, first);
    var covariance, variance := CentredSums(samples, first, meanAt, meanPeople);
    CentredSlope(samples, Sample(meanAt, meanPeople));
    trend := Some(covariance / variance);
  }

  method CentredSums(samples: seq<PeopleSample>, first: Time, meanAt: real, meanPeople: real)
    returns (covariance: real, variance: real)
    ensures covariance == CrossAround(Points(samples, first), Sample(meanAt, meanPeople))
    ensures variance == SquaresAround(Points(samples, first), meanAt)
  {
    ghost var s, centre := Points(samples, first), Sample(meanAt, meanPeople);
    covariance, variance := 0.0, 0.0;
    for i := 0 to |samples|
      invariant covariance == CrossAround(s[..i], centre)
      invariant variance == SquaresAround(s[..i], meanAt)
    {
      assert s[..i + 1][..i] == s[..i];
      var at := Minutes(samples[i].at - first) - meanAt;
      covariance := covariance + Times(at, samples[i].people - meanPeople);
      variance := variance + Square(at);
    }
    assert s[..|samples|] == s;
  }

  lemma {:induction false} CentredSlope(samples: seq<PeopleSample>, at: Sample)
    requires HasTrend(samples) && IsMean(SumsOf(Points(samples, First(samples))), at)
    ensures SquaresAround(Points(samples, First(samples)), at.x) > 0.0
    ensures Trend(samples) == Some(CrossAround(Points(samples, First(samples)), at)
                                 / SquaresAround(Points(samples, First(samples)), at.x))
  {
    TrendVariance(samples);
    var s := Points(samples, First(samples));
    AroundMean(s, at);
    Cancel(|samples| as real, CrossAround(s, at), SquaresAround(s, at.x), SumsOf(s).Covariance(), SumsOf(s).Variance());
  }

  lemma {:induction false} Cancel(n: real, c: real, v: real, nc: real, nv: real)
    requires n > 0.0 && v > 0.0 && nv > 0.0 && Times(n, c) == nc && Times(n, v) == nv
    ensures c / v == nc / nv
  {
    var q := c / v;
    assert q * v == c;
    assert q * nv == nc by { assert q * (n * v) == n * (q * v); }
    var q' := nc / nv;
    assert q' * nv == nc;
    assert (q - q') * nv == 0.0;
    QuotientSign(nv, q - q');
  }
}
