/** Fitting a line through samples by least squares, from running sums alone. */
module LeastSquares {
  import opened Basics
  import opened Seqs

  datatype Sample = Sample(x: real, y: real)

  /** The running sums a line fit needs. */
  datatype Sums = Sums(n: nat, x: real, y: real, xx: real, xy: real) {
    function Add(s: Sample): Sums {
      Sums(n + 1, x + s.x, y + s.y, xx + s.x * s.x, xy + s.x * s.y)
    }

    function Plus(other: Sums): Sums {
      Sums(n + other.n, x + other.x, y + other.y, xx + other.xx, xy + other.xy)
    }

    /** n times the sum of squared deviations of x from its mean. */
    function Variance(): real {
      Times(n as real, xx) - Times(x, x)
    }

    /** n times the sum of products of the deviations of x and y. */
    function Covariance(): real {
      Times(n as real, xy) - Times(x, y)
    }
  }

  const EMPTY := Sums(0, 0.0, 0.0, 0.0, 0.0)

  function SumsOf(s: seq<Sample>): (r: Sums)
    ensures r.n == |s|
  {
    if |s| == 0 then EMPTY else SumsOf(s[..|s| - 1]).Add(s[|s| - 1])
  }

  /** Reordering the samples changes no sum. */
  lemma {:induction false} SumsPermuted(a: seq<Sample>, b: seq<Sample>)
    requires multiset(a) == multiset(b)
    ensures SumsOf(a) == SumsOf(b)
  {
    assert |a| == |multiset(a)| == |multiset(b)| == |b|;
    if |a| > 0 {
      var a', x := a[..|a| - 1], a[|a| - 1];
      assert a == a' + [x];
      var b1, b2 := PermutationOfAppend(a', x, b);
      SumsPermuted(a', b1 + b2);
      SumsOfConcat(a', [x]);
      SumsOfConcat(b1 + [x], b2);
      SumsOfConcat(b1, [x]);
      SumsOfConcat(b1, b2);
      PlusSwap(SumsOf(b1), SumsOf([x]), SumsOf(b2));
    }
  }

  lemma {:induction false} PlusSwap(a: Sums, b: Sums, c: Sums)
    ensures a.Plus(b).Plus(c) == a.Plus(c).Plus(b)
  {
  }

  /** Sum over i of (x_i - at.x)(y_i - at.y). */
  function CrossAround(s: seq<Sample>, at: Sample): real {
    if |s| == 0 then 0.0
    else CrossAround(s[..|s| - 1], at) + Cross(s[|s| - 1], at)
  }

  function Cross(a: Sample, b: Sample): real {
    Times(a.x - b.x, a.y - b.y)
  }

  /** Sum over i < j of (x_i - x_j)(y_i - y_j). */
  function PairProducts(s: seq<Sample>): real {
    if |s| == 0 then 0.0
    else PairProducts(s[..|s| - 1]) + CrossAround(s[..|s| - 1], s[|s| - 1])
  }

  /** Each sample paired with its own x, so that products become squares. */
  function Diagonal(s: seq<Sample>): seq<Sample> {
    seq(|s|, i requires 0 <= i < |s| => Sample(s[i].x, s[i].x))
  }

  /** Sum over i < j of (x_i - x_j) squared. */
  function PairSquares(s: seq<Sample>): real {
    PairProducts(Diagonal(s))
  }

  function Square(x: real): real {
    Times(x, x)
  }

  /** The height at x of the line with intercept a and slope b. */
  function LineAt(a: real, b: real, x: real): real {
    a + b * x
  }

  function Residual(s: Sample, a: real, b: real): real {
    s.y - LineAt(a, b, s.x)
  }

  /** Sum of squared vertical distances from the samples to the line a + b x. */
  function ResidualSquares(s: seq<Sample>, a: real, b: real): real {
    if |s| == 0 then 0.0
    else ResidualSquares(s[..|s| - 1], a, b) + Square(Residual(s[|s| - 1], a, b))
  }

  /** `b` is the slope of a line no other line fits better. */
  ghost predicate IsBestSlope(s: seq<Sample>, b: real) {
    exists a :: IsBestLine(s, a, b)
  }

  ghost predicate IsBestLine(s: seq<Sample>, a: real, b: real) {
    forall a', b' :: ResidualSquares(s, a, b) <= ResidualSquares(s, a', b')
  }

  lemma {:induction false} AddPlus(a: Sums, b: Sums, l: Sample)
    ensures a.Plus(b.Add(l)) == a.Plus(b).Add(l)
  {
  }

  lemma {:induction false} SumsOfConcat(a: seq<Sample>, b: seq<Sample>)
    ensures SumsOf(a + b) == SumsOf(a).Plus(SumsOf(b))
  {
    if |b| == 0 {
      assert a + b == a;
    } else {
      assert (a + b)[..|a + b| - 1] == a + b[..|b| - 1];
      SumsOfConcat(a, b[..|b| - 1]);
      AddPlus(SumsOf(a), SumsOf(b[..|b| - 1]), b[|b| - 1]);
    }
  }

  function CrossOfSums(r: Sums, at: Sample): real {
    r.xy - at.x * r.y - at.y * r.x + r.n as real * (at.x * at.y)
  }

  lemma {:induction false} AddCross(r: Sums, l: Sample, at: Sample)
    ensures CrossOfSums(r.Add(l), at) == CrossOfSums(r, at) + Cross(l, at)
  {
    var n, p := r.n as real, at.x * at.y;
    assert r.Add(l).n as real == n + 1.0;
    assert (n + 1.0) * p == n * p + p;
    assert (l.x - at.x) * (l.y - at.y) == l.x * l.y - at.x * l.y - at.y * l.x + p;
    assert at.x * (r.y + l.y) == at.x * r.y + at.x * l.y;
    assert at.y * (r.x + l.x) == at.y * r.x + at.y * l.x;
  }

  lemma {:induction false} CrossAroundFromSums(s: seq<Sample>, at: Sample)
    ensures CrossAround(s, at) == CrossOfSums(SumsOf(s), at)
  {
    if |s| > 0 {
      CrossAroundFromSums(s[..|s| - 1], at);
      AddCross(SumsOf(s[..|s| - 1]), s[|s| - 1], at);
    }
  }

  /** The covariance computed from sums is the sum of products of pairwise differences. */
  lemma {:induction false} CovarianceIsPairProducts(s: seq<Sample>)
    ensures SumsOf(s).Covariance() == PairProducts(s)
  {
    if |s| > 0 {
      var t, l := s[..|s| - 1], s[|s| - 1];
      CovarianceIsPairProducts(t);
      CrossAroundFromSums(t, l);
      AddCovariance(SumsOf(t), l);
    }
  }

  lemma {:induction false} AddCovariance(r: Sums, l: Sample)
    ensures r.Add(l).Covariance()
         == r.Covariance() + CrossOfSums(r, l)
  {
    var n, p := r.n as real, l.x * l.y;
    assert r.Add(l).n as real == n + 1.0;
    assert (n + 1.0) * (r.xy + p) == n * r.xy + n * p + r.xy + p;
    assert (r.x + l.x) * (r.y + l.y) == r.x * r.y + l.y * r.x + l.x * r.y + p;
  }

  /** d are the sums of the diagonal samples whose sums are r. */
  ghost predicate DiagonalOf(d: Sums, r: Sums) {
    d.n == r.n && d.x == r.x && d.y == r.x && d.xx == r.xx && d.xy == r.xx
  }

  lemma {:induction false} AddDiagonal(d: Sums, r: Sums, l: Sample)
    requires DiagonalOf(d, r)
    ensures DiagonalOf(d.Add(Sample(l.x, l.x)), r.Add(l))
  {
    var square := l.x * l.x;
    assert d.Add(Sample(l.x, l.x)) == Sums(d.n + 1, d.x + l.x, d.y + l.x, d.xx + square, d.xy + square);
    assert r.Add(l).xx == r.xx + square;
  }

  lemma {:induction false} DiagonalSums(s: seq<Sample>)
    ensures DiagonalOf(SumsOf(Diagonal(s)), SumsOf(s))
  {
    if |s| > 0 {
      DiagonalSums(s[..|s| - 1]);
      assert Diagonal(s)[..|s| - 1] == Diagonal(s[..|s| - 1]);
      AddDiagonal(SumsOf(Diagonal(s[..|s| - 1])), SumsOf(s[..|s| - 1]), s[|s| - 1]);
    }
  }

  lemma {:induction false} SameVariance(d: Sums, r: Sums)
    requires DiagonalOf(d, r)
    ensures d.Covariance() == r.Variance()
  {
    assert Times(d.x, d.y) == Times(r.x, r.x);
  }

  /** The variance computed from sums is the sum of squared pairwise differences. */
  lemma {:induction false} VarianceIsPairSquares(s: seq<Sample>)
    ensures SumsOf(s).Variance() == PairSquares(s)
  {
    CovarianceIsPairProducts(Diagonal(s));
    DiagonalSums(s);
    SameVariance(SumsOf(Diagonal(s)), SumsOf(s));
  }

  /** Samples whose x and y never move in opposite directions. */
  ghost predicate Comonotone(s: seq<Sample>) {
    forall i, j :: 0 <= i < |s| && 0 <= j < |s| && s[i].x < s[j].x ==> s[i].y <= s[j].y
  }

  lemma {:induction false} TimesNonNegative(a: real, b: real)
    requires (a >= 0.0 && b >= 0.0) || (a <= 0.0 && b <= 0.0)
    ensures Times(a, b) >= 0.0
  {
  }

  lemma {:induction false} TimesZero(b: real)
    ensures Times(0.0, b) == 0.0
  {
  }

  lemma {:induction false} CrossAroundNonNegative(s: seq<Sample>, at: Sample)
    requires Comonotone(s + [at])
    ensures CrossAround(s, at) >= 0.0
  {
    if |s| > 0 {
      var t, l := s[..|s| - 1], s[|s| - 1];
      forall i, j | 0 <= i < |t + [at]| && 0 <= j < |t + [at]| && (t + [at])[i].x < (t + [at])[j].x
        ensures (t + [at])[i].y <= (t + [at])[j].y
      {
        var i' := if i < |t| then i else |s|;
        var j' := if j < |t| then j else |s|;
        assert (t + [at])[i] == (s + [at])[i'] && (t + [at])[j] == (s + [at])[j'];
      }
      CrossAroundNonNegative(t, at);
      assert (s + [at])[|s| - 1] == l && (s + [at])[|s|] == at;
      if l.x == at.x {
        TimesZero(l.y - at.y);
      } else {
        TimesNonNegative(l.x - at.x, l.y - at.y);
      }
    }
  }

  /** Chebyshev's sum inequality: comonotone samples have a non-negative covariance. */
  lemma {:induction false} ComonotoneCovariance(s: seq<Sample>)
    requires Comonotone(s)
    ensures SumsOf(s).Covariance() >= 0.0
  {
    CovarianceIsPairProducts(s);
    ComonotonePairs(s);
  }

  lemma {:induction false} ComonotonePairs(s: seq<Sample>)
    requires Comonotone(s)
    ensures PairProducts(s) >= 0.0
  {
    if |s| > 0 {
      assert s == s[..|s| - 1] + [s[|s| - 1]];
      ComonotonePairs(s[..|s| - 1]);
      CrossAroundNonNegative(s[..|s| - 1], s[|s| - 1]);
    }
  }

  lemma {:induction false} VarianceNonNegative(s: seq<Sample>)
    ensures SumsOf(s).Variance() >= 0.0
  {
    DiagonalSums(s);
    ComonotoneCovariance(Diagonal(s));
    SameVariance(SumsOf(Diagonal(s)), SumsOf(s));
  }

  /** Samples that lie on one line. */
  ghost predicate OnLine(s: seq<Sample>, a: real, b: real) {
    forall i :: 0 <= i < |s| ==> s[i].y == LineAt(a, b, s[i].x)
  }

  ghost predicate SumsOnLine(r: Sums, a: real, b: real) {
    r.y == Times(a, r.n as real) + Times(b, r.x) && r.xy == Times(a, r.x) + Times(b, r.xx)
  }

  lemma {:induction false} AddOnLine(r: Sums, l: Sample, a: real, b: real)
    requires SumsOnLine(r, a, b) && l.y == LineAt(a, b, l.x)
    ensures SumsOnLine(r.Add(l), a, b)
  {
    assert r.Add(l).n as real == r.n as real + 1.0;
    TimesPlus(a, r.n as real, 1.0);
    TimesPlus(b, r.x, l.x);
    TimesPlus(a, r.x, l.x);
    TimesPlus(b, r.xx, l.x * l.x);
    TimesLine(a, b, l.x);
  }

  lemma {:induction false} TimesPlus(a: real, x: real, y: real)
    ensures Times(a, x + y) == Times(a, x) + Times(a, y)
  {
  }

  lemma {:induction false} TimesLine(a: real, b: real, x: real)
    ensures LineAt(a, b, x) == Times(a, 1.0) + Times(b, x)
    ensures x * LineAt(a, b, x) == Times(a, x) + Times(b, x * x)
  {
  }

  lemma {:induction false} OnLineSums(s: seq<Sample>, a: real, b: real)
    requires OnLine(s, a, b)
    ensures SumsOnLine(SumsOf(s), a, b)
  {
    if |s| > 0 {
      OnLineSums(s[..|s| - 1], a, b);
      AddOnLine(SumsOf(s[..|s| - 1]), s[|s| - 1], a, b);
    }
  }

  /** On a line, the covariance is the slope times the variance. */
  lemma {:induction false} OnLineCovariance(s: seq<Sample>, a: real, b: real)
    requires OnLine(s, a, b)
    ensures SlopeOf(SumsOf(s), b)
  {
    OnLineSums(s, a, b);
    LineCovariance(SumsOf(s), a, b);
  }

  lemma {:induction false} LineCovariance(r: Sums, a: real, b: real)
    requires SumsOnLine(r, a, b)
    ensures SlopeOf(r, b)
  {
    var n, p, q := r.n as real, r.x * r.x, r.n as real * r.xx;
    assert n * (a * r.x + b * r.xx) == a * (n * r.x) + b * q;
    assert r.x * (a * n + b * r.x) == a * (n * r.x) + b * p;
    assert b * (q - p) == b * q - b * p;
  }

  /** Moving every y by the same amount. */
  function Lifted(s: seq<Sample>, rise: real): seq<Sample> {
    seq(|s|, i requires 0 <= i < |s| => Sample(s[i].x, s[i].y + rise))
  }

  function LiftedBy(r: Sums, rise: real): Sums {
    r.(y := r.y + rise * r.n as real, xy := r.xy + rise * r.x)
  }

  lemma {:induction false} AddLifted(r: Sums, l: Sample, rise: real)
    ensures LiftedBy(r.Add(l), rise) == LiftedBy(r, rise).Add(Sample(l.x, l.y + rise))
  {
    assert r.Add(l).n as real == r.n as real + 1.0;
    assert rise * (r.n as real + 1.0) == rise * r.n as real + rise;
    assert l.x * (l.y + rise) == l.x * l.y + rise * l.x;
    assert rise * (r.x + l.x) == rise * r.x + rise * l.x;
  }

  lemma {:induction false} LiftedSums(s: seq<Sample>, rise: real)
    ensures SumsOf(Lifted(s, rise)) == LiftedBy(SumsOf(s), rise)
  {
    if |s| > 0 {
      LiftedSums(s[..|s| - 1], rise);
      assert Lifted(s, rise)[..|s| - 1] == Lifted(s[..|s| - 1], rise);
      AddLifted(SumsOf(s[..|s| - 1]), s[|s| - 1], rise);
    }
  }

  lemma {:induction false} LiftedByCovariance(r: Sums, rise: real)
    ensures LiftedBy(r, rise).Covariance() == r.Covariance()
    ensures LiftedBy(r, rise).Variance() == r.Variance()
  {
    var n, p := r.n as real, r.n as real * r.x;
    assert n * (r.xy + rise * r.x) == n * r.xy + rise * p;
    assert r.x * (r.y + rise * n) == r.x * r.y + rise * p;
  }

  lemma {:induction false} LiftedCovariance(s: seq<Sample>, rise: real)
    ensures SumsOf(Lifted(s, rise)).Covariance() == SumsOf(s).Covariance()
    ensures SumsOf(Lifted(s, rise)).Variance() == SumsOf(s).Variance()
  {
    LiftedSums(s, rise);
    LiftedByCovariance(SumsOf(s), rise);
  }

  /** Sum of squares of y, used only to expand the residuals. */
  function SquaresOfY(s: seq<Sample>): real {
    if |s| == 0 then 0.0 else SquaresOfY(s[..|s| - 1]) + Square(s[|s| - 1].y)
  }

  function ExpandedResiduals(r: Sums, yy: real, a: real, b: real): real {
    yy - 2.0 * (a * r.y) - 2.0 * (b * r.xy) + r.n as real * (a * a) + 2.0 * (a * b * r.x) + b * b * r.xx
  }

  lemma {:induction false} ResidualsExpanded(s: seq<Sample>, a: real, b: real)
    ensures ResidualSquares(s, a, b) == ExpandedResiduals(SumsOf(s), SquaresOfY(s), a, b)
  {
    if |s| > 0 {
      var t, l := s[..|s| - 1], s[|s| - 1];
      ResidualsExpanded(t, a, b);
      AddResidual(SumsOf(t), SquaresOfY(t), l, a, b);
    }
  }

  lemma {:induction false} AddResidual(r: Sums, yy: real, l: Sample, a: real, b: real)
    ensures ExpandedResiduals(r.Add(l), yy + Square(l.y), a, b)
         == ExpandedResiduals(r, yy, a, b) + Square(Residual(l, a, b))
  {
    var ab, bb := a * b, b * b;
    assert a * (r.y + l.y) == a * r.y + a * l.y;
    assert b * (r.xy + l.x * l.y) == b * r.xy + b * (l.x * l.y);
    assert r.Add(l).n as real == r.n as real + 1.0;
    assert (r.n as real + 1.0) * (a * a) == r.n as real * (a * a) + a * a;
    assert ab * (r.x + l.x) == ab * r.x + ab * l.x;
    assert bb * (r.xx + l.x * l.x) == bb * r.xx + bb * (l.x * l.x);
    SquareOfResidual(l, a, b);
  }

  lemma {:induction false} SquareOfResidual(l: Sample, a: real, b: real)
    ensures Residual(l, a, b) * Residual(l, a, b)
         == l.y * l.y - 2.0 * (a * l.y) - 2.0 * (b * (l.x * l.y)) + a * a + 2.0 * (a * b * l.x) + b * b * (l.x * l.x)
  {
    var f := a + b * l.x;
    assert (l.y - f) * (l.y - f) == l.y * l.y - 2.0 * (f * l.y) + f * f;
    assert f * l.y == a * l.y + b * (l.x * l.y);
    assert f * f == a * a + 2.0 * (a * (b * l.x)) + (b * l.x) * (b * l.x);
    assert (b * l.x) * (b * l.x) == b * b * (l.x * l.x);
    assert a * (b * l.x) == a * b * l.x;
  }

  function SlopePart(v: real, c: real, b: real): real {
    b * b * v - 2.0 * (b * c)
  }

  /** Completing the square in the intercept. */
  lemma {:induction false} ResidualsCompleted(r: Sums, yy: real, a: real, b: real)
    ensures r.n as real * ExpandedResiduals(r, yy, a, b)
         == Square(r.n as real * a + b * r.x - r.y) + SlopePart(r.Variance(), r.Covariance(), b)
          + (r.n as real * yy - r.y * r.y)
  {
    var n := r.n as real;
    var u, v := n * a, b * r.x;
    var e := u + v - r.y;
    assert e * e == u * u + v * v + r.y * r.y + 2.0 * (u * v) - 2.0 * (u * r.y) - 2.0 * (v * r.y);
    assert v * v == b * b * (r.x * r.x);
    assert v * r.y == b * (r.x * r.y);
    assert u * u == n * (n * (a * a));
    assert u * v == n * (a * b * r.x);
    assert u * r.y == n * (a * r.y);
    assert b * b * (n * r.xx - r.x * r.x) == n * (b * b * r.xx) - b * b * (r.x * r.x);
    assert b * (n * r.xy - r.x * r.y) == n * (b * r.xy) - b * (r.x * r.y);
    Distribute6(n, yy, a * r.y, b * r.xy, n * (a * a), a * b * r.x, b * b * r.xx);
  }

  lemma {:induction false} Distribute6(n: real, p: real, q: real, s: real, t: real, u: real, v: real)
    ensures n * (p - 2.0 * q - 2.0 * s + t + 2.0 * u + v)
         == n * p - 2.0 * (n * q) - 2.0 * (n * s) + n * t + 2.0 * (n * u) + n * v
  {
  }

  /** V times the slope part of the residuals is a square minus a constant. */
  lemma {:induction false} SlopeCompleted(v: real, c: real, b: real)
    ensures v * SlopePart(v, c, b) == Square(v * b - c) - c * c
  {
    assert (v * b - c) * (v * b - c) == (v * b) * (v * b) - 2.0 * (c * (v * b)) + c * c;
    assert (v * b) * (v * b) == v * (b * b * v);
    assert c * (v * b) == v * (b * c);
    assert v * (b * b * v - 2.0 * (b * c)) == v * (b * b * v) - 2.0 * (v * (b * c));
  }

  /** The slope covariance over variance, which solves the normal equations together with
      the intercept that puts the line through the means. */
  ghost predicate SlopeOf(r: Sums, b: real) {
    b * r.Variance() == r.Covariance()
  }

  ghost predicate InterceptOf(r: Sums, a: real, b: real) {
    r.n as real * a == r.y - b * r.x
  }

  /** When the variance is positive, exactly one slope is best: covariance over variance. */
  lemma {:induction false} BestSlope(s: seq<Sample>, b: real)
    requires SumsOf(s).Variance() > 0.0
    ensures IsBestSlope(s, b) <==> SlopeOf(SumsOf(s), b)
  {
    var a, best := BestLine(SumsOf(s));
    BestLineIsBest(s, a, best);
    UniqueSlope(SumsOf(s), b, best);
    if IsBestSlope(s, b) {
      var a' :| IsBestLine(s, a', b);
      assert ResidualSquares(s, a', b) <= ResidualSquares(s, a, best);
      CompareLines(s, a, best, a', b);
    }
  }

  lemma {:induction false} BestLineIsBest(s: seq<Sample>, a: real, b: real)
    requires SumsOf(s).Variance() > 0.0
    requires SlopeOf(SumsOf(s), b)
    requires InterceptOf(SumsOf(s), a, b)
    ensures IsBestLine(s, a, b)
  {
    forall a', b'
      ensures ResidualSquares(s, a, b) <= ResidualSquares(s, a', b')
    {
      CompareLines(s, a, b, a', b');
    }
  }

  /** The line through the means with the slope covariance over variance. */
  lemma {:induction false} BestLine(r: Sums) returns (a: real, b: real)
    requires r.Variance() > 0.0
    ensures SlopeOf(r, b)
    ensures InterceptOf(r, a, b)
  {
    b := Quotient(r.Covariance(), r.Variance());
    VarianceNeedsSamples(r);
    a := Quotient(r.y - b * r.x, r.n as real);
  }

  lemma {:induction false} VarianceNeedsSamples(r: Sums)
    requires r.Variance() > 0.0
    ensures r.n > 0
  {
    SquarePositive(r.x);
    TimesZero(r.xx);
  }

  lemma {:induction false} Quotient(c: real, v: real) returns (q: real)
    requires v != 0.0
    ensures q * v == c && v * q == c && q == c / v
  {
    q := c / v;
  }

  lemma {:induction false} UniqueSlope(r: Sums, p: real, q: real)
    requires r.Variance() > 0.0 && SlopeOf(r, q)
    ensures SlopeOf(r, p) <==> p == q
  {
    var v := r.Variance();
    QuotientSign(v, p - q);
    assert v * (p - q) == p * v - q * v;
  }

  lemma {:induction false} CompareLines(s: seq<Sample>, a: real, b: real, a': real, b': real)
    requires SumsOf(s).Variance() > 0.0
    requires SlopeOf(SumsOf(s), b)
    requires InterceptOf(SumsOf(s), a, b)
    ensures ResidualSquares(s, a, b) <= ResidualSquares(s, a', b')
    ensures b' != b ==> ResidualSquares(s, a, b) < ResidualSquares(s, a', b')
  {
    ResidualsExpanded(s, a, b);
    ResidualsExpanded(s, a', b');
    CompareSums(SumsOf(s), SquaresOfY(s), a, b, a', b');
  }

  lemma {:induction false} CompareSums(r: Sums, yy: real, a: real, b: real, a': real, b': real)
    requires r.Variance() > 0.0
    requires SlopeOf(r, b)
    requires InterceptOf(r, a, b)
    ensures ExpandedResiduals(r, yy, a, b) <= ExpandedResiduals(r, yy, a', b')
    ensures b' != b ==> ExpandedResiduals(r, yy, a, b) < ExpandedResiduals(r, yy, a', b')
  {
    ResidualsCompleted(r, yy, a, b);
    ResidualsCompleted(r, yy, a', b');
    CompareSlopes(r.Variance(), r.Covariance(), b, b');
    VarianceNeedsSamples(r);
    Conclude(r.n as real, ExpandedResiduals(r, yy, a, b), ExpandedResiduals(r, yy, a', b'),
             r.n as real * a + b * r.x - r.y, r.n as real * a' + b' * r.x - r.y,
             SlopePart(r.Variance(), r.Covariance(), b), SlopePart(r.Variance(), r.Covariance(), b'),
             r.n as real * yy - r.y * r.y);
  }

  lemma {:induction false} Conclude(n: real, p: real, p': real, e: real, e': real, q: real, q': real, k: real)
    requires n > 0.0 && e == 0.0 && q <= q'
    requires n * p == Square(e) + q + k && n * p' == Square(e') + q' + k
    ensures p <= p'
    ensures q < q' ==> p < p'
  {
    assert Square(e') >= 0.0;
    assert n * (p' - p) == n * p' - n * p;
    QuotientSign(n, p' - p);
  }

  lemma {:induction false} CompareSlopes(v: real, c: real, b: real, b': real)
    requires v > 0.0 && b * v == c
    ensures SlopePart(v, c, b) <= SlopePart(v, c, b')
    ensures b' != b ==> SlopePart(v, c, b) < SlopePart(v, c, b')
  {
    SlopeCompleted(v, c, b);
    SlopeCompleted(v, c, b');
    var p, p' := SlopePart(v, c, b), SlopePart(v, c, b');
    assert Square(v * b - c) == 0.0;
    assert v * (p' - p) == v * p' - v * p;
    assert v * b' - c == v * (b' - b);
    SquarePositive(v * b' - c);
    QuotientSign(v, p' - p);
    QuotientSign(v, b' - b);
    QuotientSign(v, b - b');
  }

  lemma {:induction false} TimesPositive(x: real, y: real)
    requires (x > 0.0 && y > 0.0) || (x < 0.0 && y < 0.0)
    ensures Times(x, y) > 0.0
  {
  }

  lemma {:induction false} SquarePositive(x: real)
    ensures Square(x) >= 0.0
    ensures x != 0.0 ==> Square(x) > 0.0
  {
    if x != 0.0 {
      TimesPositive(x, x);
    }
  }

  /** A product with a positive factor has the sign of the other factor. */
  lemma {:induction false} QuotientSign(n: real, x: real)
    requires n > 0.0
    ensures n * x >= 0.0 ==> x >= 0.0
    ensures n * x > 0.0 ==> x > 0.0
    ensures x != 0.0 ==> n * x != 0.0
  {
    if x < 0.0 {
      assert n * x < 0.0;
    }
  }
}
