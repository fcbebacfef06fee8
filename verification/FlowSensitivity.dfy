/** The sensitivity of stagnation to flow that is read off the running sums of an arc. */
module FlowSensitivity {
  import opened Basics
  import opened Seqs
  import opened LeastSquares

  const MIN_FLOW_SENSITIVITY_SAMPLES := 12

  /** Flows that do not vary enough, relative to their size, to carry a slope. */
  predicate Degenerate(r: Sums) {
    r.Variance() <= Threshold(r.n, r.xx)
  }

  /** x is flow and y is stagnation. */
  function Eta(r: Sums): Option<real>
    requires r.xx >= 0.0
  {
    EtaFrom(r.n, r.xx, r.Variance(), r.Covariance())
  }

  function EtaFrom(n: nat, squares: real, variance: real, covariance: real): Option<real>
    requires squares >= 0.0
  {
    if n < MIN_FLOW_SENSITIVITY_SAMPLES || variance <= Threshold(n, squares) then None
    else
      var eta := -covariance / variance;
      if eta <= 0.0 then None else Some(eta)
  }

  function Threshold(n: nat, squares: real): (r: real)
    ensures squares >= 0.0 ==> r >= 0.0
  {
    0.000000001 * Times(n as real, squares)
  }

  /** Samples of one unchanged sensor decide when there are enough of them. */
  function FlowSensitivityEta(sameSensorFlow: Sums, flow: Sums): Option<real>
    requires sameSensorFlow.xx >= 0.0 && flow.xx >= 0.0
  {
    if sameSensorFlow.n >= MIN_FLOW_SENSITIVITY_SAMPLES then Eta(sameSensorFlow) else Eta(flow)
  }

  lemma {:induction false} NotDegenerate(r: Sums)
    requires r.xx >= 0.0 && !Degenerate(r)
    ensures r.Variance() > 0.0
  {
  }

  lemma {:induction false} SquareSumNonNegative(s: seq<Sample>)
    ensures SumsOf(s).xx >= 0.0
  {
    if |s| > 0 {
      SquareSumNonNegative(s[..|s| - 1]);
      var x := s[|s| - 1].x;
      assert x * x >= 0.0;
    }
  }

  /** The flows vary: over all pairs, their squared distances add up to more than one part in 10^9 of their
      squares times their number. */
  predicate FlowsVary(s: seq<Sample>) {
    PairSquares(s) > 0.000000001 * Times(|s| as real, Sum(Map(s, (p: Sample) => p.x * p.x)))
  }

  lemma {:induction false} SquaresAreSummed(s: seq<Sample>)
    ensures SumsOf(s).xx == Sum(Map(s, (p: Sample) => p.x * p.x))
  {
    if |s| > 0 {
      SquaresAreSummed(s[..|s| - 1]);
      assert Map(s, (p: Sample) => p.x * p.x)[..|s| - 1] == Map(s[..|s| - 1], (p: Sample) => p.x * p.x);
    }
  }

  lemma {:induction false} VaryingFlows(s: seq<Sample>)
    ensures FlowsVary(s) <==> !Degenerate(SumsOf(s))
  {
    VarianceIsPairSquares(s);
    SquaresAreSummed(s);
    hide PairSquares, SumsOf, Sum, Times;
  }

  /** The sensitivity computed from sums alone is the negated slope of the best line through
      the samples themselves, and it is reported exactly when that is a positive number from
      enough samples whose flows vary. */
  lemma {:induction false} EtaIsNegatedBestSlope(s: seq<Sample>, e: real)
    requires SumsOf(s).xx >= 0.0
    ensures Eta(SumsOf(s)) == Some(e)
       <==> |s| >= 12 && FlowsVary(s) && e > 0.0 && IsBestSlope(s, -e)
  {
    var r := SumsOf(s);
    VaryingFlows(s);
    hide FlowsVary;
    if !Degenerate(r) {
      NotDegenerate(r);
      BestSlope(s, -e);
      EtaQuotient(r, e);
    }
  }

  lemma {:induction false} EtaQuotient(r: Sums, e: real)
    requires r.Variance() > 0.0
    ensures -r.Covariance() / r.Variance() == e <==> SlopeOf(r, -e)
  {
    var q := Quotient(-r.Covariance(), r.Variance());
    Negated(q, r.Variance(), r.Covariance());
    UniqueSlope(r, -e, -q);
  }

  lemma {:induction false} Negated(q: real, v: real, c: real)
    requires q * v == -c
    ensures -q * v == c
  {
  }

  /** Stagnation that falls by b per unit of flow has sensitivity b. */
  lemma {:induction false} EtaOfLine(s: seq<Sample>, a: real, b: real)
    requires b > 0.0 && OnLine(s, a, -b)
    requires |s| >= 12 && FlowsVary(s)
    ensures SumsOf(s).xx >= 0.0 && Eta(SumsOf(s)) == Some(b)
  {
    SquareSumNonNegative(s);
    VaryingFlows(s);
    NotDegenerate(SumsOf(s));
    OnLineCovariance(s, a, -b);
    EtaQuotient(SumsOf(s), b);
  }

  /** Adding a constant to every stagnation changes nothing. */
  lemma {:induction false} EtaIgnoresLevel(s: seq<Sample>, rise: real)
    ensures SumsOf(s).xx >= 0.0 && SumsOf(Lifted(s, rise)).xx >= 0.0
    ensures Eta(SumsOf(Lifted(s, rise))) == Eta(SumsOf(s))
  {
    SquareSumNonNegative(s);
    SquareSumNonNegative(Lifted(s, rise));
    LiftedSums(s, rise);
    LiftedCovariance(s, rise);
    SameEta(SumsOf(Lifted(s, rise)), SumsOf(s));
  }

  lemma {:induction false} SameEta(p: Sums, q: Sums)
    requires p.n == q.n && p.xx == q.xx && p.xx >= 0.0
    requires p.Variance() == q.Variance() && p.Covariance() == q.Covariance()
    ensures Eta(p) == Eta(q)
  {
  }
}
