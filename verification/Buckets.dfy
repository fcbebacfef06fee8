/** The logarithmic buckets that stand for stagnation, flow and dwell in the hourly tables. */
module Buckets {

  /** The ratio between the upper ends of two neighbouring buckets. */
  const GAMMA := 1.02

  /** GAMMA to the power k. */
  function Pow(k: int): (r: real)
    ensures r > 0.0
    decreases if k < 0 then -k else k
  {
    if k == 0 then 1.0
    else if k > 0 then GAMMA * Pow(k - 1)
    else Pow(k + 1) / GAMMA
  }

  lemma {:induction false} PowStep(k: int)
    ensures Pow(k + 1) == GAMMA * Pow(k)
  {
  }

  lemma {:induction false} PowIncreases(i: int, j: int)
    requires i < j
    ensures Pow(i) < Pow(j)
    decreases j - i
  {
    PowStep(i);
    if i + 1 < j {
      PowIncreases(i + 1, j);
    }
  }

  /** The least k such that s is at most GAMMA to the power k. */
  function CeilLog(s: real): (k: int)
    requires s > 0.0
    ensures Pow(k - 1) < s <= Pow(k)
    decreases if s > 1.0 then 51.0 * s else 51.0 / s
  {
    if s > 1.0 then
      var k := CeilLogAbove(s);
      k
    else if s <= 1.0 / GAMMA then
      Reciprocal(s);
      var k := CeilLog(GAMMA * s);
      PowStep(k - 1);
      PowStep(k - 2);
      k - 1
    else 0
  }

  function CeilLogAbove(s: real): (k: int)
    requires s > 1.0 / GAMMA
    ensures Pow(k - 1) < s <= Pow(k)
    decreases 51.0 * s
  {
    if s > 1.0 then
      var k := CeilLogAbove(s / GAMMA);
      PowStep(k);
      PowStep(k - 1);
      k + 1
    else 0
  }

  lemma {:induction false} Reciprocal(s: real)
    requires 0.0 < s <= 1.0 / GAMMA
    ensures 51.0 / (GAMMA * s) <= 51.0 / s - 1.0
  {
    var r := 1.0 / s;
    assert r * s == 1.0;
    assert r >= GAMMA;
    assert 51.0 / s == 51.0 * r;
    assert 51.0 / (GAMMA * s) == (51.0 / GAMMA) * r;
  }

  /** The value a bucket stands for; bucket 0 holds everything that is not positive. */
  function Bucket(s: real): (r: real)
    ensures r >= 0.0
    ensures r == 0.0 <==> s <= 0.0
  {
    if s <= 0.0 then 0.0 else 2.0 * Pow(CeilLog(s)) / 2.02
  }

  lemma {:induction false} BucketMonotone(s: real, t: real)
    requires s <= t
    ensures Bucket(s) <= Bucket(t)
  {
    if s > 0.0 {
      var i, j := CeilLog(s), CeilLog(t);
      if j < i {
        if j < i - 1 {
          PowIncreases(j, i - 1);
        }
      } else if i < j {
        PowIncreases(i, j);
      }
    }
  }

  /** A bucket is within one part in 101 of every value it stands for. */
  lemma {:induction false} BucketAccurate(s: real)
    requires s > 0.0
    ensures s - s / 101.0 <= Bucket(s) <= s + s / 101.0
  {
    var k := CeilLog(s);
    PowStep(k - 1);
  }
}
