/** Values shared by every module: optional values, instants, and public identifiers. */
module Basics {

  datatype Option<+T> = None | Some(value: T) {
    function GetOr(default: T): T {
      match this
      case None => default
      case Some(v) => v
    }
  }

  /** Instants and durations are microseconds. An instant counts from midnight UTC of 1 January
      of year 1, so that 0 is the zero instant that stands for "never". */
  type Time = int
  type Duration = int

  const ZERO_TIME: Time := 0
  const MINUTE: Duration := 60_000_000
  const HOUR: Duration := 60 * MINUTE

  function Minutes(d: Duration): real {
    d as real / 60_000_000.0
  }

  /** Products of reals have a name of their own so that proofs decide where to multiply out. */
  function Times(x: real, y: real): real {
    x * y
  }

  /** Public identifiers are strings ordered as their characters are; "" means "no identifier". */
  type Id = string

  /** Strict lexicographic order. */
  predicate Before(a: Id, b: Id) {
    if |b| == 0 then false
    else if |a| == 0 then true
    else a[0] < b[0] || (a[0] == b[0] && Before(a[1..], b[1..]))
  }

  /** At k they differ for the first time, and a is less there. */
  predicate FirstLess(a: Id, b: Id, k: int) {
    0 <= k < |a| && k < |b| && a[..k] == b[..k] && a[k] < b[k]
  }

  /** Of two identifiers, the one before the other is its beginning, or is less where they first differ. */
  lemma {:induction false} BeforeMeans(a: Id, b: Id)
    ensures Before(a, b) <==> (|a| < |b| && a == b[..|a|]) || exists k :: FirstLess(a, b, k)
  {
    if |a| == 0 {
      assert |b| > 0 ==> a == b[..0];
    } else if |b| > 0 {
      var a', b' := a[1..], b[1..];
      BeforeMeans(a', b');
      assert a == [a[0]] + a' && b == [b[0]] + b';
      if a[0] < b[0] {
        assert FirstLess(a, b, 0);
      } else {
        forall k
          ensures FirstLess(a, b, k) <==> k > 0 && a[0] == b[0] && FirstLess(a', b', k - 1)
        {
          FirstLessLater(a, b, k);
        }
        if k :| FirstLess(a', b', k) {
          assert FirstLess(a, b, k + 1) <==> a[0] == b[0];
        }
        assert a[0] == b[0] && |a| < |b| ==> (a == b[..|a|] <==> a' == b'[..|a'|]) by {
          if a[0] == b[0] && |a| < |b| {
            assert b[..|a|] == [b[0]] + b'[..|a'|];
          }
        }
        assert |a| < |b| && a == b[..|a|] ==> a[0] == b[0];
      }
    }
  }

  lemma {:induction false} FirstLessLater(a: Id, b: Id, k: int)
    requires |a| > 0 && |b| > 0 && a[0] >= b[0]
    ensures FirstLess(a, b, k) <==> k > 0 && a[0] == b[0] && FirstLess(a[1..], b[1..], k - 1)
  {
    if 0 < k < |a| && k < |b| {
      assert a[..k] == [a[0]] + a[1..][..k - 1];
      assert b[..k] == [b[0]] + b[1..][..k - 1];
      assert a[..k] == b[..k] ==> a[..k][0] == b[..k][0] && a[..k][1..] == b[..k][1..];
    }
  }

  lemma {:induction false} BeforeIrreflexive(a: Id)
    ensures !Before(a, a)
  {
    if |a| > 0 {
      BeforeIrreflexive(a[1..]);
    }
  }

  lemma {:induction false} BeforeTransitive(a: Id, b: Id, c: Id)
    requires Before(a, b) && Before(b, c)
    ensures Before(a, c)
  {
    if |a| > 0 && a[0] == b[0] == c[0] {
      BeforeTransitive(a[1..], b[1..], c[1..]);
    }
  }

  lemma {:induction false} BeforeTotal(a: Id, b: Id)
    ensures a == b || Before(a, b) || Before(b, a)
  {
    if |a| > 0 && |b| > 0 && a[0] == b[0] {
      BeforeTotal(a[1..], b[1..]);
      assert a == [a[0]] + a[1..];
      assert b == [b[0]] + b[1..];
    }
  }
}
