/**
 * Arithmetic over half-open index ranges of a price series, read off the batch
 * helpers of the indicator package.  Prices are reals: rounding is not modelled.
 */
module Numeric {

  datatype Option<+T> = None | Some(value: T)

  function Max(a: real, b: real): real {
    if a < b then b else a
  }

  function Min(a: real, b: real): real {
    if b < a then b else a
  }

  function Abs(a: real): real {
    if a < 0.0 then -a else a
  }

  function Sq(a: real): (r: real)
    ensures r >= 0.0
  {
    if a >= 0.0 then a * a else -a * -a
  }

  /** The sum of s[lo..hi], accumulated from the left like every loop in the source. */
  function RangeSum(s: seq<real>, lo: nat, hi: nat): real
    requires lo <= hi <= |s|
    decreases hi
  {
    if lo == hi then 0.0 else RangeSum(s, lo, hi - 1) + s[hi - 1]
  }

  /** The sum of the squares of s[lo..hi]. */
  function RangeSumSq(s: seq<real>, lo: nat, hi: nat): real
    requires lo <= hi <= |s|
    decreases hi
  {
    if lo == hi then 0.0 else RangeSumSq(s, lo, hi - 1) + s[hi - 1] * s[hi - 1]
  }

  /** The sum of the squared distances of s[lo..hi] to a centre. */
  function RangeDevSq(s: seq<real>, lo: nat, hi: nat, centre: real): (r: real)
    requires lo <= hi <= |s|
    ensures r >= 0.0
    decreases hi
  {
    if lo == hi then 0.0
    else RangeDevSq(s, lo, hi - 1, centre) + Sq(s[hi - 1] - centre)
  }

  function RangeMax(s: seq<real>, lo: nat, hi: nat): (r: real)
    requires lo < hi <= |s|
    ensures forall i :: lo <= i < hi ==> s[i] <= r
    ensures exists i :: lo <= i < hi && s[i] == r
    decreases hi
  {
    if lo + 1 == hi then s[lo] else Max(RangeMax(s, lo, hi - 1), s[hi - 1])
  }

  function RangeMin(s: seq<real>, lo: nat, hi: nat): (r: real)
    requires lo < hi <= |s|
    ensures forall i :: lo <= i < hi ==> r <= s[i]
    ensures exists i :: lo <= i < hi && s[i] == r
    decreases hi
  {
    if lo + 1 == hi then s[lo] else Min(RangeMin(s, lo, hi - 1), s[hi - 1])
  }

  /** Dropping the oldest value of a range takes exactly that value off the sums. */
  lemma {:induction false} RangeSumDropFirst(s: seq<real>, lo: nat, hi: nat)
    requires lo < hi <= |s|
    ensures RangeSum(s, lo, hi) == s[lo] + RangeSum(s, lo + 1, hi)
    ensures RangeSumSq(s, lo, hi) == s[lo] * s[lo] + RangeSumSq(s, lo + 1, hi)
    decreases hi
  {
    if lo + 1 < hi {
      RangeSumDropFirst(s, lo, hi - 1);
    }
  }

  /** A range sum only looks at the range. */
  lemma {:induction false} RangeSumSame(s: seq<real>, t: seq<real>, lo: nat, hi: nat)
    requires lo <= hi <= |s| && hi <= |t|
    requires forall i :: lo <= i < hi ==> s[i] == t[i]
    ensures RangeSum(s, lo, hi) == RangeSum(t, lo, hi)
    ensures RangeSumSq(s, lo, hi) == RangeSumSq(t, lo, hi)
    decreases hi
  {
    if lo < hi {
      RangeSumSame(s, t, lo, hi - 1);
    }
  }

  lemma {:induction false} RangeDevSqSame(s: seq<real>, t: seq<real>, lo: nat, hi: nat, centre: real)
    requires lo <= hi <= |s| && hi <= |t|
    requires forall i :: lo <= i < hi ==> s[i] == t[i]
    ensures RangeDevSq(s, lo, hi, centre) == RangeDevSq(t, lo, hi, centre)
    decreases hi
  {
    if lo < hi {
      RangeDevSqSame(s, t, lo, hi - 1, centre);
    }
  }

  /** Sliding a sum over a copy that starts `shift` positions later. */
  lemma {:induction false} RangeSumShift(s: seq<real>, t: seq<real>, shift: nat, lo: nat, hi: nat)
    requires lo <= hi <= |t| && hi + shift <= |s|
    requires forall i :: lo <= i < hi ==> t[i] == s[i + shift]
    ensures RangeSum(t, lo, hi) == RangeSum(s, lo + shift, hi + shift)
    decreases hi
  {
    if lo < hi {
      RangeSumShift(s, t, shift, lo, hi - 1);
    }
  }

  lemma {:induction false} RangeSumSqShift(s: seq<real>, t: seq<real>, shift: nat, lo: nat, hi: nat)
    requires lo <= hi <= |t| && hi + shift <= |s|
    requires forall i :: lo <= i < hi ==> t[i] == s[i + shift]
    ensures RangeSumSq(t, lo, hi) == RangeSumSq(s, lo + shift, hi + shift)
    decreases hi
  {
    if lo < hi {
      RangeSumSqShift(s, t, shift, lo, hi - 1);
    }
  }

  lemma {:induction false} RangeDevSqShift(s: seq<real>, t: seq<real>, shift: nat, lo: nat, hi: nat, centre: real)
    requires lo <= hi <= |t| && hi + shift <= |s|
    requires forall i :: lo <= i < hi ==> t[i] == s[i + shift]
    ensures RangeDevSq(t, lo, hi, centre) == RangeDevSq(s, lo + shift, hi + shift, centre)
    decreases hi
  {
    if lo < hi {
      RangeDevSqShift(s, t, shift, lo, hi - 1, centre);
    }
  }

  /** The sum of squared distances to `centre` of n values with the given sum and sum of squares. */
  function Spread(total: real, squares: real, n: real, centre: real): real {
    squares - 2.0 * centre * total + n * (centre * centre)
  }

  lemma {:induction false} SpreadStep(total: real, squares: real, n: real, x: real, centre: real, total': real, squares': real, n': real)
    requires total' == total + x && squares' == squares + x * x && n' == n + 1.0
    ensures Spread(total, squares, n, centre) + Sq(x - centre) == Spread(total', squares', n', centre)
  {
  }

  lemma {:induction false} SpreadNothing(centre: real)
    ensures Spread(0.0, 0.0, 0.0, centre) == 0.0
  {
  }

  lemma {:induction false} RangeDevSqExpands(s: seq<real>, lo: nat, hi: nat, centre: real, n: real)
    requires lo <= hi <= |s| && n == (hi - lo) as real
    ensures RangeDevSq(s, lo, hi, centre) == Spread(RangeSum(s, lo, hi), RangeSumSq(s, lo, hi), n, centre)
    decreases hi
  {
    hide Spread, Sq;
    if lo == hi {
      SpreadNothing(centre);
    } else {
      RangeDevSqExpands(s, lo, hi - 1, centre, n - 1.0);
      SpreadStep(RangeSum(s, lo, hi - 1), RangeSumSq(s, lo, hi - 1), n - 1.0, s[hi - 1], centre, RangeSum(s, lo, hi), RangeSumSq(s, lo, hi), n);
    }
  }

  /** Mean of s[lo..hi]. */
  function Mean(s: seq<real>, lo: nat, hi: nat): real
    requires lo < hi <= |s|
  {
    RangeSum(s, lo, hi) / (hi - lo) as real
  }

  /** Two-pass population variance of s[lo..hi]. */
  function Variance(s: seq<real>, lo: nat, hi: nat): (r: real)
    requires lo < hi <= |s|
    ensures r >= 0.0
  {
    RangeDevSq(s, lo, hi, Mean(s, lo, hi)) / (hi - lo) as real
  }

  lemma {:induction false} VarianceNonNegative(s: seq<real>, lo: nat, hi: nat)
    requires lo < hi <= |s|
    ensures Variance(s, lo, hi) >= 0.0
  {
  }

  /**
   * The running form (mean of squares minus square of mean) is the two-pass
   * variance, so clamping it at zero never changes it.
   */
  lemma {:induction false} RunningVarianceIsTwoPass(s: seq<real>, lo: nat, hi: nat)
    requires lo < hi <= |s|
    ensures RangeSumSq(s, lo, hi) / (hi - lo) as real - Mean(s, lo, hi) * Mean(s, lo, hi) == Variance(s, lo, hi)
  {
    hide RangeSum, RangeSumSq, RangeDevSq;
    var n, mean := (hi - lo) as real, Mean(s, lo, hi);
    RangeDevSqExpands(s, lo, hi, mean, n);
    MomentIdentity(RangeSum(s, lo, hi), RangeSumSq(s, lo, hi), n);
  }

  lemma {:induction false} MomentIdentity(total: real, squares: real, n: real)
    requires n > 0.0
    ensures squares / n - total / n * (total / n) == Spread(total, squares, n, total / n) / n
  {
  }

  lemma {:induction false} RangeMaxSame(s: seq<real>, t: seq<real>, lo: nat, hi: nat)
    requires lo < hi <= |s| && hi <= |t|
    requires forall i :: lo <= i < hi ==> s[i] == t[i]
    ensures RangeMax(s, lo, hi) == RangeMax(t, lo, hi)
    ensures RangeMin(s, lo, hi) == RangeMin(t, lo, hi)
  {
  }

  // ----- weights that fade with age -----

  function Power(q: real, n: nat): real {
    if n == 0 then 1.0 else q * Power(q, n - 1)
  }

  /** The sum of s[lo..hi], each value weighing q to the power of its age at `now`. */
  function Faded(s: seq<real>, lo: nat, hi: nat, now: nat, q: real): real
    requires lo <= hi <= |s| && hi <= now
    decreases hi
  {
    if lo == hi then 0.0 else Faded(s, lo, hi - 1, now, q) + s[hi - 1] * Power(q, now - hi)
  }

  lemma {:induction false} FadedAges(s: seq<real>, lo: nat, hi: nat, now: nat, q: real)
    requires lo <= hi <= |s| && hi <= now
    ensures Faded(s, lo, hi, now + 1, q) == q * Faded(s, lo, hi, now, q)
    decreases hi
  {
    if lo < hi {
      FadedAges(s, lo, hi - 1, now, q);
      assert Power(q, now + 1 - hi) == q * Power(q, now - hi);
      Distribute(q, Faded(s, lo, hi - 1, now, q), s[hi - 1], Power(q, now - hi));
    }
  }

  lemma {:induction false} Distribute(q: real, a: real, b: real, w: real)
    ensures q * a + b * (q * w) == q * (a + b * w)
  {
  }

  lemma {:induction false} FadedSame(s: seq<real>, t: seq<real>, lo: nat, hi: nat, now: nat, q: real)
    requires lo <= hi <= |s| && hi <= |t| && hi <= now
    requires forall i :: lo <= i < hi ==> s[i] == t[i]
    ensures Faded(s, lo, hi, now, q) == Faded(t, lo, hi, now, q)
    decreases hi
  {
    if lo < hi {
      FadedSame(s, t, lo, hi - 1, now, q);
    }
  }

  /** One value more: everything before fades once more and the new value enters in full. */
  lemma {:induction false} FadedSnoc(s: seq<real>, lo: nat, hi: nat, q: real)
    requires lo < hi <= |s|
    ensures Faded(s, lo, hi, hi, q) == q * Faded(s, lo, hi - 1, hi - 1, q) + s[hi - 1]
  {
    FadedAges(s, lo, hi - 1, hi - 1, q);
    assert Power(q, 0) == 1.0;
  }
}
