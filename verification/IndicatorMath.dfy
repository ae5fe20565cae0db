/** The batch helpers every indicator calls, each a loop proved against a range formula. */
module IndicatorMath {
  import opened Numeric

  method Sma(values: seq<real>, period: int) returns (average: real, ok: bool)
    ensures ok <==> 0 < period <= |values|
    ensures ok ==> average == Mean(values, |values| - period, |values|)
    ensures !ok ==> average == 0.0
  {
    if period <= 0 || |values| < period {
      return 0.0, false;
    }
    var start := |values| - period;
    var sum := 0.0;
    for index := start to |values|
      invariant sum == RangeSum(values, start, index)
    {
      sum := sum + values[index];
    }
    return sum / period as real, true;
  }

  method StandardDeviation(values: seq<real>, period: int, sqrt: real -> real) returns (deviation: real, ok: bool)
    ensures ok <==> 0 < period <= |values|
    ensures ok ==> deviation == sqrt(Variance(values, |values| - period, |values|))
    ensures !ok ==> deviation == 0.0
  {
    if period <= 0 || |values| < period {
      return 0.0, false;
    }
    var average, _ := Sma(values, period);
    var start := |values| - period;
    var variance := 0.0;
    for index := start to |values|
      invariant variance == RangeDevSq(values, start, index, average)
    {
      var diff := values[index] - average;
      variance := variance + Sq(diff);
    }
    return sqrt(variance / period as real), true;
  }

  method HighLow(highs: seq<real>, lows: seq<real>) returns (highest: real, lowest: real)
    requires 0 < |highs| <= |lows|
    ensures highest == RangeMax(highs, 0, |highs|) && lowest == RangeMin(lows, 0, |highs|)
  {
    highest, lowest := highs[0], lows[0];
    for index := 0 to |highs|
      invariant index == 0 ==> highest == highs[0] && lowest == lows[0]
      invariant index > 0 ==> highest == RangeMax(highs, 0, index) && lowest == RangeMin(lows, 0, index)
    {
      if highs[index] > highest {
        highest := highs[index];
      }
      if lows[index] < lowest {
        lowest := lows[index];
      }
    }
  }

  method HighestValue(values: seq<real>) returns (highest: real)
    requires values != []
    ensures highest == RangeMax(values, 0, |values|)
  {
    highest := values[0];
    for index := 1 to |values|
      invariant highest == RangeMax(values, 0, index)
    {
      if values[index] > highest {
        highest := values[index];
      }
    }
  }

  method LowestValue(values: seq<real>) returns (lowest: real)
    requires values != []
    ensures lowest == RangeMin(values, 0, |values|)
  {
    lowest := values[0];
    for index := 1 to |values|
      invariant lowest == RangeMin(values, 0, index)
    {
      if values[index] < lowest {
        lowest := values[index];
      }
    }
  }

  /** The extremes of a slice are the extremes of the range it was cut from. */
  lemma {:induction false} SliceExtremes(s: seq<real>, lo: nat, hi: nat)
    requires lo < hi <= |s|
    ensures RangeMax(s[lo..hi], 0, hi - lo) == RangeMax(s, lo, hi)
    ensures RangeMin(s[lo..hi], 0, hi - lo) == RangeMin(s, lo, hi)
  {
    var t := s[lo..hi];
    assert forall i :: 0 <= i < hi - lo ==> t[i] == s[lo + i];
    assert forall i :: lo <= i < hi ==> s[i] == t[i - lo];
  }

  method HighestOfSlice(values: seq<real>, lo: nat, hi: nat) returns (highest: real)
    requires lo < hi <= |values|
    ensures highest == RangeMax(values, lo, hi)
  {
    hide RangeMax, RangeMin;
    highest := HighestValue(values[lo..hi]);
    SliceExtremes(values, lo, hi);
  }

  method LowestOfSlice(values: seq<real>, lo: nat, hi: nat) returns (lowest: real)
    requires lo < hi <= |values|
    ensures lowest == RangeMin(values, lo, hi)
  {
    hide RangeMax, RangeMin;
    lowest := LowestValue(values[lo..hi]);
    SliceExtremes(values, lo, hi);
  }

  method HighLowOfSlices(highs: seq<real>, lows: seq<real>, lo: nat, hi: nat) returns (highest: real, lowest: real)
    requires lo < hi <= |highs| && hi <= |lows|
    ensures highest == RangeMax(highs, lo, hi) && lowest == RangeMin(lows, lo, hi)
  {
    hide RangeMax, RangeMin;
    highest, lowest := HighLow(highs[lo..hi], lows[lo..hi]);
    SliceExtremes(highs, lo, hi);
    SliceExtremes(lows, lo, hi);
  }

  /** The plain average of the `period` values that end just before `end`. */
  method SmaOfPrefix(values: seq<real>, end: nat, period: nat) returns (average: real)
    requires 1 <= period <= end <= |values|
    ensures average == Mean(values, end - period, end)
  {
    hide RangeSum;
    var ok;
    average, ok := Sma(values[..end], period);
    RangeSumSame(values[..end], values, end - period, end);
  }

  // ----- exponential averages -----

  /** One smoothing step. */
  function Blend(previous: real, next: real, period: nat): real {
    (next - previous) * (2.0 / (period + 1) as real) + previous
  }

  /** The exponential average of all of xs, seeded with the plain average of the first `period`. */
  function EmaOf(xs: seq<real>, period: nat): real
    requires 1 <= period <= |xs|
  {
    if |xs| == period then Mean(xs, 0, period)
    else Blend(EmaOf(xs[..|xs| - 1], period), xs[|xs| - 1], period)
  }

  /** The exponential averages of every prefix long enough to have one. */
  function EmaSeq(xs: seq<real>, period: nat): (r: seq<real>)
    requires 1 <= period
    ensures |r| == if |xs| < period then 0 else |xs| - period + 1
  {
    if |xs| < period then [] else EmaSeq(xs[..|xs| - 1], period) + [EmaOf(xs, period)]
  }

  /**
   * The exponential average written out: the plain average of the first `period` values and
   * every value since, each fading by the factor 1 - 2 / (period + 1) per step of its age.
   */
  lemma {:induction false} EmaIsFadedSum(xs: seq<real>, period: nat)
    requires 1 <= period <= |xs|
    ensures var n, a := |xs|, 2.0 / (period + 1) as real;
            EmaOf(xs, period) == Power(1.0 - a, n - period) * Mean(xs, 0, period) + a * Faded(xs, period, n, n, 1.0 - a)
    decreases |xs|
  {
    hide Mean, Faded, Power, EmaOf, Blend;
    var n, q := |xs|, 1.0 - 2.0 / (period + 1) as real;
    if n == period {
      FadedNothing(xs, n, q);
      EmaSeqFirst(xs, period);
    } else {
      var seen := xs[..n - 1];
      EmaIsFadedSum(seen, period);
      SameStart(xs, period);
      FadedSame(seen, xs, period, n - 1, n - 1, q);
      FadedSnoc(xs, period, n, q);
      PowerUnfold(q, n - 1 - period);
      assert xs == seen + [xs[n - 1]];
      EmaSeqStep(seen, xs[n - 1], period);
      OneFade(EmaOf(seen, period), xs[n - 1], period, Power(q, n - 1 - period), Mean(xs, 0, period), Faded(xs, period, n - 1, n - 1, q));
    }
  }

  lemma {:induction false} PowerUnfold(q: real, n: nat)
    ensures Power(q, n + 1) == q * Power(q, n)
  {
  }

  lemma {:induction false} SameStart(xs: seq<real>, period: nat)
    requires 1 <= period < |xs|
    ensures Mean(xs[..|xs| - 1], 0, period) == Mean(xs, 0, period)
  {
    hide RangeSum;
    RangeSumSame(xs[..|xs| - 1], xs, 0, period);
  }

  lemma {:induction false} FadedNothing(xs: seq<real>, n: nat, q: real)
    requires n == |xs|
    ensures Faded(xs, n, n, n, q) == 0.0 && Power(q, 0) == 1.0
  {
  }

  lemma {:induction false} OneFade(before: real, next: real, period: nat, w: real, start: real, faded: real)
    requires var a := 2.0 / (period + 1) as real; before == w * start + a * faded
    ensures var a := 2.0 / (period + 1) as real;
            Blend(before, next, period) == (1.0 - a) * w * start + a * ((1.0 - a) * faded + next)
  {
    var a := 2.0 / (period + 1) as real;
    assert (1.0 - a) * before == (1.0 - a) * w * start + a * ((1.0 - a) * faded);
    assert (next - before) * a + before == (1.0 - a) * before + a * next;
  }

  lemma {:induction false} RangeSumNonNegative(xs: seq<real>, lo: nat, hi: nat)
    requires lo <= hi <= |xs| && forall i :: lo <= i < hi ==> xs[i] >= 0.0
    ensures RangeSum(xs, lo, hi) >= 0.0
    decreases hi
  {
    if lo < hi {
      RangeSumNonNegative(xs, lo, hi - 1);
    }
  }

  /** Exponential averages of non-negative values stay non-negative. */
  lemma {:induction false} EmaNonNegative(xs: seq<real>, period: nat)
    requires 1 <= period <= |xs| && forall i :: 0 <= i < |xs| ==> xs[i] >= 0.0
    ensures EmaOf(xs, period) >= 0.0
  {
    if |xs| == period {
      RangeSumNonNegative(xs, 0, period);
    } else {
      EmaNonNegative(xs[..|xs| - 1], period);
      BlendNonNegative(EmaOf(xs[..|xs| - 1], period), xs[|xs| - 1], 2.0 / (period + 1) as real);
    }
  }

  lemma {:induction false} BlendNonNegative(a: real, b: real, w: real)
    requires a >= 0.0 && b >= 0.0 && 0.0 <= w <= 1.0
    ensures (b - a) * w + a >= 0.0
  {
    assert b * w >= 0.0 && a * (1.0 - w) >= 0.0;
    assert (b - a) * w == b * w - a * w && a * (1.0 - w) == a - a * w;
  }

  method Ema(values: seq<real>, period: int) returns (average: real, ok: bool)
    ensures ok <==> 0 < period <= |values|
    ensures ok ==> average == EmaOf(values, period)
  {
    hide EmaOf, EmaSeq, Mean;
    if period <= 0 || |values| < period {
      return 0.0, false;
    }
    EmaSeqFirst(values[..period], period);
    average, ok := Sma(values[..period], period);
    var multiplier := 2.0 / (period + 1) as real;
    for index := period to |values|
      invariant average == EmaOf(values[..index], period) && ok
    {
      EmaSeqStep(values[..index], values[index], period);
      assert values[..index + 1] == values[..index] + [values[index]];
      average := (values[index] - average) * multiplier + average;
    }
    assert values[..|values|] == values;
  }

  /** One more value appends one more average. */
  lemma {:induction false} EmaSeqStep(seen: seq<real>, next: real, period: nat)
    requires 1 <= period <= |seen|
    ensures EmaOf(seen + [next], period) == Blend(EmaOf(seen, period), next, period)
    ensures EmaSeq(seen + [next], period) == EmaSeq(seen, period) + [Blend(EmaOf(seen, period), next, period)]
    ensures EmaSeq(seen, period)[|seen| - period] == EmaOf(seen, period)
  {
  }

  /** The first average is the plain one. */
  lemma {:induction false} EmaSeqFirst(values: seq<real>, period: nat)
    requires |values| == period >= 1
    ensures EmaOf(values, period) == Mean(values, 0, period) && EmaSeq(values, period) == [EmaOf(values, period)]
  {
    assert EmaSeq(values[..period - 1], period) == [];
  }

  method EmaSeries(values: seq<real>, period: int) returns (result: seq<real>, ok: bool)
    ensures ok <==> 0 < period <= |values|
    ensures ok ==> result == EmaSeq(values, period)
    ensures !ok ==> result == []
  {
    hide EmaOf, EmaSeq, Mean;
    if period <= 0 || |values| < period {
      return [], false;
    }
    EmaSeqFirst(values[..period], period);
    var current, _ := Sma(values[..period], period);
    var multiplier := 2.0 / (period + 1) as real;
    result, ok := [current], true;
    for index := period to |values|
      invariant current == EmaOf(values[..index], period) && ok
      invariant result == EmaSeq(values[..index], period)
    {
      EmaSeqStep(values[..index], values[index], period);
      assert values[..index + 1] == values[..index] + [values[index]];
      current := (values[index] - current) * multiplier + current;
      result := result + [current];
    }
    assert values[..|values|] == values;
  }
}
