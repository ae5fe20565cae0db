/**
 * The stochastic oscillators: %K is the place of the close in the high-low range
 * of the last `period` bars and %D the plain average of the last `smooth` %K.
 * The compact forms slide two deques; the batch forms rescan every window.
 */
module Stochastic {
  import opened Numeric
  import opened IndicatorMath
  import opened MonotonicWindow

  ghost predicate Covers(highs: seq<real>, lows: seq<real>, closes: seq<real>) {
    |highs| >= |closes| && |lows| >= |closes|
  }

  function PercentK(highest: real, lowest: real, close: real): (k: real)
  {
    if highest == lowest then 50.0 else (close - lowest) / (highest - lowest) * 100.0
  }

  /** %K of the `period` bars that end just before `end`. */
  function KAt(highs: seq<real>, lows: seq<real>, closes: seq<real>, period: nat, end: nat): real
    requires Covers(highs, lows, closes) && 1 <= period <= end <= |closes|
  {
    PercentK(RangeMax(highs, end - period, end), RangeMin(lows, end - period, end), closes[end - 1])
  }

  /** The %K values for window ends first..last. */
  function KSeries(highs: seq<real>, lows: seq<real>, closes: seq<real>, period: nat, first: nat, last: nat): (ks: seq<real>)
    requires Covers(highs, lows, closes) && 1 <= period <= first <= last + 1 && last <= |closes|
    ensures |ks| == last + 1 - first
    decreases last
  {
    if first == last + 1 then [] else KSeries(highs, lows, closes, period, first, last - 1) + [KAt(highs, lows, closes, period, last)]
  }

  lemma {:induction false} KSeriesAt(highs: seq<real>, lows: seq<real>, closes: seq<real>, period: nat, first: nat, last: nat, end: nat)
    requires Covers(highs, lows, closes) && 1 <= period <= first <= end <= last <= |closes|
    ensures KSeries(highs, lows, closes, period, first, last)[end - first] == KAt(highs, lows, closes, period, end)
    decreases last
  {
    if end < last {
      KSeriesAt(highs, lows, closes, period, first, last - 1, end);
    }
  }

  /** A close inside its bar keeps %K, and so every average of %K, between 0 and 100. */
  lemma {:induction false} KInRange(highs: seq<real>, lows: seq<real>, closes: seq<real>, period: nat, end: nat)
    requires Covers(highs, lows, closes) && 1 <= period <= end <= |closes|
    requires lows[end - 1] <= closes[end - 1] <= highs[end - 1]
    ensures 0.0 <= KAt(highs, lows, closes, period, end) <= 100.0
  {
    var highest, lowest := RangeMax(highs, end - period, end), RangeMin(lows, end - period, end);
    assert lowest <= lows[end - 1] && highs[end - 1] <= highest;
    if highest != lowest {
      RatioInUnit(closes[end - 1] - lowest, highest - lowest);
    }
  }

  lemma {:induction false} RatioInUnit(part: real, whole: real)
    requires 0.0 <= part <= whole && 0.0 < whole
    ensures 0.0 <= part / whole <= 1.0
  {
    assert part / whole * whole == part;
  }

  // ----- rescanning every window -----

  method RescanK(highs: seq<real>, lows: seq<real>, closes: seq<real>, period: nat, end: nat) returns (k: real)
    requires Covers(highs, lows, closes) && 1 <= period <= end <= |closes|
    ensures k == KAt(highs, lows, closes, period, end)
  {
    var highest, lowest := HighLowOfSlices(highs, lows, end - period, end);
    k := PercentK(highest, lowest, closes[end - 1]);
  }

  method KValuesBatch(highs: seq<real>, lows: seq<real>, closes: seq<real>, period: nat, first: nat) returns (values: seq<real>)
    requires Covers(highs, lows, closes) && 1 <= period <= first <= |closes|
    ensures values == KSeries(highs, lows, closes, period, first, |closes|)
  {
    hide KAt;
    values := [];
    for end := first to |closes| + 1
      invariant values == KSeries(highs, lows, closes, period, first, end - 1)
    {
      var k := RescanK(highs, lows, closes, period, end);
      values := values + [k];
    }
  }

  method StochasticBatch(highs: seq<real>, lows: seq<real>, closes: seq<real>, period: nat, smooth: nat)
    returns (k: real, d: real, ok: bool)
    requires 1 <= period && 1 <= smooth && Covers(highs, lows, closes)
    ensures ok <==> |closes| >= period + smooth - 1
    ensures ok ==> k == KAt(highs, lows, closes, period, |closes|)
    ensures ok ==> d == Mean(KSeries(highs, lows, closes, period, |closes| - smooth + 1, |closes|), 0, smooth)
  {
    if |closes| < period + smooth - 1 {
      return 0.0, 0.0, false;
    }
    var values := KValuesBatch(highs, lows, closes, period, |closes| - smooth + 1);
    d, ok := Sma(values, smooth);
    return values[|values| - 1], d, true;
  }

  // ----- sliding two deques, at every period they admit -----

  /** %K from what the deques report after bars from..end. */
  ghost function DequeK(highs: seq<real>, lows: seq<real>, closes: seq<real>, period: nat, from: nat, end: nat): real
    requires Covers(highs, lows, closes) && 1 <= period <= CAPACITY && from < end <= |closes|
  {
    PercentK(Reported(highs, true, period, from, end), Reported(lows, false, period, from, end), closes[end - 1])
  }

  /** The %K values for window ends first..last; the deques start with the first window. */
  ghost function DequeKs(highs: seq<real>, lows: seq<real>, closes: seq<real>, period: nat, first: nat, last: nat): (ks: seq<real>)
    requires Covers(highs, lows, closes) && 1 <= period <= CAPACITY && period <= first <= last + 1 && last <= |closes|
    ensures |ks| == last + 1 - first
    decreases last
  {
    if first == last + 1 then []
    else DequeKs(highs, lows, closes, period, first, last - 1) + [DequeK(highs, lows, closes, period, first - period, last)]
  }

  lemma {:induction false} DequeKIsExact(highs: seq<real>, lows: seq<real>, closes: seq<real>, period: nat, from: nat, end: nat)
    requires Covers(highs, lows, closes) && 1 <= period < CAPACITY && from + period <= end <= |closes|
    ensures DequeK(highs, lows, closes, period, from, end) == KAt(highs, lows, closes, period, end)
  {
    hide Run, RangeMax, RangeMin, PercentK;
    assert WindowStart(period, from, end) == end - period;
  }

  /** Below the capacity of the deques these are the %K of rescanning every window. */
  lemma {:induction false} DequeKsAreExact(highs: seq<real>, lows: seq<real>, closes: seq<real>, period: nat, first: nat, last: nat)
    requires Covers(highs, lows, closes) && 1 <= period < CAPACITY && period <= first <= last + 1 && last <= |closes|
    ensures DequeKs(highs, lows, closes, period, first, last) == KSeries(highs, lows, closes, period, first, last)
    decreases last
  {
    hide DequeK, KAt;
    if first <= last {
      DequeKsAreExact(highs, lows, closes, period, first, last - 1);
      DequeKIsExact(highs, lows, closes, period, first - period, last);
    }
  }

  lemma {:induction false} DequeKsSnoc(highs: seq<real>, lows: seq<real>, closes: seq<real>, period: nat, first: nat, last: nat)
    requires Covers(highs, lows, closes) && 1 <= period <= CAPACITY && period <= first <= last <= |closes|
    ensures DequeKs(highs, lows, closes, period, first, last)
         == DequeKs(highs, lows, closes, period, first, last - 1)
            + [PercentK(Reported(highs, true, period, first - period, last), Reported(lows, false, period, first - period, last), closes[last - 1])]
    ensures DequeKs(highs, lows, closes, period, first, first - 1) == []
  {
    hide PercentK;
  }

  /**
   * The shared loop of the compact forms: warm up one full window without
   * expiring, then push, expire and read once per %K.
   */
  method KValuesCompact(highs: seq<real>, lows: seq<real>, closes: seq<real>, period: nat, first: nat)
    returns (values: seq<real>, ok: bool)
    requires Covers(highs, lows, closes) && 1 <= period <= CAPACITY && period <= first <= |closes|
    ensures ok && values == DequeKs(highs, lows, closes, period, first, |closes|)
  {
    hide RunPair, Run, Reported, PercentK, DequeKs, DequeK;
    values := [];
    var warmupStart := first - period;
    var highWindow, lowWindow := NewPair();
    StartPair(highWindow, lowWindow, highs, lows, period, warmupStart);
    DequeKsSnoc(highs, lows, closes, period, first, first);
    for index := warmupStart to |closes|
      invariant fresh(highWindow) && fresh(highWindow.values) && fresh(lowWindow) && fresh(lowWindow.values)
      invariant RunPair(highWindow, lowWindow, highs, lows, period, warmupStart, index)
      invariant index < first ==> values == []
      invariant index + 1 >= first ==> values == DequeKs(highs, lows, closes, period, first, index)
    {
      var end := index + 1;
      if end < first {
        WarmPair(highWindow, lowWindow, highs, lows, period, warmupStart, index, highs[index], lows[index]);
      } else {
        var highest, lowest, read := SlidePair(highWindow, lowWindow, highs, lows, period, warmupStart, index, highs[index], lows[index]);
        if !read {
          assert false;
        }
        DequeKsSnoc(highs, lows, closes, period, first, end);
        values := values + [PercentK(highest, lowest, closes[end - 1])];
      }
    }
    ok := true;
  }

  predicate CompactAccepts(highs: seq<real>, lows: seq<real>, closes: seq<real>, period: int, smooth: int, needed: int) {
    0 < period <= CAPACITY && 0 < smooth && |closes| >= needed && |highs| == |closes| && |lows| == |closes|
  }

  method StochasticCompact(highs: seq<real>, lows: seq<real>, closes: seq<real>, period: int, smooth: int)
    returns (k: real, d: real, ok: bool)
    ensures ok <==> CompactAccepts(highs, lows, closes, period, smooth, period + smooth - 1)
    ensures ok ==> var ks := DequeKs(highs, lows, closes, period, |closes| - smooth + 1, |closes|);
                   k == ks[|ks| - 1] && d == Mean(ks, 0, smooth)
  {
    hide DequeKs, Mean;
    if period <= 0 || smooth <= 0 || |closes| < period + smooth - 1 || |highs| != |closes| || |lows| != |closes| || period > CAPACITY {
      return 0.0, 0.0, false;
    }
    var values;
    values, ok := KValuesCompact(highs, lows, closes, period, |closes| - smooth + 1);
    if !ok {
      assert false;
    }
    d, ok := Sma(values, smooth);
    k := values[|values| - 1];
  }

  /** The %K values the published forms work on: the deques' where they are admitted, else those of rescanning. */
  ghost function PublishedKs(highs: seq<real>, lows: seq<real>, closes: seq<real>, period: nat, first: nat): (ks: seq<real>)
    requires Covers(highs, lows, closes) && 1 <= period <= first <= |closes|
    ensures |ks| == |closes| + 1 - first
    ensures period != CAPACITY ==> ks == KSeries(highs, lows, closes, period, first, |closes|)
  {
    if period <= CAPACITY && |highs| == |closes| && |lows| == |closes| then
      if period < CAPACITY then
        DequeKsAreExact(highs, lows, closes, period, first, |closes|);
        DequeKs(highs, lows, closes, period, first, |closes|)
      else DequeKs(highs, lows, closes, period, first, |closes|)
    else KSeries(highs, lows, closes, period, first, |closes|)
  }

  /** The published form tries the deques and falls back to rescanning; but for period 256 both give the same oscillator. */
  method Stochastic(highs: seq<real>, lows: seq<real>, closes: seq<real>, period: nat, smooth: nat)
    returns (k: real, d: real, ok: bool)
    requires 1 <= period && 1 <= smooth && Covers(highs, lows, closes)
    ensures ok <==> |closes| >= period + smooth - 1
    ensures ok ==> var ks := PublishedKs(highs, lows, closes, period, |closes| - smooth + 1);
                   k == ks[|ks| - 1] && d == Mean(ks, 0, smooth)
    ensures ok && period != CAPACITY ==>
              && k == KAt(highs, lows, closes, period, |closes|)
              && d == Mean(KSeries(highs, lows, closes, period, |closes| - smooth + 1, |closes|), 0, smooth)
  {
    hide DequeKs, KSeries, KAt, Mean;
    k, d, ok := StochasticCompact(highs, lows, closes, period, smooth);
    if !ok {
      k, d, ok := StochasticBatch(highs, lows, closes, period, smooth);
    }
    if |closes| >= period + smooth - 1 {
      KSeriesAt(highs, lows, closes, period, |closes| - smooth + 1, |closes|, |closes|);
    }
  }

  // ----- the skewed oscillator: one more %K, and %D of the previous bar too -----

  /** %K and %D of the last of smooth + 1 values of %K and of the one before it. */
  ghost predicate SkdjOf(ks: seq<real>, smooth: nat, k: real, d: real, previousK: real, previousD: real)
    requires 1 <= smooth && |ks| == smooth + 1
  {
    && k == ks[smooth] && previousK == ks[smooth - 1]
    && d == Mean(ks, 1, smooth + 1) && previousD == Mean(ks, 0, smooth)
  }

  method SkdjFromValues(smooth: nat, ks: seq<real>) returns (k: real, d: real, previousK: real, previousD: real)
    requires 1 <= smooth && |ks| == smooth + 1
    ensures SkdjOf(ks, smooth, k, d, previousK, previousD)
  {
    var ok;
    previousD, ok := Sma(ks[..smooth], smooth);
    d, ok := Sma(ks[1..], smooth);
    k, previousK := ks[|ks| - 1], ks[|ks| - 2];
    RangeSumSame(ks[..smooth], ks, 0, smooth);
    RangeSumShift(ks, ks[1..], 1, 0, smooth);
  }

  method SkdjBatch(highs: seq<real>, lows: seq<real>, closes: seq<real>, period: nat, smooth: nat)
    returns (k: real, d: real, previousK: real, previousD: real, ok: bool)
    requires 1 <= period && 1 <= smooth && Covers(highs, lows, closes)
    ensures ok <==> |closes| >= period + smooth
    ensures ok ==> SkdjOf(KSeries(highs, lows, closes, period, |closes| - smooth, |closes|), smooth, k, d, previousK, previousD)
  {
    hide KSeries, SkdjOf;
    if |closes| < period + smooth {
      return 0.0, 0.0, 0.0, 0.0, false;
    }
    var values := KValuesBatch(highs, lows, closes, period, |closes| - smooth);
    k, d, previousK, previousD := SkdjFromValues(smooth, values);
    ok := true;
  }

  method SkdjCompact(highs: seq<real>, lows: seq<real>, closes: seq<real>, period: int, smooth: int)
    returns (k: real, d: real, previousK: real, previousD: real, ok: bool)
    ensures ok <==> CompactAccepts(highs, lows, closes, period, smooth, period + smooth)
    ensures ok ==> SkdjOf(DequeKs(highs, lows, closes, period, |closes| - smooth, |closes|), smooth, k, d, previousK, previousD)
  {
    hide DequeKs, SkdjOf;
    if period <= 0 || smooth <= 0 || |closes| < period + smooth || |highs| != |closes| || |lows| != |closes| || period > CAPACITY {
      return 0.0, 0.0, 0.0, 0.0, false;
    }
    var values;
    values, ok := KValuesCompact(highs, lows, closes, period, |closes| - smooth);
    if !ok {
      assert false;
    }
    k, d, previousK, previousD := SkdjFromValues(smooth, values);
  }

  method Skdj(highs: seq<real>, lows: seq<real>, closes: seq<real>, period: nat, smooth: nat)
    returns (k: real, d: real, previousK: real, previousD: real, ok: bool)
    requires 1 <= period && 1 <= smooth && Covers(highs, lows, closes)
    ensures ok <==> |closes| >= period + smooth
    ensures ok ==> SkdjOf(PublishedKs(highs, lows, closes, period, |closes| - smooth), smooth, k, d, previousK, previousD)
    ensures ok && period != CAPACITY ==>
              SkdjOf(KSeries(highs, lows, closes, period, |closes| - smooth, |closes|), smooth, k, d, previousK, previousD)
  {
    hide DequeKs, KSeries, SkdjOf;
    k, d, previousK, previousD, ok := SkdjCompact(highs, lows, closes, period, smooth);
    if !ok {
      k, d, previousK, previousD, ok := SkdjBatch(highs, lows, closes, period, smooth);
    }
  }

  // ----- the stochastic of a single series (of RSI values): high, low and close coincide -----

  method StochRsiFromSeries(values: seq<real>, stochPeriod: nat, smooth: nat) returns (k: real, d: real, ok: bool)
    requires 1 <= stochPeriod && 1 <= smooth
    ensures ok <==> |values| >= stochPeriod + smooth
    ensures ok ==> var ks := PublishedKs(values, values, values, stochPeriod, |values| - smooth + 1);
                   k == ks[|ks| - 1] && d == Mean(ks, 0, smooth)
    ensures ok && stochPeriod != CAPACITY ==>
              && k == KAt(values, values, values, stochPeriod, |values|)
              && d == Mean(KSeries(values, values, values, stochPeriod, |values| - smooth + 1, |values|), 0, smooth)
  {
    hide PublishedKs, KSeries, KAt, Mean;
    if |values| < stochPeriod + smooth {
      return 0.0, 0.0, false;
    }
    k, d, ok := Stochastic(values, values, values, stochPeriod, smooth);
  }

  // ----- what %K says -----

  /** high and low are the extremes of the bars lo..hi. */
  ghost predicate WindowExtremes(highs: seq<real>, lows: seq<real>, lo: nat, hi: nat, high: real, low: real)
    requires lo < hi <= |highs| && hi <= |lows|
  {
    && (forall i :: lo <= i < hi ==> highs[i] <= high && low <= lows[i])
    && (exists i :: lo <= i < hi && highs[i] == high) && exists i :: lo <= i < hi && lows[i] == low
  }

  lemma {:induction false} WindowExtremesAre(highs: seq<real>, lows: seq<real>, lo: nat, hi: nat, high: real, low: real)
    requires lo < hi <= |highs| && hi <= |lows| && WindowExtremes(highs, lows, lo, hi, high, low)
    ensures high == RangeMax(highs, lo, hi) && low == RangeMin(lows, lo, hi)
  {
  }

  lemma {:induction false} HeightOfClose(high: real, low: real, close: real)
    requires high != low
    ensures PercentK(high, low, close) * (high - low) == 100.0 * (close - low)
  {
    assert (close - low) / (high - low) * (high - low) == close - low;
  }

  lemma {:induction false} HeightsAt(k: real, range: real, height: real)
    requires range != 0.0 && k * range == 100.0 * height
    ensures (height == range ==> k == 100.0) && (height == 0.0 ==> k == 0.0)
  {
    assert k == 100.0 * height / range;
  }

  /** %K is the height of the close over the window's low, in percent of the window's range: 100 at its high, 0 at its low, 50 without a range. */
  lemma {:induction false} KIsHeightInWindow(highs: seq<real>, lows: seq<real>, closes: seq<real>, period: nat, end: nat, high: real, low: real)
    requires Covers(highs, lows, closes) && 1 <= period <= end <= |closes| && WindowExtremes(highs, lows, end - period, end, high, low)
    ensures var k, close := KAt(highs, lows, closes, period, end), closes[end - 1];
            && (high != low ==> k * (high - low) == 100.0 * (close - low))
            && (high != low && close == high ==> k == 100.0) && (high != low && close == low ==> k == 0.0) && (high == low ==> k == 50.0)
  {
    hide RangeMax, RangeMin, WindowExtremes;
    WindowExtremesAre(highs, lows, end - period, end, high, low);
    assert KAt(highs, lows, closes, period, end) == PercentK(high, low, closes[end - 1]);
    if high != low {
      HeightOfClose(high, low, closes[end - 1]);
      HeightsAt(PercentK(high, low, closes[end - 1]), high - low, closes[end - 1] - low);
    }
  }
}
