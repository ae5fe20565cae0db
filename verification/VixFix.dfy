/**
 * The Williams Vix Fix: how far each low lies under the highest close of the last
 * `period` bars, with bands over the last `bbLength` values and a range over the
 * last `lookback`.  Three implementations: a full series, a deque with a ring for
 * the tail, and a stream of two shifting arrays.
 */
module VixFix {
  import opened Numeric
  import opened IndicatorMath
  import opened MonotonicWindow
  import opened TailBuffer

  datatype VixResult = VixResult(value: real, mid: real, upperBand: real, lowerBand: real, rangeHigh: real, rangeLow: real)

  function FixValue(highestClose: real, low: real): real {
    if highestClose == 0.0 then 0.0 else (highestClose - low) / highestClose * 100.0
  }

  /** The value of the bar just before `end`. */
  function FixAt(lows: seq<real>, closes: seq<real>, period: nat, end: nat): real
    requires 1 <= period <= end <= |closes| && |lows| == |closes|
  {
    FixValue(RangeMax(closes, end - period, end), lows[end - 1])
  }

  /** The values of window ends period..last. */
  function FixSeries(lows: seq<real>, closes: seq<real>, period: nat, last: nat): (r: seq<real>)
    requires 1 <= period <= last + 1 && last <= |closes| && |lows| == |closes|
    ensures |r| == last + 1 - period
    decreases last
  {
    if last < period then [] else FixSeries(lows, closes, period, last - 1) + [FixAt(lows, closes, period, last)]
  }

  function Banded(last: real, mid: real, deviation: real, bbMultiplier: real, highest: real, lowest: real, percentileHigh: real): VixResult {
    VixResult(last, mid, mid + bbMultiplier * deviation, mid - bbMultiplier * deviation, highest * percentileHigh, lowest * 1.01)
  }

  /** Bands and range of a series, written over its last bbLength and lookback values; no bands at all collapse to zero. */
  function Summary(series: seq<real>, bbLength: int, bbMultiplier: real, lookback: nat, percentileHigh: real, sqrt: real -> real): VixResult
    requires bbLength <= |series| && 1 <= lookback <= |series|
  {
    var n := |series|;
    var mid := if bbLength <= 0 then 0.0 else Mean(series, n - bbLength, n);
    var deviation := if bbLength <= 0 then 0.0 else sqrt(Variance(series, n - bbLength, n));
    Banded(series[n - 1], mid, deviation, bbMultiplier, RangeMax(series, n - lookback, n), RangeMin(series, n - lookback, n), percentileHigh)
  }

  /** The fix is the fall of the low below the highest close of the window, in percent of that close. */
  lemma {:induction false} FixIsFallFromHighest(lows: seq<real>, closes: seq<real>, period: nat, last: nat, end: nat)
    requires 1 <= period <= end <= last <= |closes| == |lows|
    ensures |FixSeries(lows, closes, period, last)| == last + 1 - period
    ensures var fix, highest := FixSeries(lows, closes, period, last)[end - period], RangeMax(closes, end - period, end);
            if highest == 0.0 then fix == 0.0 else fix * highest == 100.0 * (highest - lows[end - 1])
    decreases last
  {
    hide RangeMax, FixValue;
    if end < last {
      FixIsFallFromHighest(lows, closes, period, last - 1, end);
    } else {
      FixValueSays(RangeMax(closes, end - period, end), lows[end - 1]);
    }
  }

  lemma {:induction false} FixValueSays(highest: real, low: real)
    ensures var fix := FixValue(highest, low); if highest == 0.0 then fix == 0.0 else fix * highest == 100.0 * (highest - low)
  {
    if highest != 0.0 {
      assert (highest - low) / highest * highest == highest - low;
    }
  }

  /**
   * The summary in its own terms: the last value; a mean with bands as far above as below it,
   * the multiple of the deviation; and the range of the last `lookback` values, its top cut to
   * the percentile and its bottom raised by one percent.
   */
  lemma {:induction false} SummarySays(series: seq<real>, bbLength: int, bbMultiplier: real, lookback: nat, percentileHigh: real, sqrt: real -> real)
    requires 1 <= bbLength <= |series| && 1 <= lookback <= |series|
    ensures var n, r := |series|, Summary(series, bbLength, bbMultiplier, lookback, percentileHigh, sqrt);
            && r.value == series[n - 1] && r.mid == Mean(series, n - bbLength, n)
            && r.upperBand - r.mid == r.mid - r.lowerBand == bbMultiplier * sqrt(Variance(series, n - bbLength, n))
            && r.rangeHigh == percentileHigh * RangeMax(series, n - lookback, n) && 100.0 * r.rangeLow == 101.0 * RangeMin(series, n - lookback, n)
  {
    hide Mean, Variance, RangeMax, RangeMin;
  }

  /** A band length of zero or less collapses the bands to zero. */
  lemma {:induction false} NoLengthNoBands(series: seq<real>, bbLength: int, bbMultiplier: real, lookback: nat, percentileHigh: real, sqrt: real -> real)
    requires bbLength <= 0 && 1 <= lookback <= |series|
    ensures var r := Summary(series, bbLength, bbMultiplier, lookback, percentileHigh, sqrt); r.mid == r.upperBand == r.lowerBand == 0.0
  {
    hide RangeMax, RangeMin;
  }

  // ----- the full series -----

  method WilliamsVixFixSeries(lows: seq<real>, closes: seq<real>, period: int) returns (series: seq<real>, ok: bool)
    ensures ok <==> 0 < period <= |closes| && |lows| == |closes|
    ensures ok ==> series == FixSeries(lows, closes, period, |closes|)
    ensures !ok ==> series == []
  {
    if period <= 0 || |closes| < period || |lows| != |closes| {
      return [], false;
    }
    hide RangeMax, FixValue;
    series := [];
    for end := period to |closes| + 1
      invariant series == FixSeries(lows, closes, period, end - 1)
    {
      var highestClose := HighestOfSlice(closes, end - period, end);
      series := series + [FixValue(highestClose, lows[end - 1])];
    }
    ok := true;
  }

  ghost predicate Accepts(lows: seq<real>, closes: seq<real>, period: int, bbLength: int, lookback: int) {
    0 < period <= |closes| && |lows| == |closes| && |closes| + 1 - period >= bbLength && |closes| + 1 - period >= lookback
  }

  method WilliamsVixFix(lows: seq<real>, closes: seq<real>, period: int, bbLength: int, bbMultiplier: real, lookback: nat,
                        percentileHigh: real, sqrt: real -> real) returns (result: Option<VixResult>)
    requires 1 <= lookback
    ensures result.Some? <==> 1 <= period <= |closes| == |lows| && |closes| + 1 >= period + bbLength && |closes| + 1 >= period + lookback
    ensures result == if Accepts(lows, closes, period, bbLength, lookback)
                      then Some(Summary(FixSeries(lows, closes, period, |closes|), bbLength, bbMultiplier, lookback, percentileHigh, sqrt))
                      else None
  {
    hide RangeMax, RangeMin, Mean, Variance, Banded, FixSeries;
    var series, ok := WilliamsVixFixSeries(lows, closes, period);
    if !ok || |series| < bbLength || |series| < lookback {
      return None;
    }
    var n := |series|;
    var mid, _ := Sma(series, bbLength);
    var deviation, _ := StandardDeviation(series, bbLength, sqrt);
    var rangeHigh := HighestOfSlice(series, n - lookback, n);
    var rangeLow := LowestOfSlice(series, n - lookback, n);
    var summary := Banded(series[n - 1], mid, deviation, bbMultiplier, rangeHigh, rangeLow, percentileHigh);
    assert summary == Summary(series, bbLength, bbMultiplier, lookback, percentileHigh, sqrt);
    result := Some(summary);
  }

  // ----- reading the tail of a ring -----

  /** The slot of value `index` holds it while it is among the newest. */
  method ReadRing(ring: array<real>, index: nat, ghost series: seq<real>) returns (value: real)
    requires 1 <= ring.Length && |series| - ring.Length <= index < |series| && RingHolds(ring[..], series)
    ensures value == series[index]
  {
    hide RingHolds;
    RingHoldsAt(ring[..], series, index);
    value := ring[index % ring.Length];
  }

  method RingTailSum(ring: array<real>, count: nat, length: nat, ghost series: seq<real>) returns (sum: real)
    requires 1 <= ring.Length && length <= ring.Length && length <= count == |series| && RingHolds(ring[..], series)
    ensures sum == RangeSum(series, count - length, count)
  {
    hide RingHolds;
    sum := 0.0;
    for index := count - length to count
      invariant sum == RangeSum(series, count - length, index)
    {
      var value := ReadRing(ring, index, series);
      sum := sum + value;
    }
  }

  method RingTailMean(ring: array<real>, count: nat, length: nat, ghost series: seq<real>) returns (mean: real)
    requires 1 <= length <= ring.Length && length <= count == |series| && RingHolds(ring[..], series)
    ensures mean == Mean(series, count - length, count)
  {
    var sum := RingTailSum(ring, count, length, series);
    mean := sum / length as real;
  }

  method RingTailStandardDeviation(ring: array<real>, count: nat, length: nat, mean: real, sqrt: real -> real, ghost series: seq<real>)
    returns (deviation: real)
    requires 1 <= length <= ring.Length && length <= count == |series| && RingHolds(ring[..], series)
    requires mean == Mean(series, count - length, count)
    ensures deviation == sqrt(Variance(series, count - length, count))
  {
    hide RingHolds;
    var variance := 0.0;
    for index := count - length to count
      invariant variance == RangeDevSq(series, count - length, index, mean)
    {
      var value := ReadRing(ring, index, series);
      var diff := value - mean;
      variance := variance + Sq(diff);
    }
    deviation := sqrt(variance / length as real);
  }

  lemma {:induction false} OneHighLow(series: seq<real>, start: nat)
    requires start < |series|
    ensures RangeMax(series, start, start + 1) == series[start] == RangeMin(series, start, start + 1)
  {
  }

  lemma {:induction false} HighLowSnoc(series: seq<real>, start: nat, n: nat)
    requires start < n < |series|
    ensures RangeMax(series, start, n + 1) == Max(RangeMax(series, start, n), series[n])
    ensures RangeMin(series, start, n + 1) == Min(RangeMin(series, start, n), series[n])
  {
  }

  method RingTailHighLow(ring: array<real>, count: nat, length: nat, ghost series: seq<real>) returns (high: real, low: real)
    requires 1 <= length <= ring.Length && length <= count == |series| && RingHolds(ring[..], series)
    ensures high == RangeMax(series, count - length, count) && low == RangeMin(series, count - length, count)
  {
    hide RingHolds, RangeMax, RangeMin;
    var start := count - length;
    OneHighLow(series, start);
    high := ReadRing(ring, start, series);
    low := high;
    for index := start + 1 to count
      invariant high == RangeMax(series, start, index) && low == RangeMin(series, start, index)
    {
      HighLowSnoc(series, start, index);
      var value := ReadRing(ring, index, series);
      if value > high {
        high := value;
      }
      if value < low {
        low := value;
      }
    }
  }

  // ----- the deque form, at every period it admits -----

  /** The values of window ends period..last from what the deque reports. */
  ghost function DequeSeries(lows: seq<real>, closes: seq<real>, period: nat, last: nat): (r: seq<real>)
    requires 1 <= period <= CAPACITY && period <= last + 1 && last <= |closes| && |lows| == |closes|
    ensures |r| == last + 1 - period
    decreases last
  {
    if last < period then []
    else DequeSeries(lows, closes, period, last - 1) + [FixValue(Reported(closes, true, period, 0, last), lows[last - 1])]
  }

  lemma {:induction false} DequeSeriesIsExact(lows: seq<real>, closes: seq<real>, period: nat, last: nat)
    requires 1 <= period < CAPACITY && period <= last + 1 && last <= |closes| && |lows| == |closes|
    ensures DequeSeries(lows, closes, period, last) == FixSeries(lows, closes, period, last)
    decreases last
  {
    hide RangeMax, FixValue, Run;
    if last >= period {
      DequeSeriesIsExact(lows, closes, period, last - 1);
    }
  }

  /** What each form answers. */
  ghost function BatchOf(lows: seq<real>, closes: seq<real>, period: int, bbLength: int, bbMultiplier: real, lookback: nat,
                         percentileHigh: real, sqrt: real -> real): Option<VixResult>
    requires 1 <= lookback
  {
    if Accepts(lows, closes, period, bbLength, lookback)
    then Some(Summary(FixSeries(lows, closes, period, |closes|), bbLength, bbMultiplier, lookback, percentileHigh, sqrt))
    else None
  }

  ghost function CompactOf(lows: seq<real>, closes: seq<real>, period: int, bbLength: int, bbMultiplier: real, lookback: int,
                           percentileHigh: real, sqrt: real -> real): Option<VixResult>
  {
    if bbLength <= 0 || lookback <= 0 || period > CAPACITY || !Accepts(lows, closes, period, bbLength, lookback) then None
    else Some(Summary(DequeSeries(lows, closes, period, |closes|), bbLength, bbMultiplier, lookback, percentileHigh, sqrt))
  }

  /** On every usable input, the deque form answers as the batch form. */
  ghost predicate FormsAgree(period: nat, sqrt: real -> real) {
    forall lows, closes, bbLength, bbMultiplier, lookback, percentileHigh :: 1 <= bbLength && 1 <= lookback ==>
      CompactOf(lows, closes, period, bbLength, bbMultiplier, lookback, percentileHigh, sqrt)
      == BatchOf(lows, closes, period, bbLength, bbMultiplier, lookback, percentileHigh, sqrt)
  }

  /** Among the periods the deque admits, the two forms agree on every input exactly below its capacity. */
  lemma {:induction false} FormsAgreeExactlyBelowCapacity(period: nat, sqrt: real -> real)
    requires 1 <= period <= 256
    ensures FormsAgree(period, sqrt) <==> period < 256
  {
    hide Summary, DequeSeries, FixSeries;
    if period < CAPACITY {
      forall lows, closes, bbLength, bbMultiplier, lookback, percentileHigh | 1 <= bbLength && 1 <= lookback
        ensures CompactOf(lows, closes, period, bbLength, bbMultiplier, lookback, percentileHigh, sqrt)
             == BatchOf(lows, closes, period, bbLength, bbMultiplier, lookback, percentileHigh, sqrt)
      {
        if Accepts(lows, closes, period, bbLength, lookback) {
          DequeSeriesIsExact(lows, closes, period, |closes|);
        }
      }
    } else {
      var closes, lows := Falling(2 * CAPACITY), seq(2 * CAPACITY, _ => 1.0);
      LastValuesDiffer(lows, closes);
      SummaryLast(DequeSeries(lows, closes, CAPACITY, 2 * CAPACITY), sqrt);
      SummaryLast(FixSeries(lows, closes, CAPACITY, 2 * CAPACITY), sqrt);
      assert CompactOf(lows, closes, period, 1, 0.0, 1, 0.0, sqrt) != BatchOf(lows, closes, period, 1, 0.0, 1, 0.0, sqrt);
    }
  }

  lemma {:induction false} SummaryLast(series: seq<real>, sqrt: real -> real)
    requires series != []
    ensures Summary(series, 1, 0.0, 1, 0.0, sqrt).value == series[|series| - 1]
  {
  }

  lemma {:induction false} LastValuesDiffer(lows: seq<real>, closes: seq<real>)
    requires closes == Falling(2 * CAPACITY) && lows == seq(2 * CAPACITY, _ => 1.0)
    ensures var deque, fix := DequeSeries(lows, closes, CAPACITY, 2 * CAPACITY), FixSeries(lows, closes, CAPACITY, 2 * CAPACITY);
            deque[|deque| - 1] != fix[|fix| - 1]
  {
    hide Run, RangeMax;
    var n := 2 * CAPACITY;
    FallingMisreports();
    assert FixAt(lows, closes, CAPACITY, n) == FixValue(closes[CAPACITY], 1.0);
    assert FixSeries(lows, closes, CAPACITY, n) == FixSeries(lows, closes, CAPACITY, n - 1) + [FixAt(lows, closes, CAPACITY, n)];
    assert DequeSeries(lows, closes, CAPACITY, n) == DequeSeries(lows, closes, CAPACITY, n - 1) + [FixValue(closes[CAPACITY + 1], 1.0)];
  }

  /** Slide the close deque over every bar and keep the newest of the written values in a ring. */
  method FillRing(lows: seq<real>, closes: seq<real>, period: nat, ring: array<real>)
        returns (seriesCount: nat, ghost written: seq<real>)
    requires 1 <= period <= CAPACITY && period <= |closes| && |lows| == |closes| && 1 <= ring.Length
    modifies ring
    ensures seriesCount == |written| && RingHolds(ring[..], written)
    ensures written == DequeSeries(lows, closes, period, |closes|)
  {
    hide Reported, FixValue, RingHolds, DequeSeries, Run, Pushed, Expired;
    seriesCount, written := 0, [];
    var closeHighs := new FloatMonotonicWindow(true);
    NoFixYet(lows, closes, period, ring[..]);
    for index := 0 to |closes|
      invariant fresh(closeHighs) && fresh(closeHighs.values) && closeHighs.decreasing
      invariant closeHighs.Valid() && closeHighs.Entries() == Run(closes, true, period, 0, index)
      invariant seriesCount == |written| == if index < period then 0 else index + 1 - period
      invariant RingHolds(ring[..], written)
      invariant index < period ==> written == []
      invariant index + 1 >= period ==> written == DequeSeries(lows, closes, period, index)
    {
      SlideHigh(closeHighs, closes, period, index);
      if index + 1 >= period {
        DequeSeriesSnoc(lows, closes, period, index + 1);
        var highestClose, read := closeHighs.Value();
        if !read {
          assert false;
        }
        var value := FixValue(highestClose, lows[index]);
        WriteRing(ring, seriesCount, value, written);
        seriesCount, written := seriesCount + 1, written + [value];
      }
    }
  }

  /** One more close, pushed and expired. */
  method SlideHigh(closeHighs: FloatMonotonicWindow, closes: seq<real>, period: nat, index: nat)
    requires 1 <= period <= CAPACITY && index < |closes|
    requires closeHighs.Valid() && closeHighs.decreasing && closeHighs.Entries() == Run(closes, true, period, 0, index)
    modifies closeHighs, closeHighs.values
    ensures closeHighs.Valid() && closeHighs.Entries() == Run(closes, true, period, 0, index + 1) != []
    ensures closeHighs.Entries()[0].value == Reported(closes, true, period, 0, index + 1)
  {
    hide Run, Pushed, Expired, Reported;
    StepReport(closes, period, index + 1);
    closeHighs.Push(index, closes[index]);
    closeHighs.ExpireBefore(index - period + 1);
  }

  lemma {:induction false} StepReport(closes: seq<real>, period: nat, n: nat)
    requires 1 <= period <= CAPACITY && 1 <= n <= |closes|
    ensures Run(closes, true, period, 0, n) == Expired(Pushed(Run(closes, true, period, 0, n - 1), true, n - 1, closes[n - 1]), n - period)
    ensures Run(closes, true, period, 0, n) != [] && Run(closes, true, period, 0, n)[0].value == Reported(closes, true, period, 0, n)
  {
    hide Pushed, Expired, Frontier;
    RunNotEmpty(closes, true, period, 0, n);
  }

  lemma {:induction false} DequeSeriesSnoc(lows: seq<real>, closes: seq<real>, period: nat, last: nat)
    requires 1 <= period <= CAPACITY && period <= last <= |closes| && |lows| == |closes|
    ensures DequeSeries(lows, closes, period, last)
         == DequeSeries(lows, closes, period, last - 1) + [FixValue(Reported(closes, true, period, 0, last), lows[last - 1])]
    ensures DequeSeries(lows, closes, period, period - 1) == []
  {
    hide Reported, FixValue;
  }

  method WriteRing(ring: array<real>, count: nat, value: real, ghost written: seq<real>)
    requires 1 <= ring.Length && count == |written| && RingHolds(ring[..], written)
    modifies ring
    ensures RingHolds(ring[..], written + [value])
  {
    hide RingHolds;
    RingSnoc(ring[..], written, value);
    ghost var after := ring[..][count % ring.Length := value];
    ring[count % ring.Length] := value;
    assert ring[..] == after;
  }

  lemma {:induction false} NoFixYet(lows: seq<real>, closes: seq<real>, period: nat, ring: seq<real>)
    requires 1 <= period <= CAPACITY && period <= |closes| && |lows| == |closes| && 1 <= |ring|
    ensures RingHolds(ring, []) && Run(closes, true, period, 0, 0) == [] && DequeSeries(lows, closes, period, period - 1) == []
  {
  }

  lemma {:induction false} NoFixSeries(lows: seq<real>, closes: seq<real>, period: nat)
    requires 1 <= period <= |closes| && |lows| == |closes|
    ensures FixSeries(lows, closes, period, period - 1) == []
  {
  }

  lemma {:induction false} FixSeriesSnoc(lows: seq<real>, closes: seq<real>, period: nat, last: nat)
    requires 1 <= period <= last <= |closes| && |lows| == |closes|
    ensures FixSeries(lows, closes, period, last)
         == FixSeries(lows, closes, period, last - 1) + [FixValue(RangeMax(closes, last - period, last), lows[last - 1])]
  {
  }

  method SummariseRing(ring: array<real>, count: nat, bbLength: nat, bbMultiplier: real, lookback: nat,
                       percentileHigh: real, sqrt: real -> real, ghost written: seq<real>) returns (result: VixResult)
    requires 1 <= bbLength <= ring.Length && 1 <= lookback <= ring.Length
    requires bbLength <= count == |written| && lookback <= count && RingHolds(ring[..], written)
    ensures result == Summary(written, bbLength, bbMultiplier, lookback, percentileHigh, sqrt)
  {
    hide RangeMax, RangeMin, Mean, Variance, Banded;
    var last := ring[(count - 1) % ring.Length];
    RingHoldsAt(ring[..], written, count - 1);
    var mid := RingTailMean(ring, count, bbLength, written);
    var deviation := RingTailStandardDeviation(ring, count, bbLength, mid, sqrt, written);
    var rangeHigh, rangeLow := RingTailHighLow(ring, count, lookback, written);
    result := Banded(last, mid, deviation, bbMultiplier, rangeHigh, rangeLow, percentileHigh);
  }

  method WilliamsVixFixCompact(lows: seq<real>, closes: seq<real>, period: int, bbLength: int, bbMultiplier: real, lookback: int,
                               percentileHigh: real, sqrt: real -> real) returns (result: Option<VixResult>)
    ensures result.Some? <==> bbLength >= 1 && lookback >= 1 && 1 <= period <= 256 && |lows| == |closes|
                              && |closes| + 1 >= period + bbLength && |closes| + 1 >= period + lookback
    ensures result == CompactOf(lows, closes, period, bbLength, bbMultiplier, lookback, percentileHigh, sqrt)
    ensures 1 <= bbLength && 1 <= lookback && period < CAPACITY ==>
              result == BatchOf(lows, closes, period, bbLength, bbMultiplier, lookback, percentileHigh, sqrt)
  {
    hide RingHolds, FixSeries, DequeSeries, Summary;
    if period <= 0 || bbLength <= 0 || lookback <= 0 || |closes| < period || |lows| != |closes| {
      return None;
    }
    var keep := lookback;
    if bbLength > keep {
      keep := bbLength;
    }
    if period > CAPACITY {
      return None;
    }
    var recent := new real[keep](_ => 0.0);
    var seriesCount, written := FillRing(lows, closes, period, recent);
    if period < CAPACITY {
      DequeSeriesIsExact(lows, closes, period, |closes|);
    }
    if seriesCount < bbLength || seriesCount < lookback {
      return None;
    }
    var summary := SummariseRing(recent, seriesCount, bbLength, bbMultiplier, lookback, percentileHigh, sqrt, written);
    result := Some(summary);
  }

  // ----- the stream: 22 closes and 50 values, shifted in place -----

  const STREAM_PERIOD: nat := 22
  const STREAM_VALUES: nat := 50
  const STREAM_BANDS: nat := 20

  class StreamVixFix {
    const closes: array<real>
    var closeCount: nat
    const values: array<real>
    var valueCount: nat
    ghost var seenLows: seq<real>
    ghost var seenCloses: seq<real>

    ghost function Series(): seq<real>
      requires |seenLows| == |seenCloses|
      reads this
    {
      if |seenCloses| < STREAM_PERIOD then [] else FixSeries(seenLows, seenCloses, STREAM_PERIOD, |seenCloses|)
    }

    ghost predicate Valid()
      reads this, closes, values
    {
      && closes.Length == STREAM_PERIOD && values.Length == STREAM_VALUES && closes != values
      && |seenLows| == |seenCloses|
      && closeCount <= closes.Length && closes[..closeCount] == Tail(seenCloses, STREAM_PERIOD)
      && valueCount <= values.Length && values[..valueCount] == Tail(Series(), STREAM_VALUES)
    }

    constructor ()
      ensures Valid() && seenLows == [] && seenCloses == [] && fresh(closes) && fresh(values)
    {
      closes := new real[STREAM_PERIOD](_ => 0.0);
      values := new real[STREAM_VALUES](_ => 0.0);
      closeCount, valueCount := 0, 0;
      seenLows, seenCloses := [], [];
    }

    method Append(low: real, close: real)
      requires Valid()
      modifies this, closes, values
      ensures Valid() && seenLows == old(seenLows) + [low] && seenCloses == old(seenCloses) + [close]
    {
      hide Tail, RangeMax, FixValue, FixSeries;
      ghost var lowsNow, closesNow := seenLows + [low], seenCloses + [close];
      TailSnoc(seenCloses, STREAM_PERIOD, close);
      closeCount := ShiftIn(closes, closeCount, close);
      if closeCount < closes.Length {
        seenLows, seenCloses := lowsNow, closesNow;
        return;
      }
      StreamStep(seenLows, seenCloses, low, close);
      var highestClose := HighestValue(closes[..]);
      var value := FixValue(highestClose, low);
      assert closes[..closeCount] == closes[..];
      TailSnoc(Series(), STREAM_VALUES, value);
      valueCount := ShiftIn(values, valueCount, value);
      seenLows, seenCloses := lowsNow, closesNow;
    }

    method Value(sqrt: real -> real) returns (result: Option<VixResult>)
      requires Valid()
      ensures result == if |seenCloses| < 71 then None
                        else Some(Summary(FixSeries(seenLows, seenCloses, 22, |seenCloses|), 20, 2.0, 50, 0.85, sqrt))
    {
      hide FixSeries, Summary;
      if valueCount < values.Length {
        return None;
      }
      var recent := values[..];
      assert recent == values[..valueCount];
      var summary := SummariseAll(recent, sqrt);
      TailSummary(Series(), sqrt);
      result := Some(summary);
    }
  }

  /** Bands over the last 20 and range over all of the 50 held values. */
  method SummariseAll(recent: seq<real>, sqrt: real -> real) returns (result: VixResult)
    requires |recent| == STREAM_VALUES
    ensures result == Summary(recent, STREAM_BANDS, 2.0, STREAM_VALUES, 0.85, sqrt)
  {
    hide RangeMax, RangeMin, Mean, Variance, Banded;
    var mid, _ := Sma(recent, STREAM_BANDS);
    var deviation, _ := StandardDeviation(recent, STREAM_BANDS, sqrt);
    var rangeHigh := HighestValue(recent);
    var rangeLow := LowestValue(recent);
    result := Banded(recent[STREAM_VALUES - 1], mid, deviation, 2.0, rangeHigh, rangeLow, 0.85);
    assert result == Summary(recent, STREAM_BANDS, 2.0, STREAM_VALUES, 0.85, sqrt);
  }

  /** The last 50 values carry everything the summary of the whole series looks at. */
  lemma {:induction false} TailSummary(series: seq<real>, sqrt: real -> real)
    requires |series| >= STREAM_VALUES
    ensures Summary(Tail(series, STREAM_VALUES), STREAM_BANDS, 2.0, STREAM_VALUES, 0.85, sqrt)
         == Summary(series, STREAM_BANDS, 2.0, STREAM_VALUES, 0.85, sqrt)
  {
    hide RangeMax, RangeMin, Mean, Variance, Banded, Tail;
    TailIs(series, STREAM_VALUES);
    SliceExtremes(series, |series| - STREAM_VALUES, |series|);
    TailMoments(series, Tail(series, STREAM_VALUES));
  }

  lemma {:induction false} TailMoments(series: seq<real>, recent: seq<real>)
    requires |series| >= STREAM_VALUES && recent == series[|series| - STREAM_VALUES..|series|]
    ensures Mean(recent, STREAM_VALUES - STREAM_BANDS, STREAM_VALUES) == Mean(series, |series| - STREAM_BANDS, |series|)
    ensures Variance(recent, STREAM_VALUES - STREAM_BANDS, STREAM_VALUES) == Variance(series, |series| - STREAM_BANDS, |series|)
  {
    hide RangeSum, RangeDevSq;
    var shift := |series| - STREAM_VALUES;
    RangeSumShift(series, recent, shift, STREAM_VALUES - STREAM_BANDS, STREAM_VALUES);
    RangeDevSqShift(series, recent, shift, STREAM_VALUES - STREAM_BANDS, STREAM_VALUES, Mean(series, |series| - STREAM_BANDS, |series|));
  }

  lemma {:induction false} TailIs(series: seq<real>, n: nat)
    requires |series| >= n
    ensures Tail(series, n) == series[|series| - n..|series|]
  {
  }

  lemma {:induction false} FixSeriesPrefix(lows: seq<real>, closes: seq<real>, lows': seq<real>, closes': seq<real>, period: nat, last: nat)
    requires 1 <= period <= last && last <= |closes| == |lows| && |closes'| == |lows'|
    requires lows <= lows' && closes <= closes'
    ensures FixSeries(lows, closes, period, last) == FixSeries(lows', closes', period, last)
    decreases last
  {
    hide FixValue, RangeMax, FixSeries;
    if last == period {
      NoFixSeries(lows, closes, period);
      NoFixSeries(lows', closes', period);
    } else {
      FixSeriesPrefix(lows, closes, lows', closes', period, last - 1);
    }
    RangeMaxSame(closes, closes', last - period, last);
    FixSeriesSnoc(lows, closes, period, last);
    FixSeriesSnoc(lows', closes', period, last);
  }

  lemma {:induction false} StreamStep(lows: seq<real>, closes: seq<real>, low: real, close: real)
    requires |lows| == |closes| && |closes| + 1 >= STREAM_PERIOD
    ensures var recent, n := Tail(closes + [close], STREAM_PERIOD), |closes| + 1;
            && |recent| == STREAM_PERIOD
            && FixSeries(lows + [low], closes + [close], STREAM_PERIOD, n)
                 == (if n - 1 < STREAM_PERIOD then [] else FixSeries(lows, closes, STREAM_PERIOD, n - 1))
                    + [FixValue(RangeMax(recent, 0, STREAM_PERIOD), low)]
  {
    hide RangeMax, RangeMin, FixValue, FixSeries, Tail;
    var lows', closes', n := lows + [low], closes + [close], |closes| + 1;
    TailIs(closes', STREAM_PERIOD);
    SliceExtremes(closes', n - STREAM_PERIOD, n);
    FixSeriesSnoc(lows', closes', STREAM_PERIOD, n);
    if n == STREAM_PERIOD {
      NoFixSeries(lows', closes', STREAM_PERIOD);
    } else {
      FixSeriesPrefix(lows, closes, lows', closes', STREAM_PERIOD, n - 1);
    }
  }
}
