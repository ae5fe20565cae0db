/**
 * Squeeze momentum: the distance of each close from the middle of its price range
 * and its moving average, fed to a linear regression.  The compact form slides two
 * deques and a running close sum; the batch form rescans every window.
 */
module SqueezeMomentum {
  import opened Numeric
  import opened IndicatorMath
  import opened MonotonicWindow
  import opened Regression

  ghost predicate Enough(highs: seq<real>, lows: seq<real>, closes: seq<real>, period: int, end: int) {
    2 * period <= end <= |closes| && end <= |highs| && end <= |lows|
  }

  function Baseline(highest: real, lowest: real, closeAverage: real): real {
    ((highest + lowest) / 2.0 + closeAverage) / 2.0
  }

  function Middle(highest: real, lowest: real, closeSum: real, period: nat): real
    requires 1 <= period
  {
    Baseline(highest, lowest, closeSum / period as real)
  }

  /** The close just before `end` measured from the baseline of the `period` bars ending there. */
  function Offset(highs: seq<real>, lows: seq<real>, closes: seq<real>, period: nat, end: nat): real
    requires 1 <= period <= end <= |closes| && end <= |highs| && end <= |lows|
  {
    closes[end - 1] - Baseline(RangeMax(highs, end - period, end), RangeMin(lows, end - period, end), Mean(closes, end - period, end))
  }

  /** The offsets for window ends first..last, the input of the regression. */
  function Offsets(highs: seq<real>, lows: seq<real>, closes: seq<real>, period: nat, first: nat, last: nat): (r: seq<real>)
    requires 1 <= period <= first <= last + 1 && last <= |closes| && last <= |highs| && last <= |lows|
    ensures |r| == last + 1 - first
    decreases last
  {
    if first == last + 1 then []
    else Offsets(highs, lows, closes, period, first, last - 1) + [Offset(highs, lows, closes, period, last)]
  }

  /** A close is measured from halfway between its average and the middle of its price range. */
  lemma {:induction false} OffsetFromMiddle(highs: seq<real>, lows: seq<real>, closes: seq<real>, period: nat, end: nat)
    requires 1 <= period <= end <= |closes| && end <= |highs| && end <= |lows|
    ensures 4.0 * (closes[end - 1] - Offset(highs, lows, closes, period, end))
         == RangeMax(highs, end - period, end) + RangeMin(lows, end - period, end) + 2.0 * Mean(closes, end - period, end)
  {
    hide RangeMax, RangeMin, Mean;
  }

  /** The regression is fed one offset for each window end, in order. */
  lemma {:induction false} OffsetsInOrder(highs: seq<real>, lows: seq<real>, closes: seq<real>, period: nat, first: nat, last: nat)
    requires 1 <= period <= first <= last + 1 && last <= |closes| && last <= |highs| && last <= |lows|
    ensures var r := Offsets(highs, lows, closes, period, first, last);
            |r| == last + 1 - first && forall end :: first <= end <= last ==> r[end - first] == Offset(highs, lows, closes, period, end)
    decreases last
  {
    hide Offset;
    if first <= last {
      OffsetsInOrder(highs, lows, closes, period, first, last - 1);
    }
  }

  /** The regression over exactly `period` offsets; a single one has no line. */
  method Regress(source: seq<real>, period: nat) returns (momentum: Option<real>)
    requires |source| == period >= 1
    ensures momentum == Regressed(source, 0)
  {
    hide LineOf;
    var fitted, ok := LinearRegression(source, period, 0);
    assert source[|source| - period..] == source;
    momentum := if ok then Some(fitted) else None;
  }

  method RescanOffset(highs: seq<real>, lows: seq<real>, closes: seq<real>, period: nat, end: nat) returns (offset: real)
    requires 1 <= period <= end <= |closes| && end <= |highs| && end <= |lows|
    ensures offset == Offset(highs, lows, closes, period, end)
  {
    hide RangeMax, RangeMin, RangeSum, Baseline;
    var highest, lowest := HighLowOfSlices(highs, lows, end - period, end);
    var closeAverage := SmaOfPrefix(closes, end, period);
    offset := closes[end - 1] - Baseline(highest, lowest, closeAverage);
  }

  /** What is published: the least-squares line through the offsets, read at the last of them. */
  method MomentumBatch(highs: seq<real>, lows: seq<real>, closes: seq<real>, period: nat, end: int)
    returns (momentum: Option<real>)
    requires 1 <= period
    ensures !Enough(highs, lows, closes, period, end) ==> momentum == None
    ensures Enough(highs, lows, closes, period, end) ==>
              momentum == Regressed(Offsets(highs, lows, closes, period, end - period + 1, end), 0)
  {
    hide Regressed, Offset;
    if end < period * 2 || end > |closes| || |highs| < end || |lows| < end {
      return None;
    }
    var source := [];
    for index := end - period to end
      invariant source == Offsets(highs, lows, closes, period, end - period + 1, index)
    {
      var offset := RescanOffset(highs, lows, closes, period, index + 1);
      source := source + [offset];
    }
    momentum := Regress(source, period);
  }

  // ----- sliding two deques, at every period they admit -----

  /** The offset from what the deques report after bars from..end. */
  ghost function DequeOffset(highs: seq<real>, lows: seq<real>, closes: seq<real>, period: nat, from: nat, end: nat): real
    requires 1 <= period <= CAPACITY && from < end <= |closes| && end <= |highs| && end <= |lows| && period <= end
  {
    closes[end - 1] - Baseline(Reported(highs, true, period, from, end), Reported(lows, false, period, from, end), Mean(closes, end - period, end))
  }

  /** The offsets for window ends first..last; the deques start with the first window. */
  ghost function DequeOffsets(highs: seq<real>, lows: seq<real>, closes: seq<real>, period: nat, first: nat, last: nat): (r: seq<real>)
    requires 1 <= period <= CAPACITY && period <= first <= last + 1 && last <= |closes| && last <= |highs| && last <= |lows|
    ensures |r| == last + 1 - first
    decreases last
  {
    if first == last + 1 then []
    else DequeOffsets(highs, lows, closes, period, first, last - 1) + [DequeOffset(highs, lows, closes, period, first - period, last)]
  }

  lemma {:induction false} DequeOffsetIsExact(highs: seq<real>, lows: seq<real>, closes: seq<real>, period: nat, from: nat, end: nat)
    requires 1 <= period < CAPACITY && from + period <= end <= |closes| && end <= |highs| && end <= |lows|
    ensures DequeOffset(highs, lows, closes, period, from, end) == Offset(highs, lows, closes, period, end)
  {
    hide Run, RangeMax, RangeMin, Baseline, Mean;
    assert WindowStart(period, from, end) == end - period;
  }

  lemma {:induction false} DequeOffsetsSnoc(highs: seq<real>, lows: seq<real>, closes: seq<real>, period: nat, first: nat, last: nat)
    requires 1 <= period <= CAPACITY && period <= first <= last <= |closes| && last <= |highs| && last <= |lows|
    ensures DequeOffsets(highs, lows, closes, period, first, last)
         == DequeOffsets(highs, lows, closes, period, first, last - 1)
            + [closes[last - 1] - Middle(Reported(highs, true, period, first - period, last), Reported(lows, false, period, first - period, last),
                                         RangeSum(closes, WindowStart(period, first - period, last), last), period)]
    ensures DequeOffsets(highs, lows, closes, period, first, first - 1) == []
  {
    hide Run, RangeMax, RangeMin, Baseline, RangeSum, Reported;
  }

  /** Below the capacity of the deques these are the offsets of rescanning every window. */
  lemma {:induction false} DequeOffsetsAreExact(highs: seq<real>, lows: seq<real>, closes: seq<real>, period: nat, first: nat, last: nat)
    requires 1 <= period < CAPACITY && period <= first <= last + 1 && last <= |closes| && last <= |highs| && last <= |lows|
    ensures DequeOffsets(highs, lows, closes, period, first, last) == Offsets(highs, lows, closes, period, first, last)
    decreases last
  {
    hide DequeOffset, Offset;
    if first <= last {
      DequeOffsetsAreExact(highs, lows, closes, period, first, last - 1);
      DequeOffsetIsExact(highs, lows, closes, period, first - period, last);
    }
  }

  /** The closes of the window so far, one bar on. */
  method SlideClose(closes: seq<real>, closeSum: real, period: nat, from: nat, index: nat) returns (slid: real)
    requires 1 <= period && from <= index < |closes| && closeSum == RangeSum(closes, WindowStart(period, from, index), index)
    ensures slid == RangeSum(closes, WindowStart(period, from, index + 1), index + 1)
  {
    hide RangeSum;
    SlideSum(closes, WindowStart(period, from, index), index);
    slid := closeSum + closes[index];
    if index >= from + period {
      slid := slid - closes[index - period];
    }
  }

  method MomentumCompact(highs: seq<real>, lows: seq<real>, closes: seq<real>, period: int, end: int)
    returns (momentum: Option<real>)
    ensures momentum == if Enough(highs, lows, closes, period, end) && 1 <= period <= CAPACITY
                        then Regressed(DequeOffsets(highs, lows, closes, period, end - period + 1, end), 0) else None
  {
    hide RunPair, Run, RangeMax, RangeMin, Reported, DequeOffsets, DequeOffset, Middle, RangeSum, WindowStart, Regressed;
    if end < period * 2 || end > |closes| || |highs| < end || |lows| < end || period <= 0 || period > CAPACITY {
      return None;
    }
    var start := end - period;
    var warmupStart := start - period + 1;
    var source, closeSum := [], 0.0;
    EmptySum(closes, warmupStart);
    DequeOffsetsSnoc(highs, lows, closes, period, start + 1, start + 1);
    var highWindow, lowWindow := NewPair();
    StartPair(highWindow, lowWindow, highs, lows, period, warmupStart);
    for index := warmupStart to end
      invariant fresh(highWindow) && fresh(highWindow.values) && fresh(lowWindow) && fresh(lowWindow.values)
      invariant RunPair(highWindow, lowWindow, highs, lows, period, warmupStart, index)
      invariant closeSum == RangeSum(closes, WindowStart(period, warmupStart, index), index)
      invariant index <= start ==> source == []
      invariant index >= start ==> source == DequeOffsets(highs, lows, closes, period, start + 1, index)
    {
      closeSum := SlideClose(closes, closeSum, period, warmupStart, index);
      if index < start {
        WarmPair(highWindow, lowWindow, highs, lows, period, warmupStart, index, highs[index], lows[index]);
      } else {
        var highest, lowest, read := SlidePair(highWindow, lowWindow, highs, lows, period, warmupStart, index, highs[index], lows[index]);
        if !read {
          assert false;
        }
        DequeOffsetsSnoc(highs, lows, closes, period, start + 1, index + 1);
        source := source + [closes[index] - Middle(highest, lowest, closeSum, period)];
      }
    }
    momentum := Regress(source, period);
  }

  lemma {:induction false} EmptySum(closes: seq<real>, lo: nat)
    requires lo <= |closes|
    ensures RangeSum(closes, lo, lo) == 0.0
  {
  }

  lemma {:induction false} SlideSum(closes: seq<real>, lo: nat, hi: nat)
    requires lo <= hi < |closes|
    ensures RangeSum(closes, lo, hi + 1) == RangeSum(closes, lo, hi) + closes[hi]
    ensures RangeSum(closes, lo, hi + 1) == closes[lo] + RangeSum(closes, lo + 1, hi + 1)
  {
    RangeSumDropFirst(closes, lo, hi + 1);
  }

  /** The published value tries the deques and falls back to rescanning; but for period 256 both are the same regression. */
  method MomentumAt(highs: seq<real>, lows: seq<real>, closes: seq<real>, period: nat, end: int)
    returns (momentum: Option<real>)
    requires 1 <= period
    ensures momentum.Some? <==> period >= 2 && 2 * period <= end <= |closes| && end <= |highs| && end <= |lows|
    ensures Enough(highs, lows, closes, period, end) ==>
              && (period != CAPACITY ==> momentum == Regressed(Offsets(highs, lows, closes, period, end - period + 1, end), 0))
              && (period == CAPACITY ==> momentum == Regressed(DequeOffsets(highs, lows, closes, period, end - period + 1, end), 0))
  {
    hide DequeOffsets, Offsets, Regressed;
    momentum := MomentumCompact(highs, lows, closes, period, end);
    if momentum == None {
      momentum := MomentumBatch(highs, lows, closes, period, end);
    }
    if Enough(highs, lows, closes, period, end) {
      if period < CAPACITY {
        DequeOffsetsAreExact(highs, lows, closes, period, end - period + 1, end);
      } else if period == CAPACITY {
        HasLine(DequeOffsets(highs, lows, closes, period, end - period + 1, end), 0);
      }
      HasLine(Offsets(highs, lows, closes, period, end - period + 1, end), 0);
    }
  }
}
