/**
 * Supertrend lines: the scalar form, the point series and its two-point summary over true
 * ranges (Wilder or simple-mean ATR), and the series over a ready-made ATR slice, all
 * computing one band recursion; and what the line guarantees inside a run.
 */
module Supertrend {
  import opened Numeric

  /** The three price slices the functions take side by side. */
  datatype Prices = Prices(highs: seq<real>, lows: seq<real>, closes: seq<real>) {
    predicate Aligned() {
      |highs| == |closes| && |lows| == |closes|
    }
  }

  function TrueRange(high: real, low: real, previousClose: real): (r: real)
    ensures high - low <= r && r >= 0.0
  {
    Max(Max(high - low, Abs(high - previousClose)), Abs(low - previousClose))
  }

  function TrueRangeAt(p: Prices, i: nat): real
    requires p.Aligned() && i < |p.closes|
  {
    if i == 0 then p.highs[0] - p.lows[0] else TrueRange(p.highs[i], p.lows[i], p.closes[i - 1])
  }

  function TrueRanges(p: Prices, n: nat): (r: seq<real>)
    requires p.Aligned() && n <= |p.closes|
    ensures |r| == n && forall i :: 0 <= i < n ==> r[i] == TrueRangeAt(p, i)
    decreases n
  {
    if n == 0 then [] else TrueRanges(p, n - 1) + [TrueRangeAt(p, n - 1)]
  }

  /** Where the band width comes from: Wilder's average, the plain average, or given values. */
  datatype Atr = Wilder(ranges: seq<real>, period: nat) | Simple(ranges: seq<real>, period: nat) | Given(values: seq<real>)

  ghost predicate Covers(a: Atr, start: nat, n: nat) {
    match a
    case Given(values) => n <= |values|
    case _ => 0 < a.period <= start && n <= |a.ranges|
  }

  function Smoothed(previous: real, next: real, period: nat): real
    requires period > 0
  {
    (previous * (period - 1) as real + next) / period as real
  }

  function WilderAt(ranges: seq<real>, period: nat, i: nat): real
    requires 0 < period <= i < |ranges|
    decreases i
  {
    if i == period then RangeSum(ranges, 1, period + 1) / period as real
    else Smoothed(WilderAt(ranges, period, i - 1), ranges[i], period)
  }

  function AtrAt(a: Atr, i: nat): real
    requires match a case Given(values) => i < |values| case _ => 0 < a.period <= i < |a.ranges|
  {
    match a
    case Given(values) => values[i]
    case Wilder(ranges, period) => WilderAt(ranges, period, i)
    case Simple(ranges, period) => RangeSum(ranges, i + 1 - period, i + 1) / period as real
  }

  // ----- the band recursion -----

  datatype Bands = Bands(upper: real, lower: real, up: bool)

  datatype Point = Point(value: real, up: bool)

  function PointOf(b: Bands): Point {
    Point(if b.up then b.lower else b.upper, b.up)
  }

  function Opening(high: real, low: real, close: real, width: real): Bands {
    var mid := (high + low) / 2.0;
    Bands(mid + width, mid - width, close >= mid)
  }

  function Following(b: Bands, high: real, low: real, close: real, previousClose: real, width: real): Bands {
    var mid := (high + low) / 2.0;
    var upper := if mid + width < b.upper || previousClose > b.upper then mid + width else b.upper;
    var lower := if mid - width > b.lower || previousClose < b.lower then mid - width else b.lower;
    Bands(upper, lower, if !b.up && close > upper then true else if b.up && close < lower then false else b.up)
  }

  function Width(multiplier: real, atr: real): real {
    multiplier * atr
  }

  function BandsAt(p: Prices, a: Atr, multiplier: real, start: nat, i: nat): Bands
    requires p.Aligned() && start <= i < |p.closes| && Covers(a, start, |p.closes|)
    decreases i
  {
    var width := Width(multiplier, AtrAt(a, i));
    if i == start then Opening(p.highs[i], p.lows[i], p.closes[i], width)
    else Following(BandsAt(p, a, multiplier, start, i - 1), p.highs[i], p.lows[i], p.closes[i], p.closes[i - 1], width)
  }

  /** The points of bars start..n. */
  function Points(p: Prices, a: Atr, multiplier: real, start: nat, n: nat): (r: seq<Point>)
    requires p.Aligned() && start <= n <= |p.closes| && Covers(a, start, |p.closes|)
    ensures |r| == n - start && forall i :: start <= i < n ==> r[i - start] == PointOf(BandsAt(p, a, multiplier, start, i))
    decreases n
  {
    if n == start then [] else Points(p, a, multiplier, start, n - 1) + [PointOf(BandsAt(p, a, multiplier, start, n - 1))]
  }

  // ----- the loops -----

  method TrueRangeSeries(p: Prices) returns (values: seq<real>)
    requires p.Aligned()
    ensures values == TrueRanges(p, |p.closes|)
  {
    values := [];
    for index := 0 to |p.closes|
      invariant values == TrueRanges(p, index)
    {
      values := values + [if index == 0 then p.highs[0] - p.lows[0] else TrueRange(p.highs[index], p.lows[index], p.closes[index - 1])];
    }
  }

  lemma {:induction false} WilderStep(ranges: seq<real>, period: nat, i: nat)
    requires 0 < period <= i < |ranges|
    ensures i == period ==> WilderAt(ranges, period, i) == RangeSum(ranges, 1, period + 1) / period as real
    ensures i > period ==> WilderAt(ranges, period, i) == Smoothed(WilderAt(ranges, period, i - 1), ranges[i], period)
  {
    hide Smoothed;
  }

  /** One pass of the loop body every form shares. */
  method AdvanceBands(bands: Bands, high: real, low: real, close: real, previousClose: real, width: real) returns (next: Bands)
    ensures next == Following(bands, high, low, close, previousClose, width)
  {
    var mid := (high + low) / 2.0;
    var basicUpper, basicLower := mid + width, mid - width;
    var nextUpper := bands.upper;
    if basicUpper < bands.upper || previousClose > bands.upper {
      nextUpper := basicUpper;
    }
    var nextLower := bands.lower;
    if basicLower > bands.lower || previousClose < bands.lower {
      nextLower := basicLower;
    }
    var up := bands.up;
    if !up && close > nextUpper {
      up := true;
    } else if up && close < nextLower {
      up := false;
    }
    next := Bands(nextUpper, nextLower, up);
  }

  method FirstAtr(ranges: seq<real>, period: nat) returns (sum: real)
    requires 0 < period < |ranges|
    ensures sum == RangeSum(ranges, 1, period + 1)
  {
    sum := 0.0;
    for index := 1 to period + 1
      invariant sum == RangeSum(ranges, 1, index)
    {
      sum := sum + ranges[index];
    }
  }

  /** The scalar form: only the last point, true ranges computed on the fly. */
  method Scalar(p: Prices, period: int, multiplier: real) returns (r: Option<Point>)
    ensures r == if period <= 0 || |p.closes| <= period + 1 || !p.Aligned() then None
                 else Some(PointOf(BandsAt(p, Wilder(TrueRanges(p, |p.closes|), period), multiplier, period, |p.closes| - 1)))
  {
    hide Opening, Following, Smoothed, WilderAt, TrueRangeAt, TrueRanges, PointOf, Width, TrueRange;
    if period <= 0 || |p.closes| <= period + 1 || |p.highs| != |p.closes| || |p.lows| != |p.closes| {
      return None;
    }
    ghost var ranges := TrueRanges(p, |p.closes|);
    ghost var a := Wilder(ranges, period);
    TrueRangesAre(p);
    var atrSum := 0.0;
    for index := 1 to period + 1
      invariant atrSum == RangeSum(ranges, 1, index)
    {
      RangeStep(p, index);
      atrSum := atrSum + TrueRange(p.highs[index], p.lows[index], p.closes[index - 1]);
    }
    var atrValue := atrSum / period as real;
    var bands := Opening(p.highs[period], p.lows[period], p.closes[period], Width(multiplier, atrValue));
    WilderStep(ranges, period, period);
    for index := period + 1 to |p.closes|
      invariant atrValue == WilderAt(ranges, period, index - 1)
      invariant bands == BandsAt(p, a, multiplier, period, index - 1)
    {
      RangeStep(p, index);
      WilderStep(ranges, period, index);
      var trueRange := TrueRange(p.highs[index], p.lows[index], p.closes[index - 1]);
      atrValue := Smoothed(atrValue, trueRange, period);
      bands := AdvanceBands(bands, p.highs[index], p.lows[index], p.closes[index], p.closes[index - 1], Width(multiplier, atrValue));
    }
    r := Some(PointOf(bands));
  }

  lemma {:induction false} TrueRangesAre(p: Prices)
    requires p.Aligned()
    ensures |TrueRanges(p, |p.closes|)| == |p.closes|
  {
  }

  lemma {:induction false} RangeStep(p: Prices, i: nat)
    requires p.Aligned() && 1 <= i < |p.closes|
    ensures |TrueRanges(p, |p.closes|)| == |p.closes|
    ensures TrueRanges(p, |p.closes|)[i] == TrueRange(p.highs[i], p.lows[i], p.closes[i - 1])
    ensures RangeSum(TrueRanges(p, |p.closes|), 1, i + 1)
         == RangeSum(TrueRanges(p, |p.closes|), 1, i) + TrueRange(p.highs[i], p.lows[i], p.closes[i - 1])
  {
    hide TrueRange;
  }

  datatype SupertrendRun = SupertrendRun(points: seq<Point>, previous: Option<Point>, last: Point)

  function AtrKind(simpleATR: bool, ranges: seq<real>, period: nat): Atr {
    if simpleATR then Simple(ranges, period) else Wilder(ranges, period)
  }

  /** The run over given true ranges; it refuses when it has no second point. */
  method FromTrueRanges(p: Prices, trueRanges: seq<real>, period: int, multiplier: real, simpleATR: bool, collectPoints: bool)
      returns (r: Option<SupertrendRun>)
    ensures r == if period <= 0 || |p.closes| <= period + 1 || !p.Aligned() || |trueRanges| != |p.closes|
         || (simpleATR && multiplier <= 0.0) then None
                 else
                   var points := Points(p, AtrKind(simpleATR, trueRanges, period), multiplier, period, |p.closes|);
                   Some(SupertrendRun(if collectPoints then points else [], Some(points[|points| - 2]), points[|points| - 1]))
  {
    hide Opening, Following, Smoothed, WilderAt, PointOf, RangeSum, Width;
    if period <= 0 || |p.closes| <= period || |p.highs| != |p.closes| || |p.lows| != |p.closes| || |trueRanges| != |p.closes| {
      return None;
    }
    if simpleATR && multiplier <= 0.0 {
      return None;
    }
    ghost var a := AtrKind(simpleATR, trueRanges, period);
    ghost var n := |p.closes|;
    var atrSum := FirstAtr(trueRanges, period);
    var atrValue := atrSum / period as real;
    WilderStep(trueRanges, period, period);
    var bands := Opening(p.highs[period], p.lows[period], p.closes[period], Width(multiplier, atrValue));
    var points := [];
    var previous, last := None, PointOf(bands);
    if collectPoints {
      points := points + [last];
    }
    for index := period + 1 to |p.closes|
      invariant simpleATR ==> atrSum == RangeSum(trueRanges, index - period, index)
      invariant !simpleATR ==> atrValue == WilderAt(trueRanges, period, index - 1)
      invariant bands == BandsAt(p, a, multiplier, period, index - 1)
      invariant points == if collectPoints then Points(p, a, multiplier, period, index) else []
      invariant last == PointOf(bands)
      invariant previous == if index == period + 1 then None else Some(PointOf(BandsAt(p, a, multiplier, period, index - 2)))
    {
      if simpleATR {
        SlideSum(trueRanges, index - period, index);
        atrSum := atrSum + (trueRanges[index] - trueRanges[index - period]);
        atrValue := atrSum / period as real;
      } else {
        WilderStep(trueRanges, period, index);
        atrValue := Smoothed(atrValue, trueRanges[index], period);
      }
      bands := AdvanceBands(bands, p.highs[index], p.lows[index], p.closes[index], p.closes[index - 1], Width(multiplier, atrValue));
      previous := Some(last);
      last := PointOf(bands);
      if collectPoints {
        points := points + [last];
      }
    }
    if previous.None? {
      return None;
    }
    r := Some(SupertrendRun(points, previous, last));
  }

  lemma {:induction false} SlideSum(s: seq<real>, lo: nat, hi: nat)
    requires lo < hi < |s|
    ensures RangeSum(s, lo + 1, hi + 1) == RangeSum(s, lo, hi) + (s[hi] - s[lo])
  {
    RangeSumDropFirst(s, lo, hi);
  }

  /** The series over a ready-made ATR slice: every ATR it uses must be positive. */
  method WithAtr(p: Prices, atrValues: seq<real>, start: int, multiplier: real) returns (r: Option<seq<Point>>)
    requires p.Aligned()
    ensures r == if start <= 0 || |p.closes| < start + 2 || |atrValues| != |p.closes|
                    || exists i :: start <= i < |p.closes| && atrValues[i] <= 0.0
                 then None
                 else Some(Points(p, Given(atrValues), multiplier, start, |p.closes|))
  {
    hide Opening, Following, PointOf, Width;
    if start <= 0 || start >= |p.closes| || |atrValues| != |p.closes| {
      return None;
    }
    if atrValues[start] <= 0.0 {
      return None;
    }
    ghost var a := Given(atrValues);
    var bands := Opening(p.highs[start], p.lows[start], p.closes[start], Width(multiplier, atrValues[start]));
    var points := [PointOf(bands)];
    for index := start + 1 to |p.closes|
      invariant forall i :: start <= i < index ==> atrValues[i] > 0.0
      invariant bands == BandsAt(p, a, multiplier, start, index - 1)
      invariant points == Points(p, a, multiplier, start, index)
    {
      if atrValues[index] <= 0.0 {
        return None;
      }
      bands := AdvanceBands(bands, p.highs[index], p.lows[index], p.closes[index], p.closes[index - 1], Width(multiplier, atrValues[index]));
      points := points + [PointOf(bands)];
    }
    if |points| < 2 {
      return None;
    }
    r := Some(points);
  }

  /** Equal widths give equal bands: the Wilder run and the run over its tabulated ATR publish the same points. */
  lemma {:induction false} SameAtrSameBands(p: Prices, a: Atr, b: Atr, multiplier: real, start: nat, i: nat)
    requires p.Aligned() && start <= i < |p.closes| && Covers(a, start, |p.closes|) && Covers(b, start, |p.closes|)
    requires forall k :: start <= k <= i ==> AtrAt(a, k) == AtrAt(b, k)
    ensures BandsAt(p, a, multiplier, start, i) == BandsAt(p, b, multiplier, start, i)
    decreases i
  {
    hide AtrAt, Opening, Following, Width;
    if i > start {
      SameAtrSameBands(p, a, b, multiplier, start, i - 1);
    }
  }

  /**
   * The scalar form, the Wilder run and the series over the tabulated Wilder ATR publish the
   * same points, so the scalar value is the last of the other two.
   */
  lemma {:induction false} FormsAgree(p: Prices, ranges: seq<real>, atrValues: seq<real>, period: nat, multiplier: real, n: nat)
    requires p.Aligned() && 0 < period < n <= |p.closes| == |ranges| == |atrValues|
    requires forall i :: period <= i < n ==> atrValues[i] == WilderAt(ranges, period, i)
    ensures Points(p, Given(atrValues), multiplier, period, n) == Points(p, Wilder(ranges, period), multiplier, period, n)
    ensures Points(p, Given(atrValues), multiplier, period, n)[n - 1 - period]
         == PointOf(BandsAt(p, Wilder(ranges, period), multiplier, period, n - 1))
  {
    hide BandsAt, WilderAt;
    var tabulated := Points(p, Given(atrValues), multiplier, period, n);
    var running := Points(p, Wilder(ranges, period), multiplier, period, n);
    forall k | 0 <= k < n - period
      ensures tabulated[k] == running[k]
    {
      var i := period + k;
      SameAtrSameBands(p, Given(atrValues), Wilder(ranges, period), multiplier, period, i);
      assert tabulated[i - period] == running[i - period];
    }
  }

  // ----- what the line guarantees -----

  ghost predicate SameSide(p: Prices, a: Atr, multiplier: real, start: nat, from: nat, i: nat)
    requires p.Aligned() && start <= from <= i < |p.closes| && Covers(a, start, |p.closes|)
  {
    forall k :: from <= k <= i ==> BandsAt(p, a, multiplier, start, k).up == BandsAt(p, a, multiplier, start, i).up
  }

  function Line(p: Prices, a: Atr, multiplier: real, start: nat, i: nat): real
    requires p.Aligned() && start <= i < |p.closes| && Covers(a, start, |p.closes|)
  {
    PointOf(BandsAt(p, a, multiplier, start, i)).value
  }

  /** The latest band of a bar on a side, before any ratcheting. */
  function Fresh(p: Prices, a: Atr, multiplier: real, up: bool, i: nat): real
    requires p.Aligned() && i < |p.closes| && Covers(a, i, |p.closes|)
  {
    var mid := (p.highs[i] + p.lows[i]) / 2.0;
    if up then mid - Width(multiplier, AtrAt(a, i)) else mid + Width(multiplier, AtrAt(a, i))
  }

  lemma {:induction false} CoversLater(a: Atr, start: nat, i: nat, n: nat)
    requires Covers(a, start, n) && start <= i
    ensures Covers(a, i, n)
  {
  }

  /**
   * When a trend is kept, the line retreats exactly when the bar before had closed through
   * it and the latest band is worse.
   */
  lemma {:induction false} RetreatsExactlyWhenClosedThrough(p: Prices, a: Atr, multiplier: real, start: nat, i: nat)
    requires p.Aligned() && start < i < |p.closes| && Covers(a, start, |p.closes|)
    requires BandsAt(p, a, multiplier, start, i).up == BandsAt(p, a, multiplier, start, i - 1).up
    ensures Covers(a, i, |p.closes|)
    ensures var up, before := BandsAt(p, a, multiplier, start, i).up, Line(p, a, multiplier, start, i - 1);
            var latest := Fresh(p, a, multiplier, up, i);
            if up then Line(p, a, multiplier, start, i) < before <==> p.closes[i - 1] < before && latest < before
            else Line(p, a, multiplier, start, i) > before <==> p.closes[i - 1] > before && latest > before
  {
    hide Width, AtrAt;
    CoversLater(a, start, i, |p.closes|);
  }

  /** A bar that keeps the trend closes on the trend's side of the line. */
  lemma {:induction false} KeptBarClosesOutside(p: Prices, a: Atr, multiplier: real, start: nat, i: nat)
    requires p.Aligned() && start < i < |p.closes| && Covers(a, start, |p.closes|)
    requires BandsAt(p, a, multiplier, start, i).up == BandsAt(p, a, multiplier, start, i - 1).up
    ensures if BandsAt(p, a, multiplier, start, i).up then Line(p, a, multiplier, start, i) <= p.closes[i]
         else p.closes[i] <= Line(p, a, multiplier, start, i)
  {
    hide Width, AtrAt;
  }

  /** The best latest band of bars from..i, starting from the line at `from`. */
  function Ratchet(p: Prices, a: Atr, multiplier: real, start: nat, up: bool, from: nat, i: nat): real
    requires p.Aligned() && start <= from <= i < |p.closes| && Covers(a, start, |p.closes|)
    decreases i
  {
    if i == from then Line(p, a, multiplier, start, from)
    else
      CoversLater(a, start, i, |p.closes|);
      var before := Ratchet(p, a, multiplier, start, up, from, i - 1);
      var latest := Fresh(p, a, multiplier, up, i);
      if up then Max(before, latest) else Min(before, latest)
  }

  /**
   * From the second bar of a run on, the line is the best latest band seen since: it only
   * tightens.
   */
  lemma {:induction false} LineIsRatchetInsideRun(p: Prices, a: Atr, multiplier: real, start: nat, from: nat, i: nat)
    requires p.Aligned() && start < from <= i < |p.closes| && Covers(a, start, |p.closes|)
    requires SameSide(p, a, multiplier, start, from - 1, i)
    ensures Line(p, a, multiplier, start, i) == Ratchet(p, a, multiplier, start, BandsAt(p, a, multiplier, start, i).up, from, i)
    ensures if BandsAt(p, a, multiplier, start, i).up then Line(p, a, multiplier, start, from) <= Line(p, a, multiplier, start, i)
            else Line(p, a, multiplier, start, i) <= Line(p, a, multiplier, start, from)
    decreases i
  {
    hide Width, AtrAt, Following, Opening;
    if from < i {
      assert BandsAt(p, a, multiplier, start, i).up == BandsAt(p, a, multiplier, start, i - 1).up == BandsAt(p, a, multiplier, start, i - 2).up;
      LineIsRatchetInsideRun(p, a, multiplier, start, from, i - 1);
      KeptBarClosesOutside(p, a, multiplier, start, i - 1);
      KeptLineRatchets(p, a, multiplier, start, i);
    }
  }

  lemma {:induction false} KeptLineRatchets(p: Prices, a: Atr, multiplier: real, start: nat, i: nat)
    requires p.Aligned() && start < i < |p.closes| && Covers(a, start, |p.closes|)
    requires BandsAt(p, a, multiplier, start, i).up == BandsAt(p, a, multiplier, start, i - 1).up
    requires var up, before := BandsAt(p, a, multiplier, start, i).up, Line(p, a, multiplier, start, i - 1);
             if up then before <= p.closes[i - 1] else p.closes[i - 1] <= before
    ensures Covers(a, i, |p.closes|)
    ensures var up, before := BandsAt(p, a, multiplier, start, i).up, Line(p, a, multiplier, start, i - 1);
            var latest := Fresh(p, a, multiplier, up, i);
            Line(p, a, multiplier, start, i) == if up then Max(before, latest) else Min(before, latest)
  {
    hide Width, AtrAt;
    CoversLater(a, start, i, |p.closes|);
  }

  // ----- ranges, widths and bands in prices -----

  /**
   * The true range is the longest of the bar itself and the ways from the previous close to
   * its two ends; for a bar with its low below its high, the span of all three prices.
   */
  lemma {:induction false} TrueRangeIsSpan(high: real, low: real, previous: real)
    ensures var r := TrueRange(high, low, previous);
            && high - low <= r && high - previous <= r && previous - high <= r && low - previous <= r && previous - low <= r
            && (r == high - low || r == high - previous || r == previous - high || r == low - previous || r == previous - low)
            && (low <= high ==> r == (if previous > high then previous else high) - (if previous < low then previous else low))
  {
  }

  /** The first bar has no close before it; every other bar measures from the close of the one before. */
  lemma {:induction false} RangesMeasureFromClose(p: Prices, i: nat)
    requires p.Aligned() && i < |p.closes|
    ensures TrueRanges(p, |p.closes|)[i] == if i == 0 then p.highs[0] - p.lows[0] else TrueRange(p.highs[i], p.lows[i], p.closes[i - 1])
  {
    hide TrueRange;
  }

  /**
   * Wilder's average written out: the plain average of true ranges 1 to `period` and every
   * true range since, each fading by the factor 1 - 1 / period per bar of its age.
   */
  lemma {:induction false} WilderIsFadedSum(ranges: seq<real>, period: nat, i: nat)
    requires 0 < period <= i < |ranges|
    ensures var w, first := 1.0 / period as real, RangeSum(ranges, 1, period + 1) / period as real;
            WilderAt(ranges, period, i) == Power(1.0 - w, i - period) * first + w * Faded(ranges, period + 1, i + 1, i + 1, 1.0 - w)
    decreases i
  {
    hide RangeSum, Faded, Power, WilderAt, Smoothed;
    var q := 1.0 - 1.0 / period as real;
    WilderStep(ranges, period, i);
    if i == period {
      FadedNone(ranges, i + 1, q);
    } else {
      WilderIsFadedSum(ranges, period, i - 1);
      FadedSnoc(ranges, period + 1, i + 1, q);
      PowerNext(q, i - 1 - period);
      OneFade(WilderAt(ranges, period, i - 1), ranges[i], period, Power(q, i - 1 - period), RangeSum(ranges, 1, period + 1) / period as real,
              Faded(ranges, period + 1, i, i, q));
    }
  }

  lemma {:induction false} PowerNext(q: real, n: nat)
    ensures Power(q, n + 1) == q * Power(q, n)
  {
  }

  lemma {:induction false} FadedNone(s: seq<real>, n: nat, q: real)
    requires n <= |s|
    ensures Faded(s, n, n, n, q) == 0.0 && Power(q, 0) == 1.0
  {
  }

  lemma {:induction false} OneFade(before: real, next: real, period: nat, fade: real, first: real, faded: real)
    requires period > 0 && before == fade * first + 1.0 / period as real * faded
    ensures var w := 1.0 / period as real;
            Smoothed(before, next, period) == (1.0 - w) * fade * first + w * ((1.0 - w) * faded + next)
  {
    var n, w := period as real, 1.0 / period as real;
    assert w * n == 1.0;
    assert Smoothed(before, next, period) == w * (before * (n - 1.0) + next);
    assert w * (before * (n - 1.0)) == (1.0 - w) * before;
    assert (1.0 - w) * before == (1.0 - w) * fade * first + w * ((1.0 - w) * faded);
  }

  /** The width of bar i: Wilder's average, the plain average of the last `period` true ranges, or the value given. */
  lemma {:induction false} AtrSays(a: Atr, i: nat)
    requires match a case Given(values) => i < |values| case _ => 0 < a.period <= i < |a.ranges|
    ensures a.Wilder? ==> AtrAt(a, i) == WilderAt(a.ranges, a.period, i)
    ensures a.Simple? ==> AtrAt(a, i) * a.period as real == RangeSum(a.ranges, i + 1 - a.period, i + 1)
    ensures a.Given? ==> AtrAt(a, i) == a.values[i]
    ensures !a.Given? ==> AtrKind(a.Simple?, a.ranges, a.period) == a
  {
    hide RangeSum, WilderAt;
  }

  /** The latest bands lie the multiple of the ATR above and below the middle of the bar. */
  lemma {:induction false} FreshIsWidthFromMiddle(p: Prices, a: Atr, multiplier: real, i: nat)
    requires p.Aligned() && i < |p.closes| && Covers(a, i, |p.closes|)
    ensures var above, below := Fresh(p, a, multiplier, false, i), Fresh(p, a, multiplier, true, i);
            above + below == p.highs[i] + p.lows[i] && above - below == 2.0 * (multiplier * AtrAt(a, i))
  {
    hide AtrAt;
  }

  /** The bands open with the latest ones, on the upper side when the close is not below the middle of the bar. */
  lemma {:induction false} BandsOpenFresh(p: Prices, a: Atr, multiplier: real, start: nat)
    requires p.Aligned() && start < |p.closes| && Covers(a, start, |p.closes|)
    ensures var b := BandsAt(p, a, multiplier, start, start);
            && b.upper == Fresh(p, a, multiplier, false, start) && b.lower == Fresh(p, a, multiplier, true, start)
            && (b.up <==> 2.0 * p.closes[start] >= p.highs[start] + p.lows[start])
  {
    hide AtrAt, Width;
  }

  /**
   * The side turns exactly when a bar closes beyond the band it was held by, and the line is
   * the lower band above which the trend rises or the upper one below which it falls.
   */
  lemma {:induction false} TurnsExactlyOnCross(p: Prices, a: Atr, multiplier: real, start: nat, i: nat)
    requires p.Aligned() && start < i < |p.closes| && Covers(a, start, |p.closes|)
    ensures var b, before := BandsAt(p, a, multiplier, start, i), BandsAt(p, a, multiplier, start, i - 1);
            && (before.up ==> (b.up <==> p.closes[i] >= b.lower)) && (!before.up ==> (b.up <==> p.closes[i] > b.upper))
            && Points(p, a, multiplier, start, i + 1)[i - start] == Point(if b.up then b.lower else b.upper, b.up)
  {
    hide AtrAt, Width;
  }

  /** Bar `from` is the last one before which a bar closed below its lower band, or the first bar with bands. */
  ghost predicate LowerRenewed(p: Prices, a: Atr, multiplier: real, start: nat, from: nat, i: nat)
    requires p.Aligned() && start <= from <= i < |p.closes| && Covers(a, start, |p.closes|)
  {
    && (from == start || p.closes[from - 1] < BandsAt(p, a, multiplier, start, from - 1).lower)
    && forall k :: from <= k < i ==> p.closes[k] >= BandsAt(p, a, multiplier, start, k).lower
  }

  /** The lower band is the highest of the latest lower bands since a bar last closed below it. */
  lemma {:induction false} LowerBandIsHighestSince(p: Prices, a: Atr, multiplier: real, start: nat, from: nat, i: nat)
    requires p.Aligned() && start <= from <= i < |p.closes| && Covers(a, start, |p.closes|)
    requires LowerRenewed(p, a, multiplier, start, from, i)
    ensures var lower := BandsAt(p, a, multiplier, start, i).lower;
            && (forall k :: from <= k <= i ==> Fresh(p, a, multiplier, true, k) <= lower)
            && exists k :: from <= k <= i && Fresh(p, a, multiplier, true, k) == lower
    decreases i
  {
    hide AtrAt, BandsAt, Fresh;
    if start < i {
      LowerFollows(p, a, multiplier, start, i);
    } else {
      BandsOpenFresh(p, a, multiplier, start);
    }
    var lower := BandsAt(p, a, multiplier, start, i).lower;
    if from < i && Fresh(p, a, multiplier, true, i) != lower {
      LowerBandIsHighestSince(p, a, multiplier, start, from, i - 1);
      var k :| from <= k <= i - 1 && Fresh(p, a, multiplier, true, k) == BandsAt(p, a, multiplier, start, i - 1).lower;
      assert Fresh(p, a, multiplier, true, k) == lower;
    } else if from < i {
      LowerBandIsHighestSince(p, a, multiplier, start, from, i - 1);
    }
  }

  lemma {:induction false} LowerFollows(p: Prices, a: Atr, multiplier: real, start: nat, i: nat)
    requires p.Aligned() && start < i < |p.closes| && Covers(a, start, |p.closes|)
    ensures Covers(a, i, |p.closes|)
    ensures var before, latest := BandsAt(p, a, multiplier, start, i - 1).lower, Fresh(p, a, multiplier, true, i);
            BandsAt(p, a, multiplier, start, i).lower == if p.closes[i - 1] < before then latest else Max(before, latest)
  {
    hide AtrAt, Width;
  }

  /** Bar `from` is the last one before which a bar closed above its upper band, or the first bar with bands. */
  ghost predicate UpperRenewed(p: Prices, a: Atr, multiplier: real, start: nat, from: nat, i: nat)
    requires p.Aligned() && start <= from <= i < |p.closes| && Covers(a, start, |p.closes|)
  {
    && (from == start || p.closes[from - 1] > BandsAt(p, a, multiplier, start, from - 1).upper)
    && forall k :: from <= k < i ==> p.closes[k] <= BandsAt(p, a, multiplier, start, k).upper
  }

  /** The upper band is the lowest of the latest upper bands since a bar last closed above it. */
  lemma {:induction false} UpperBandIsLowestSince(p: Prices, a: Atr, multiplier: real, start: nat, from: nat, i: nat)
    requires p.Aligned() && start <= from <= i < |p.closes| && Covers(a, start, |p.closes|)
    requires UpperRenewed(p, a, multiplier, start, from, i)
    ensures var upper := BandsAt(p, a, multiplier, start, i).upper;
            && (forall k :: from <= k <= i ==> upper <= Fresh(p, a, multiplier, false, k))
            && exists k :: from <= k <= i && Fresh(p, a, multiplier, false, k) == upper
    decreases i
  {
    hide AtrAt, BandsAt, Fresh;
    if start < i {
      UpperFollows(p, a, multiplier, start, i);
    } else {
      BandsOpenFresh(p, a, multiplier, start);
    }
    var upper := BandsAt(p, a, multiplier, start, i).upper;
    if from < i && Fresh(p, a, multiplier, false, i) != upper {
      UpperBandIsLowestSince(p, a, multiplier, start, from, i - 1);
      var k :| from <= k <= i - 1 && Fresh(p, a, multiplier, false, k) == BandsAt(p, a, multiplier, start, i - 1).upper;
      assert Fresh(p, a, multiplier, false, k) == upper;
    } else if from < i {
      UpperBandIsLowestSince(p, a, multiplier, start, from, i - 1);
    }
  }

  lemma {:induction false} UpperFollows(p: Prices, a: Atr, multiplier: real, start: nat, i: nat)
    requires p.Aligned() && start < i < |p.closes| && Covers(a, start, |p.closes|)
    ensures Covers(a, i, |p.closes|)
    ensures var before, latest := BandsAt(p, a, multiplier, start, i - 1).upper, Fresh(p, a, multiplier, false, i);
            BandsAt(p, a, multiplier, start, i).upper == if p.closes[i - 1] > before then latest else Min(before, latest)
  {
    hide AtrAt, Width;
  }

  /** Every bar has such a last renewal of each band. */
  lemma {:induction false} BandsHaveRenewals(p: Prices, a: Atr, multiplier: real, start: nat, i: nat) returns (below: nat, above: nat)
    requires p.Aligned() && start <= i < |p.closes| && Covers(a, start, |p.closes|)
    ensures start <= below <= i && LowerRenewed(p, a, multiplier, start, below, i)
    ensures start <= above <= i && UpperRenewed(p, a, multiplier, start, above, i)
    decreases i
  {
    hide BandsAt;
    below, above := start, start;
    if start < i {
      below, above := BandsHaveRenewals(p, a, multiplier, start, i - 1);
      if p.closes[i - 1] < BandsAt(p, a, multiplier, start, i - 1).lower {
        below := i;
      }
      if p.closes[i - 1] > BandsAt(p, a, multiplier, start, i - 1).upper {
        above := i;
      }
    }
  }

  /** Two facts not to rely on: the bands can cross on a gap, and the second bar of a run can retreat. */
  lemma {:induction false} BandsCrossAndSecondBarRetreats()
    ensures var p, a := Prices([100.0, 98.0, 90.0], [100.0, 80.0, 90.0], [100.0, 98.0, 90.0]), Given([1.0, 1.0, 5.0]);
            && BandsAt(p, a, 1.0, 0, 1) == Bands(90.0, 99.0, false)
            && BandsAt(p, a, 1.0, 0, 2) == Bands(95.0, 85.0, false)
  {
    var p, a := Prices([100.0, 98.0, 90.0], [100.0, 80.0, 90.0], [100.0, 98.0, 90.0]), Given([1.0, 1.0, 5.0]);
    assert BandsAt(p, a, 1.0, 0, 0) == Bands(101.0, 99.0, true);
    assert BandsAt(p, a, 1.0, 0, 1) == Bands(90.0, 99.0, false);
  }
}
