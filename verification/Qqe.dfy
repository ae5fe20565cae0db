/**
 * The QQE indicator as a composition of series: relative strength, an exponential
 * average of it, the average absolute change of that average, trailing bands around
 * it, and a band over the trailing line.  Definitions and batch implementation.
 */
module Qqe {
  import opened Numeric
  import opened IndicatorMath
  import opened TailBuffer

  // ----- relative strength -----

  /** Both averages are never negative, so the third case only makes the division total. */
  function RsiFromAverages(averageGain: real, averageLoss: real): real {
    if averageLoss == 0.0 then 100.0
    else if 1.0 + averageGain / averageLoss == 0.0 then 0.0
    else 100.0 - 100.0 / (1.0 + averageGain / averageLoss)
  }

  function GainOf(difference: real): real {
    if difference >= 0.0 then difference else 0.0
  }

  function LossOf(difference: real): real {
    if difference >= 0.0 then 0.0 else -difference
  }

  /** The sum of the gains (or of the losses) over all differences of closes. */
  function Total(closes: seq<real>, gains: bool): real
  {
    if |closes| < 2 then 0.0
    else
      var difference := closes[|closes| - 1] - closes[|closes| - 2];
      Total(closes[..|closes| - 1], gains) + if gains then GainOf(difference) else LossOf(difference)
  }

  function Smoothed(previous: real, next: real, period: nat): real
    requires 1 <= period
  {
    (previous * (period - 1) as real + next) / period as real
  }

  /** Wilder's average of the gains (or losses), seeded with the plain average of the first `period`. */
  function Average(closes: seq<real>, period: nat, gains: bool): real
    requires 1 <= period < |closes|
  {
    if |closes| == period + 1 then Total(closes, gains) / period as real
    else
      var difference := closes[|closes| - 1] - closes[|closes| - 2];
      Smoothed(Average(closes[..|closes| - 1], period, gains), if gains then GainOf(difference) else LossOf(difference), period)
  }

  function RsiOf(closes: seq<real>, period: nat): real
    requires 1 <= period < |closes|
  {
    RsiFromAverages(Average(closes, period, true), Average(closes, period, false))
  }

  /** The relative strength of every prefix long enough to have one. */
  function RsiSeq(closes: seq<real>, period: nat): (r: seq<real>)
    requires 1 <= period
    ensures |r| == if |closes| <= period then 0 else |closes| - period
  {
    if |closes| <= period then [] else RsiSeq(closes[..|closes| - 1], period) + [RsiOf(closes, period)]
  }

  method RsiSeries(values: seq<real>, period: int) returns (series: seq<real>, ok: bool)
    ensures ok <==> 0 < period < |values|
    ensures ok ==> series == RsiSeq(values, period)
  {
    hide RsiFromAverages, Smoothed, GainOf, LossOf;
    if period <= 0 || |values| <= period {
      return [], false;
    }
    var averageGain, averageLoss := Seed(values, period);
    series, ok := [RsiFromAverages(averageGain, averageLoss)], true;
    for index := period + 1 to |values|
      invariant averageGain == Average(values[..index], period, true) && averageLoss == Average(values[..index], period, false)
      invariant series == RsiSeq(values[..index], period) && ok
    {
      assert values[..index + 1][..index] == values[..index];
      var delta := values[index] - values[index - 1];
      averageGain := Smoothed(averageGain, GainOf(delta), period);
      averageLoss := Smoothed(averageLoss, LossOf(delta), period);
      series := series + [RsiFromAverages(averageGain, averageLoss)];
    }
    assert values[..|values|] == values;
  }

  method Seed(values: seq<real>, period: nat) returns (averageGain: real, averageLoss: real)
    requires 1 <= period < |values|
    ensures averageGain == Average(values[..period + 1], period, true) && averageLoss == Average(values[..period + 1], period, false)
  {
    averageGain, averageLoss := 0.0, 0.0;
    for index := 1 to period + 1
      invariant averageGain == Total(values[..index], true) && averageLoss == Total(values[..index], false)
    {
      assert values[..index + 1][..index] == values[..index];
      var delta := values[index] - values[index - 1];
      if delta >= 0.0 {
        averageGain := averageGain + delta;
      } else {
        averageLoss := averageLoss - delta;
      }
    }
    averageGain := averageGain / period as real;
    averageLoss := averageLoss / period as real;
  }

  // ----- the foundation: smoothed line and smoothed absolute change -----

  /** Absolute changes between neighbours. */
  function Deltas(lines: seq<real>): (r: seq<real>)
    ensures |r| == if lines == [] then 0 else |lines| - 1
  {
    if |lines| < 2 then []
    else Deltas(lines[..|lines| - 1]) + [Abs(lines[|lines| - 1] - lines[|lines| - 2])]
  }

  lemma {:induction false} DeltasNonNegative(lines: seq<real>)
    ensures forall i :: 0 <= i < |Deltas(lines)| ==> Deltas(lines)[i] >= 0.0
    decreases |lines|
  {
    if |lines| >= 2 {
      DeltasNonNegative(lines[..|lines| - 1]);
    }
  }

  function Wilders(rsiPeriod: nat): nat
    requires 1 <= rsiPeriod
  {
    rsiPeriod * 2 - 1
  }

  function Lines(closes: seq<real>, rsiPeriod: nat, smoothing: nat): seq<real>
    requires 1 <= rsiPeriod && 1 <= smoothing
  {
    EmaSeq(RsiSeq(closes, rsiPeriod), smoothing)
  }

  function Ranges(lines: seq<real>, wilders: nat): seq<real>
    requires 1 <= wilders
  {
    EmaSeq(Deltas(lines), wilders)
  }

  method Foundation(rsiValues: seq<real>, rsiOk: bool, rsiPeriod: nat, smoothing: nat)
    returns (lines: seq<real>, ranges: seq<real>, offset: int, ok: bool)
    requires 1 <= rsiPeriod && 1 <= smoothing
    ensures ok <==> rsiOk && FoundationReady(rsiValues, rsiPeriod, smoothing)
    ensures ok ==> lines == EmaSeq(rsiValues, smoothing) && ranges == Ranges(lines, Wilders(rsiPeriod)) && offset == |lines| - |ranges|
  {
    hide EmaSeq;
    EmaLength(rsiValues, smoothing);
    if !rsiOk || |rsiValues| < smoothing * 3 {
      return [], [], 0, false;
    }
    lines, ok := EmaSeries(rsiValues, smoothing);
    if !ok || |lines| < 3 {
      return [], [], 0, false;
    }
    var deltas := AbsoluteDeltas(lines);
    EmaLength(deltas, Wilders(rsiPeriod));
    ranges, ok := EmaSeries(deltas, Wilders(rsiPeriod));
    if !ok || |ranges| < 2 {
      return [], [], 0, false;
    }
    offset := |lines| - |ranges|;
  }

  /** Enough values for a line, its changes and at least two averaged changes. */
  predicate FoundationReady(rsiValues: seq<real>, rsiPeriod: nat, smoothing: nat)
    requires 1 <= rsiPeriod && 1 <= smoothing
  {
    && |rsiValues| >= smoothing * 3
    && |rsiValues| - smoothing + 1 >= 3
    && |rsiValues| - smoothing >= Wilders(rsiPeriod) + 1
  }

  lemma {:induction false} EmaLength(values: seq<real>, period: nat)
    requires 1 <= period
    ensures |EmaSeq(values, period)| == if |values| < period then 0 else |values| - period + 1
  {
  }

  method AbsoluteDeltas(lines: seq<real>) returns (deltas: seq<real>)
    requires lines != []
    ensures deltas == Deltas(lines)
  {
    deltas := [];
    for index := 1 to |lines|
      invariant deltas == Deltas(lines[..index])
    {
      assert lines[..index + 1][..index] == lines[..index];
      deltas := deltas + [Abs(lines[index] - lines[index - 1])];
    }
    assert lines[..|lines|] == lines;
  }

  // ----- the trailing trend of one factor -----

  datatype Trend = Trend(longBand: real, shortBand: real, direction: int, value: real)

  function TrendStart(line: real, rangeValue: real, factor: real): Trend {
    Trend(line - rangeValue * factor, line + rangeValue * factor, 1, line - rangeValue * factor)
  }

  function CrossesAbove(previousValue: real, value: real, level: real): bool {
    previousValue <= level && value > level
  }

  function CrossesBelow(previousValue: real, value: real, level: real): bool {
    previousValue >= level && value < level
  }

  /** Bands ratchet while both lines stay beyond them; the direction flips on a cross of the previous band. */
  function TrendStep(t: Trend, line: real, previousLine: real, rangeValue: real, factor: real): Trend {
    var newLong, newShort := line - rangeValue * factor, line + rangeValue * factor;
    var longBand := if previousLine > t.longBand && line > t.longBand then Max(t.longBand, newLong) else newLong;
    var shortBand := if previousLine < t.shortBand && line < t.shortBand then Min(t.shortBand, newShort) else newShort;
    var direction := if CrossesAbove(previousLine, line, t.shortBand) then 1
                     else if CrossesBelow(previousLine, line, t.longBand) then -1 else t.direction;
    Trend(longBand, shortBand, direction, if direction == 1 then longBand else shortBand)
  }

  /** The first bar of the batch form: the step is taken on the bands built from that same bar. */
  function TrendFirst(line: real, previousLine: real, rangeValue: real, factor: real): Trend {
    TrendStep(TrendStart(line, rangeValue, factor), line, previousLine, rangeValue, factor)
  }

  /** The trend after all of `ranges`, aligned with the end of `lines`. */
  function TrendOf(lines: seq<real>, ranges: seq<real>, factor: real): Trend
    requires 1 <= |ranges| < |lines|
    decreases |ranges|
  {
    var line, previousLine, rangeValue := lines[|lines| - 1], lines[|lines| - 2], ranges[|ranges| - 1];
    if |ranges| == 1 then TrendFirst(line, previousLine, rangeValue, factor)
    else TrendStep(TrendOf(lines[..|lines| - 1], ranges[..|ranges| - 1], factor), line, previousLine, rangeValue, factor)
  }

  function TrendValues(lines: seq<real>, ranges: seq<real>, factor: real): (r: seq<real>)
    requires ranges != [] ==> |ranges| < |lines|
    ensures |r| == |ranges|
    decreases |ranges|
  {
    if ranges == [] then []
    else TrendValues(lines[..|lines| - 1], ranges[..|ranges| - 1], factor) + [TrendOf(lines, ranges, factor).value]
  }

  /**
   * The batch loop runs the step on the first bar too, over the bands it just built from
   * that bar; the stream does not.  That step changes nothing exactly when the range is
   * not negative or the line before stays below the (then raised) long band.
   */
  lemma {:induction false} FirstStepIsStart(line: real, previousLine: real, rangeValue: real, factor: real)
    requires factor > 0.0
    ensures TrendFirst(line, previousLine, rangeValue, factor) == TrendStart(line, rangeValue, factor)
            <==> rangeValue >= 0.0 || previousLine < line - rangeValue * factor
  {
    if rangeValue >= 0.0 {
      assert rangeValue * factor >= 0.0;
    } else {
      assert -rangeValue * factor > 0.0;
    }
  }

  method TrendSeries(lines: seq<real>, ranges: seq<real>, offset: int, factor: real) returns (trends: seq<real>, ok: bool)
    requires offset == |lines| - |ranges|
    ensures ok <==> factor > 0.0 && offset > 0 && |ranges| >= 2
    ensures ok ==> trends == TrendValues(lines, ranges, factor)
  {
    hide TrendStep, TrendStart;
    if factor <= 0.0 || offset <= 0 || |ranges| < 2 || offset + |ranges| > |lines| {
      return [], false;
    }
    var state := TrendStart(lines[offset], ranges[0], factor);
    trends := [];
    for index := offset to |lines|
      invariant state == if index == offset then TrendStart(lines[offset], ranges[0], factor)
                         else TrendOf(lines[..index], ranges[..index - offset], factor)
      invariant trends == TrendValues(lines[..index], ranges[..index - offset], factor)
    {
      assert lines[..index + 1][..index] == lines[..index];
      assert ranges[..index + 1 - offset][..index - offset] == ranges[..index - offset];
      state := TrendStep(state, lines[index], lines[index - 1], ranges[index - offset], factor);
      trends := trends + [state.value];
    }
    assert lines[..|lines|] == lines && ranges[..|ranges|] == ranges;
    ok := true;
  }

  // ----- the classic trailing stop -----

  datatype Classic = Classic(longBand: real, shortBand: real, trend: int, trailing: real, previousTrailing: real)

  function ClassicStart(line: real, dynamicRange: real, factor: real): Classic {
    var longBand := line - dynamicRange * factor;
    Classic(longBand, line + dynamicRange * factor, 1, longBand, longBand)
  }

  /** Unlike the trend, the flip here looks at the bands after they moved. */
  function ClassicStep(c: Classic, line: real, previousLine: real, dynamicRange: real, factor: real): Classic {
    var newLong, newShort := line - dynamicRange * factor, line + dynamicRange * factor;
    var longBand := if previousLine > c.longBand && line > c.longBand then Max(c.longBand, newLong) else newLong;
    var shortBand := if previousLine < c.shortBand && line < c.shortBand then Min(c.shortBand, newShort) else newShort;
    var trend := if line > shortBand then 1 else if line < longBand then -1 else c.trend;
    Classic(longBand, shortBand, trend, if trend == 1 then longBand else shortBand, c.trailing)
  }

  function ClassicOf(lines: seq<real>, ranges: seq<real>, factor: real): Classic
    requires 1 <= |ranges| < |lines|
    decreases |ranges|
  {
    var line, previousLine, dynamicRange := lines[|lines| - 1], lines[|lines| - 2], ranges[|ranges| - 1];
    if |ranges| == 1 then ClassicStart(line, dynamicRange, factor)
    else ClassicStep(ClassicOf(lines[..|lines| - 1], ranges[..|ranges| - 1], factor), line, previousLine, dynamicRange, factor)
  }

  /**
   * The flip to -1 asks for a line below the moved long band and not above the moved
   * short band.  The bands are built around that very line, so no input ever flips:
   * the classic trailing stop is the long band for ever.
   */
  lemma {:induction false} ClassicNeverFlips(lines: seq<real>, ranges: seq<real>, factor: real)
    requires 1 <= |ranges| < |lines|
    ensures var c := ClassicOf(lines, ranges, factor); c.trend == 1 && c.trailing == c.longBand
    decreases |ranges|
  {
    if |ranges| > 1 {
      ClassicNeverFlips(lines[..|lines| - 1], ranges[..|ranges| - 1], factor);
    }
  }

  datatype ClassicResult = ClassicResult(line: real, trailing: real, previousLine: real, previousTrailing: real)

  /** The published classic values: defined from the second dynamic range on. */
  function ClassicValues(lines: seq<real>, ranges: seq<real>, wilders: nat, factor: real): Option<ClassicResult>
    requires 1 <= wilders
  {
    var dynamicRanges := EmaSeq(ranges, wilders);
    if |dynamicRanges| < 2 || |lines| <= |dynamicRanges| then None
    else
      var c := ClassicOf(lines, dynamicRanges, factor);
      Some(ClassicResult(lines[|lines| - 1], c.trailing, lines[|lines| - 2], c.previousTrailing))
  }

  method QqeModFromFoundation(lines: seq<real>, ranges: seq<real>, rsiPeriod: nat, smoothing: nat, factor: real, foundationOk: bool)
    returns (result: Option<ClassicResult>)
    requires 1 <= rsiPeriod && 1 <= smoothing
    ensures result == if foundationOk && factor > 0.0 && |lines| >= smoothing + 2
                      then ClassicValues(lines, ranges, Wilders(rsiPeriod), factor) else None
  {
    hide EmaSeq, ClassicStart, ClassicStep;
    if !foundationOk || factor <= 0.0 || |lines| < smoothing + 2 {
      return None;
    }
    EmaLength(ranges, Wilders(rsiPeriod));
    var dynamicRanges, ok := EmaSeries(ranges, Wilders(rsiPeriod));
    if !ok || |dynamicRanges| < 2 {
      return None;
    }
    var offset := |lines| - |dynamicRanges|;
    if offset <= 0 {
      return None;
    }
    var state := ClassicStart(lines[offset], dynamicRanges[0], factor);
    for index := offset + 1 to |lines|
      invariant state == ClassicOf(lines[..index], dynamicRanges[..index - offset], factor)
    {
      assert lines[..index + 1][..index] == lines[..index];
      assert dynamicRanges[..index + 1 - offset][..index - offset] == dynamicRanges[..index - offset];
      state := ClassicStep(state, lines[index], lines[index - 1], dynamicRanges[index - offset], factor);
    }
    assert lines[..|lines|] == lines && dynamicRanges[..|dynamicRanges|] == dynamicRanges;
    result := Some(ClassicResult(lines[|lines| - 1], state.trailing, lines[|lines| - 2], state.previousTrailing));
  }

  // ----- the enhanced form: a band over the last trend values -----

  datatype Signal = Up | Down | Neither

  datatype Enhanced = Enhanced(primaryLine: real, primaryTrend: real, secondaryLine: real, secondaryTrend: real,
                               bbUpper: real, bbLower: real, primaryHist: real, secondaryHist: real,
                               signal: Signal, zeroCross: Signal)

  function ModSignal(primaryHist: real, secondaryHist: real, upper: real, lower: real, threshold: real): Signal {
    if secondaryHist > threshold && primaryHist > upper then Up
    else if secondaryHist < -threshold && primaryHist < lower then Down else Neither
  }

  function ZeroCross(previous: real, current: real): Signal {
    if previous <= 50.0 && current > 50.0 then Up else if previous >= 50.0 && current < 50.0 then Down else Neither
  }

  /** Every value measured from the neutral 50. */
  function Centred(values: seq<real>): (r: seq<real>)
    ensures |r| == |values|
  {
    if values == [] then [] else Centred(values[..|values| - 1]) + [values[|values| - 1] - 50.0]
  }

  function EnhancedFrom(lines: seq<real>, window: seq<real>, primaryTrend: real, secondaryTrend: real, multiplier: real,
                        threshold: real, sqrt: real -> real): Enhanced
    requires 2 <= |lines| && window != []
  {
    var centred, n := Centred(window), |window|;
    var basis, deviation := Mean(centred, 0, n), sqrt(Variance(centred, 0, n));
    var upper, lower := basis + deviation * multiplier, basis - deviation * multiplier;
    var line, hist := lines[|lines| - 1], lines[|lines| - 1] - 50.0;
    Enhanced(line, primaryTrend, line, secondaryTrend, upper, lower, hist, hist,
             ModSignal(hist, hist, upper, lower, threshold), ZeroCross(lines[|lines| - 2], line))
  }

  /** The published enhanced values: defined once `bbPeriod` trend values exist. */
  function EnhancedValues(lines: seq<real>, ranges: seq<real>, primaryFactor: real, secondaryFactor: real, bbPeriod: nat,
                          multiplier: real, threshold: real, sqrt: real -> real): Option<Enhanced>
    requires ranges != [] ==> |ranges| < |lines|
    requires 1 <= bbPeriod
  {
    if |ranges| < bbPeriod then None
    else
      Some(EnhancedFrom(lines, Tail(TrendValues(lines, ranges, primaryFactor), bbPeriod),
                        TrendOf(lines, ranges, primaryFactor).value, TrendOf(lines, ranges, secondaryFactor).value,
                        multiplier, threshold, sqrt))
  }

  /** Mean and deviation of a window measured from 50, by the two loops both forms share. */
  method CentredBand(window: seq<real>, sqrt: real -> real) returns (basis: real, deviation: real)
    requires window != []
    ensures basis == Mean(Centred(window), 0, |window|) && deviation == sqrt(Variance(Centred(window), 0, |window|))
  {
    ghost var centred := Centred(window);
    basis := 0.0;
    for index := 0 to |window|
      invariant basis == RangeSum(centred, 0, index)
    {
      CentredAt(window, index);
      basis := basis + (window[index] - 50.0);
    }
    basis := basis / |window| as real;
    var variance := 0.0;
    for index := 0 to |window|
      invariant variance == RangeDevSq(centred, 0, index, basis)
    {
      CentredAt(window, index);
      var difference := window[index] - 50.0 - basis;
      variance := variance + Sq(difference);
    }
    deviation := sqrt(variance / |window| as real);
  }

  lemma {:induction false} CentredAt(values: seq<real>, i: nat)
    requires i < |values|
    ensures Centred(values)[i] == values[i] - 50.0
    decreases |values|
  {
    if i < |values| - 1 {
      CentredAt(values[..|values| - 1], i);
    }
  }

  lemma {:induction false} LastTrend(lines: seq<real>, ranges: seq<real>, factor: real)
    requires 1 <= |ranges| < |lines|
    ensures TrendValues(lines, ranges, factor)[|ranges| - 1] == TrendOf(lines, ranges, factor).value
  {
  }

  method QqeModEnhancedFromFoundation(lines: seq<real>, ranges: seq<real>, offset: int, primaryFactor: real, secondaryFactor: real,
                                      bbPeriod: int, multiplier: real, threshold: real, foundationOk: bool, sqrt: real -> real)
    returns (result: Option<Enhanced>)
    requires foundationOk ==> offset == |lines| - |ranges|
    ensures result.Some? <==>
              && foundationOk && primaryFactor > 0.0 && secondaryFactor > 0.0 && offset > 0
              && |ranges| >= 2 && 0 < bbPeriod <= |ranges|
    ensures result.Some? ==>
              result == EnhancedValues(lines, ranges, primaryFactor, secondaryFactor, bbPeriod, multiplier, threshold, sqrt)
  {
    hide TrendOf, TrendValues, Centred, Mean, Variance;
    if !foundationOk {
      return None;
    }
    var primary, okPrimary := TrendSeries(lines, ranges, offset, primaryFactor);
    var secondary, okSecondary := TrendSeries(lines, ranges, offset, secondaryFactor);
    if !okPrimary || !okSecondary || bbPeriod <= 0 || |primary| < bbPeriod || |lines| < 2 {
      return None;
    }
    var window := primary[|primary| - bbPeriod..];
    var basis, deviation := CentredBand(window, sqrt);
    var lastPrimary := lines[|lines| - 1];
    var hist := lastPrimary - 50.0;
    var upper, lower := basis + deviation * multiplier, basis - deviation * multiplier;
    var enhanced := Enhanced(lastPrimary, primary[|primary| - 1], lastPrimary, secondary[|secondary| - 1], upper, lower, hist, hist,
                             ModSignal(hist, hist, upper, lower, threshold), ZeroCross(lines[|lines| - 2], lastPrimary));
    assert enhanced == EnhancedFrom(lines, window, primary[|primary| - 1], secondary[|secondary| - 1], multiplier, threshold, sqrt);
    LastTrend(lines, ranges, primaryFactor);
    LastTrend(lines, ranges, secondaryFactor);
    assert window == Tail(primary, bbPeriod);
    result := Some(enhanced);
  }

  // ----- the batch composition from closes to published values -----

  function BatchClassic(closes: seq<real>, rsiPeriod: nat, smoothing: nat, factor: real): Option<ClassicResult>
    requires 1 <= rsiPeriod && 1 <= smoothing
  {
    var lines := Lines(closes, rsiPeriod, smoothing);
    if FoundationReady(RsiSeq(closes, rsiPeriod), rsiPeriod, smoothing) && factor > 0.0 && |lines| >= smoothing + 2
    then ClassicValues(lines, Ranges(lines, Wilders(rsiPeriod)), Wilders(rsiPeriod), factor)
    else None
  }

  method QqeMod(closes: seq<real>, rsiPeriod: nat, smoothing: nat, factor: real) returns (result: Option<ClassicResult>)
    requires 1 <= rsiPeriod && 1 <= smoothing
    ensures result == BatchClassic(closes, rsiPeriod, smoothing, factor)
  {
    hide EmaSeq, RsiSeq, Deltas, ClassicOf;
    RsiLength(closes, rsiPeriod);
    var rsiValues, rsiOk := RsiSeries(closes, rsiPeriod);
    var lines, ranges, offset, ok := Foundation(rsiValues, rsiOk, rsiPeriod, smoothing);
    result := QqeModFromFoundation(lines, ranges, rsiPeriod, smoothing, factor, ok);
  }

  lemma {:induction false} RsiLength(closes: seq<real>, period: nat)
    requires 1 <= period
    ensures |RsiSeq(closes, period)| == if |closes| <= period then 0 else |closes| - period
  {
  }

  lemma {:induction false} SeriesLengths(closes: seq<real>, rsiPeriod: nat, smoothing: nat)
    requires 1 <= rsiPeriod && 1 <= smoothing
    ensures var rsi, lines := RsiSeq(closes, rsiPeriod), Lines(closes, rsiPeriod, smoothing);
            && |rsi| == (if |closes| <= rsiPeriod then 0 else |closes| - rsiPeriod)
            && |lines| == (if |rsi| < smoothing then 0 else |rsi| - smoothing + 1)
            && |Ranges(lines, Wilders(rsiPeriod))| == (if |lines| <= Wilders(rsiPeriod) then 0 else |lines| - Wilders(rsiPeriod))
  {
    hide EmaOf, RsiOf;
  }

  function BatchEnhanced(closes: seq<real>, rsiPeriod: nat, smoothing: nat, primaryFactor: real, secondaryFactor: real, bbPeriod: nat,
                         multiplier: real, threshold: real, sqrt: real -> real): Option<Enhanced>
    requires 1 <= rsiPeriod && 1 <= smoothing && 1 <= bbPeriod
  {
    var lines := Lines(closes, rsiPeriod, smoothing);
    var ranges := Ranges(lines, Wilders(rsiPeriod));
    SeriesLengths(closes, rsiPeriod, smoothing);
    if FoundationReady(RsiSeq(closes, rsiPeriod), rsiPeriod, smoothing) && primaryFactor > 0.0 && secondaryFactor > 0.0
    then EnhancedValues(lines, ranges, primaryFactor, secondaryFactor, bbPeriod, multiplier, threshold, sqrt)
    else None
  }

  /** How many closes the classic values ask for, in all. */
  lemma {:induction false} ClassicExistsExactly(closes: seq<real>, rsiPeriod: nat, smoothing: nat, factor: real)
    requires 1 <= rsiPeriod && 1 <= smoothing
    ensures BatchClassic(closes, rsiPeriod, smoothing, factor).Some?
       <==> factor > 0.0 && |closes| >= rsiPeriod + 3 * smoothing && |closes| >= 5 * rsiPeriod + smoothing - 2
  {
    hide EmaSeq, RsiSeq, Deltas, ClassicOf;
    var lines := Lines(closes, rsiPeriod, smoothing);
    SeriesLengths(closes, rsiPeriod, smoothing);
    EmaLength(Ranges(lines, Wilders(rsiPeriod)), Wilders(rsiPeriod));
  }

  /** How many closes the enhanced values ask for, in all. */
  lemma {:induction false} EnhancedExistsExactly(closes: seq<real>, rsiPeriod: nat, smoothing: nat, primaryFactor: real, secondaryFactor: real,
        bbPeriod: nat, multiplier: real, threshold: real, sqrt: real -> real)
    requires 1 <= rsiPeriod && 1 <= smoothing && 1 <= bbPeriod
    ensures BatchEnhanced(closes, rsiPeriod, smoothing, primaryFactor, secondaryFactor, bbPeriod, multiplier, threshold, sqrt).Some?
       <==> primaryFactor > 0.0 && secondaryFactor > 0.0 && |closes| >= rsiPeriod + 3 * smoothing
            && |closes| >= 3 * rsiPeriod + smoothing && |closes| >= 3 * rsiPeriod + smoothing - 2 + bbPeriod
  {
    hide EmaSeq, RsiSeq, Deltas, TrendOf, TrendValues, EnhancedFrom;
    SeriesLengths(closes, rsiPeriod, smoothing);
  }

  /** The ranges a foundation computes are never negative. */
  lemma {:induction false} RangesNonNegative(lines: seq<real>, wilders: nat)
    requires 1 <= wilders
    ensures forall i :: 0 <= i < |Ranges(lines, wilders)| ==> Ranges(lines, wilders)[i] >= 0.0
  {
    DeltasNonNegative(lines);
    AveragesNonNegative(Deltas(lines), wilders);
  }

  lemma {:induction false} AveragesNonNegative(xs: seq<real>, period: nat)
    requires 1 <= period && forall i :: 0 <= i < |xs| ==> xs[i] >= 0.0
    ensures forall i :: 0 <= i < |EmaSeq(xs, period)| ==> EmaSeq(xs, period)[i] >= 0.0
    decreases |xs|
  {
    hide EmaOf;
    if |xs| >= period {
      EmaNonNegative(xs, period);
      AveragesNonNegative(xs[..|xs| - 1], period);
    }
  }

  method QqeModEnhanced(closes: seq<real>, rsiPeriod: nat, smoothing: nat, primaryFactor: real, secondaryFactor: real, bbPeriod: nat,
                        multiplier: real, threshold: real, sqrt: real -> real) returns (result: Option<Enhanced>)
    requires 1 <= rsiPeriod && 1 <= smoothing && 1 <= bbPeriod
    ensures result == BatchEnhanced(closes, rsiPeriod, smoothing, primaryFactor, secondaryFactor, bbPeriod, multiplier, threshold, sqrt)
  {
    hide EmaSeq, RsiSeq, Deltas, TrendOf, TrendValues, EnhancedFrom;
    SeriesLengths(closes, rsiPeriod, smoothing);
    var rsiValues, rsiOk := RsiSeries(closes, rsiPeriod);
    var lines, ranges, offset, ok := Foundation(rsiValues, rsiOk, rsiPeriod, smoothing);
    result := QqeModEnhancedFromFoundation(lines, ranges, offset, primaryFactor, secondaryFactor, bbPeriod, multiplier, threshold, ok, sqrt);
  }

  // ----- the bands ratchet -----

  /** A price seen from the long (up) or from the short side. */
  function Sided(up: bool, x: real): real {
    if up then x else -x
  }

  /** The band a line would start with. */
  function FreshBand(up: bool, line: real, range: real, factor: real): real {
    if up then line - range * factor else line + range * factor
  }

  /** Line k and the line before it stay beyond the band of the bar before; line k belongs to band k. */
  predicate StaysBeyond(up: bool, lines: seq<real>, bands: seq<real>, k: nat)
    requires 1 <= k < |bands| < |lines|
  {
    var off := |lines| - |bands|;
    && Sided(up, lines[off + k]) > Sided(up, bands[k - 1])
    && Sided(up, lines[off + k - 1]) > Sided(up, bands[k - 1])
  }

  /** The first of the bars up to k from which on every line stays beyond the band before. */
  ghost function StretchStart(up: bool, lines: seq<real>, bands: seq<real>, k: nat): (r: nat)
    requires k < |bands| < |lines|
    ensures r <= k && (r > 0 ==> !StaysBeyond(up, lines, bands, r))
    ensures forall j :: r < j <= k ==> StaysBeyond(up, lines, bands, j)
    decreases k
  {
    if k == 0 || !StaysBeyond(up, lines, bands, k) then k else StretchStart(up, lines, bands, k - 1)
  }

  /** Band k is the best fresh band of start..k: the largest on the long side, the smallest on the short side. */
  ghost predicate BestSince(up: bool, lines: seq<real>, ranges: seq<real>, factor: real, bands: seq<real>, start: nat, k: nat)
    requires start <= k < |bands| == |ranges| < |lines|
  {
    var off := |lines| - |bands|;
    && (forall j :: start <= j <= k ==> Sided(up, FreshBand(up, lines[off + j], ranges[j], factor)) <= Sided(up, bands[k]))
    && exists j :: start <= j <= k && bands[k] == FreshBand(up, lines[off + j], ranges[j], factor)
  }

  /** Every band is the best fresh band since its stretch began, so inside a stretch it never gives way. */
  ghost predicate Ratchets(up: bool, lines: seq<real>, ranges: seq<real>, factor: real, bands: seq<real>)
    requires |bands| == |ranges| < |lines|
  {
    && (forall k :: 0 <= k < |bands| ==> BestSince(up, lines, ranges, factor, bands, StretchStart(up, lines, bands, k), k))
    && forall k :: 1 <= k < |bands| && StaysBeyond(up, lines, bands, k) ==> Sided(up, bands[k]) >= Sided(up, bands[k - 1])
  }

  /** The band of a step: the better of the old and the fresh one while both lines stay beyond the old one, else the fresh one. */
  ghost predicate FollowsRule(up: bool, lines: seq<real>, bands: seq<real>, line: real, offered: real, band: real)
    requires |bands| < |lines|
  {
    var n := |bands|;
    if n > 0 && Sided(up, line) > Sided(up, bands[n - 1]) && Sided(up, lines[|lines| - 1]) > Sided(up, bands[n - 1])
    then Sided(up, band) == Max(Sided(up, bands[n - 1]), Sided(up, offered))
    else band == offered
  }

  /** One more band by that rule keeps all of that. */
  lemma {:induction false} RatchetSnoc(up: bool, lines: seq<real>, ranges: seq<real>, factor: real, bands: seq<real>, line: real, range: real, band: real)
    requires |bands| == |ranges| < |lines| && Ratchets(up, lines, ranges, factor, bands)
    requires FollowsRule(up, lines, bands, line, FreshBand(up, line, range, factor), band)
    ensures Ratchets(up, lines + [line], ranges + [range], factor, bands + [band])
  {
    hide FreshBand, Sided, BestSince, StaysBeyond, StretchStart, FollowsRule;
    var n, lines', ranges', bands' := |bands|, lines + [line], ranges + [range], bands + [band];
    forall k | 0 <= k < n
      ensures BestSince(up, lines', ranges', factor, bands', StretchStart(up, lines', bands', k), k)
      ensures k >= 1 && StaysBeyond(up, lines', bands', k) ==> Sided(up, bands'[k]) >= Sided(up, bands'[k - 1])
    {
      SameBand(up, lines, ranges, factor, bands, line, range, band, k);
    }
    assert lines'[..|lines|] == lines && bands'[..n] == bands;
    LastBand(up, lines', ranges', factor, bands');
  }

  lemma {:induction false} SameBand(up: bool, lines: seq<real>, ranges: seq<real>, factor: real, bands: seq<real>, line: real, range: real, band: real, k: nat)
    requires k < |bands| == |ranges| < |lines| && Ratchets(up, lines, ranges, factor, bands)
    ensures var lines', bands' := lines + [line], bands + [band];
            && BestSince(up, lines', ranges + [range], factor, bands', StretchStart(up, lines', bands', k), k)
            && (k >= 1 && StaysBeyond(up, lines', bands', k) ==> Sided(up, bands'[k]) >= Sided(up, bands'[k - 1]))
  {
    hide FreshBand, Sided, BestSince, StaysBeyond, StretchStart;
    SameStretch(up, lines, bands, line, band, k);
    SameBest(up, lines, ranges, factor, bands, line, range, band, StretchStart(up, lines, bands, k), k);
  }

  lemma {:induction false} LastBand(up: bool, lines: seq<real>, ranges: seq<real>, factor: real, bands: seq<real>)
    requires 1 <= |bands| == |ranges| < |lines|
    requires var n := |bands| - 1;
             && FollowsRule(up, lines[..|lines| - 1], bands[..n], lines[|lines| - 1], FreshBand(up, lines[|lines| - 1], ranges[n], factor), bands[n])
             && (n > 0 ==> BestSince(up, lines, ranges, factor, bands, StretchStart(up, lines, bands, n - 1), n - 1))
    ensures var n := |bands| - 1;
            && BestSince(up, lines, ranges, factor, bands, StretchStart(up, lines, bands, n), n)
            && (n > 0 && StaysBeyond(up, lines, bands, n) ==> Sided(up, bands[n]) >= Sided(up, bands[n - 1]))
  {
    hide FreshBand, Sided, BestSince;
    var n := |bands| - 1;
    if n > 0 && StaysBeyond(up, lines, bands, n) {
      SidedSame(up, bands[n], bands[n - 1]);
      SidedSame(up, bands[n], FreshBand(up, lines[|lines| - 1], ranges[n], factor));
      ExtendBest(up, lines, ranges, factor, bands, StretchStart(up, lines, bands, n - 1), n);
    } else {
      OneBest(up, lines, ranges, factor, bands, n);
    }
  }

  lemma {:induction false} OneBest(up: bool, lines: seq<real>, ranges: seq<real>, factor: real, bands: seq<real>, k: nat)
    requires k < |bands| == |ranges| < |lines| && bands[k] == FreshBand(up, lines[|lines| - |bands| + k], ranges[k], factor)
    ensures BestSince(up, lines, ranges, factor, bands, k, k)
  {
  }

  lemma {:induction false} SidedSame(up: bool, x: real, y: real)
    ensures Sided(up, x) == Sided(up, y) <==> x == y
  {
  }

  lemma {:induction false} SameStretch(up: bool, lines: seq<real>, bands: seq<real>, line: real, band: real, k: nat)
    requires k < |bands| < |lines|
    ensures StretchStart(up, lines + [line], bands + [band], k) == StretchStart(up, lines, bands, k)
    ensures k >= 1 ==> (StaysBeyond(up, lines + [line], bands + [band], k) <==> StaysBeyond(up, lines, bands, k))
    decreases k
  {
    hide Sided;
    assert |lines + [line]| - |bands + [band]| == |lines| - |bands|;
    if k > 0 {
      SameStretch(up, lines, bands, line, band, k - 1);
    }
  }

  lemma {:induction false} SameBest(up: bool, lines: seq<real>, ranges: seq<real>, factor: real, bands: seq<real>, line: real, range: real, band: real,
        start: nat, k: nat)
    requires start <= k < |bands| == |ranges| < |lines| && BestSince(up, lines, ranges, factor, bands, start, k)
    ensures BestSince(up, lines + [line], ranges + [range], factor, bands + [band], start, k)
  {
    hide FreshBand, Sided;
    var off := |lines| - |bands|;
    var j :| start <= j <= k && bands[k] == FreshBand(up, lines[off + j], ranges[j], factor);
    assert (bands + [band])[k] == FreshBand(up, (lines + [line])[off + j], (ranges + [range])[j], factor);
  }

  lemma {:induction false} ExtendBest(up: bool, lines: seq<real>, ranges: seq<real>, factor: real, bands: seq<real>, start: nat, k: nat)
    requires start < k < |bands| == |ranges| < |lines| && BestSince(up, lines, ranges, factor, bands, start, k - 1)
    requires var offered := FreshBand(up, lines[|lines| - |bands| + k], ranges[k], factor);
             && Sided(up, bands[k]) == Max(Sided(up, bands[k - 1]), Sided(up, offered))
             && (bands[k] == bands[k - 1] || bands[k] == offered)
    ensures BestSince(up, lines, ranges, factor, bands, start, k)
  {
    hide FreshBand, Sided;
    var off := |lines| - |bands|;
    var j :| start <= j <= k - 1 && bands[k - 1] == FreshBand(up, lines[off + j], ranges[j], factor);
    assert bands[k] == FreshBand(up, lines[off + (if bands[k] == bands[k - 1] then j else k)], ranges[if bands[k] == bands[k - 1] then j else k], factor);
  }

  /** The bands of every prefix, one side of them. */
  ghost function TrendBands(up: bool, lines: seq<real>, ranges: seq<real>, factor: real): (r: seq<real>)
    requires ranges != [] ==> |ranges| < |lines|
    ensures |r| == |ranges|
    ensures ranges != [] ==> var t := TrendOf(lines, ranges, factor); r[|r| - 1] == if up then t.longBand else t.shortBand
    decreases |ranges|
  {
    if ranges == [] then []
    else
      var t := TrendOf(lines, ranges, factor);
      TrendBands(up, lines[..|lines| - 1], ranges[..|ranges| - 1], factor) + [if up then t.longBand else t.shortBand]
  }

  ghost function ClassicBands(up: bool, lines: seq<real>, ranges: seq<real>, factor: real): (r: seq<real>)
    requires ranges != [] ==> |ranges| < |lines|
    ensures |r| == |ranges|
    ensures ranges != [] ==> var c := ClassicOf(lines, ranges, factor); r[|r| - 1] == if up then c.longBand else c.shortBand
    decreases |ranges|
  {
    if ranges == [] then []
    else
      var c := ClassicOf(lines, ranges, factor);
      ClassicBands(up, lines[..|lines| - 1], ranges[..|ranges| - 1], factor) + [if up then c.longBand else c.shortBand]
  }

  lemma {:induction false} NothingRatchets(up: bool, lines: seq<real>, factor: real)
    requires lines != []
    ensures Ratchets(up, lines, [], factor, [])
  {
  }

  /** Both bands of every trend ratchet. */
  lemma {:induction false} TrendRatchets(up: bool, lines: seq<real>, ranges: seq<real>, factor: real)
    requires 1 <= |ranges| < |lines|
    ensures Ratchets(up, lines, ranges, factor, TrendBands(up, lines, ranges, factor))
    decreases |ranges|
  {
    hide Ratchets, FreshBand;
    var n := |ranges| - 1;
    var before, shorter := lines[..|lines| - 1], ranges[..n];
    assert before + [lines[|lines| - 1]] == lines && shorter + [ranges[n]] == ranges;
    if n > 0 {
      TrendRatchets(up, before, shorter, factor);
    } else {
      NothingRatchets(up, before, factor);
    }
    TrendBandStep(up, lines, ranges, factor);
    RatchetSnoc(up, before, shorter, factor, TrendBands(up, before, shorter, factor), lines[|lines| - 1], ranges[n],
                TrendBands(up, lines, ranges, factor)[n]);
  }

  lemma {:induction false} TrendBandStep(up: bool, lines: seq<real>, ranges: seq<real>, factor: real)
    requires 1 <= |ranges| < |lines|
    ensures var n, line, before := |ranges| - 1, lines[|lines| - 1], TrendBands(up, lines[..|lines| - 1], ranges[..|ranges| - 1], factor);
            var band := TrendBands(up, lines, ranges, factor)[n];
            && TrendBands(up, lines, ranges, factor) == before + [band]
            && FollowsRule(up, lines[..|lines| - 1], before, line, FreshBand(up, line, ranges[n], factor), band)
  {
  }

  /** Both bands of the classic trailing stop ratchet. */
  lemma {:induction false} ClassicRatchets(up: bool, lines: seq<real>, ranges: seq<real>, factor: real)
    requires 1 <= |ranges| < |lines|
    ensures Ratchets(up, lines, ranges, factor, ClassicBands(up, lines, ranges, factor))
    decreases |ranges|
  {
    hide Ratchets, FreshBand;
    var n := |ranges| - 1;
    var before, shorter := lines[..|lines| - 1], ranges[..n];
    assert before + [lines[|lines| - 1]] == lines && shorter + [ranges[n]] == ranges;
    if n > 0 {
      ClassicRatchets(up, before, shorter, factor);
    } else {
      NothingRatchets(up, before, factor);
    }
    ClassicBandStep(up, lines, ranges, factor);
    RatchetSnoc(up, before, shorter, factor, ClassicBands(up, before, shorter, factor), lines[|lines| - 1], ranges[n],
                ClassicBands(up, lines, ranges, factor)[n]);
  }

  lemma {:induction false} ClassicBandStep(up: bool, lines: seq<real>, ranges: seq<real>, factor: real)
    requires 1 <= |ranges| < |lines|
    ensures var n, line, before := |ranges| - 1, lines[|lines| - 1], ClassicBands(up, lines[..|lines| - 1], ranges[..|ranges| - 1], factor);
            var band := ClassicBands(up, lines, ranges, factor)[n];
            && ClassicBands(up, lines, ranges, factor) == before + [band]
            && FollowsRule(up, lines[..|lines| - 1], before, line, FreshBand(up, line, ranges[n], factor), band)
  {
  }

  /**
   * The direction turns exactly when the line crosses the band of the bar before, upwards
   * through the short one or downwards through the long one, and the value is the band behind it.
   */
  lemma {:induction false} TrendTurnsOnCross(lines: seq<real>, ranges: seq<real>, factor: real)
    requires 2 <= |ranges| < |lines|
    ensures var before, t := TrendOf(lines[..|lines| - 1], ranges[..|ranges| - 1], factor), TrendOf(lines, ranges, factor);
            var line, previous := lines[|lines| - 1], lines[|lines| - 2];
            && (t.direction == 1 || t.direction == -1)
            && (t.direction == 1 <==> (previous <= before.shortBand < line) || (before.direction == 1 && !(line < before.longBand <= previous)))
            && t.value == (if t.direction == 1 then t.longBand else t.shortBand)
    decreases |ranges|
  {
    if |ranges| > 2 {
      TrendTurnsOnCross(lines[..|lines| - 1], ranges[..|ranges| - 1], factor);
    }
  }

  /** The published classic values: the line and the long band, now and one bar before. */
  lemma {:induction false} ClassicPublishesLongBand(lines: seq<real>, ranges: seq<real>, wilders: nat, factor: real)
    requires 1 <= wilders && ClassicValues(lines, ranges, wilders, factor).Some?
    ensures var dynamic, r := EmaSeq(ranges, wilders), ClassicValues(lines, ranges, wilders, factor).value;
            && 2 <= |dynamic| < |lines|
            && r.line == lines[|lines| - 1] && r.previousLine == lines[|lines| - 2]
            && var bands := ClassicBands(true, lines, dynamic, factor);
               r.trailing == bands[|bands| - 1] && r.previousTrailing == bands[|bands| - 2]
  {
    hide EmaSeq;
    var dynamic := EmaSeq(ranges, wilders);
    var before, shorter := lines[..|lines| - 1], dynamic[..|dynamic| - 1];
    ClassicNeverFlips(lines, dynamic, factor);
    ClassicNeverFlips(before, shorter, factor);
    assert ClassicBands(true, lines, dynamic, factor) == ClassicBands(true, before, shorter, factor) + [ClassicOf(lines, dynamic, factor).longBand];
  }

  /**
   * The published enhanced values: the last line, the two trailing values, a band symmetric
   * around the mean of the last trailing values, and signals that ask for both histograms.
   */
  lemma {:induction false} EnhancedMeans(lines: seq<real>, window: seq<real>, primaryTrend: real, secondaryTrend: real, multiplier: real,
        threshold: real, sqrt: real -> real)
    requires 2 <= |lines| && window != []
    ensures var e, line, previous := EnhancedFrom(lines, window, primaryTrend, secondaryTrend, multiplier, threshold, sqrt),
                                   lines[|lines| - 1], lines[|lines| - 2];
            && e.primaryLine == e.secondaryLine == line && e.primaryHist == e.secondaryHist == line - 50.0
            && e.primaryTrend == primaryTrend && e.secondaryTrend == secondaryTrend
            && e.bbUpper + e.bbLower == 2.0 * (Mean(window, 0, |window|) - 50.0)
            && e.bbUpper - e.bbLower == 2.0 * (sqrt(Variance(window, 0, |window|)) * multiplier)
            && (e.signal == Up <==> line - 50.0 > threshold && line - 50.0 > e.bbUpper)
            && (e.signal == Down <==> line - 50.0 < -threshold && line - 50.0 < e.bbLower && (line - 50.0 <= threshold || line - 50.0 <= e.bbUpper))
            && (e.zeroCross == Up <==> previous <= 50.0 < line) && (e.zeroCross == Down <==> line < 50.0 <= previous)
  {
    hide Mean, Variance, Centred;
    CentredMoments(window);
    var centred := Centred(window);
    assert |centred| == |window|;
    assert sqrt(Variance(centred, 0, |centred|)) == sqrt(Variance(window, 0, |window|));
  }

  /** Measuring from 50 moves the mean and leaves the variance. */
  lemma {:induction false} CentredMoments(window: seq<real>)
    requires window != []
    ensures Mean(Centred(window), 0, |window|) == Mean(window, 0, |window|) - 50.0
    ensures Variance(Centred(window), 0, |window|) == Variance(window, 0, |window|)
  {
    hide RangeSum, RangeDevSq;
    var n, centred := |window|, Centred(window);
    CentredSum(window, n);
    MeanShifts(RangeSum(window, 0, n), n as real);
    CentredSquares(window, n, Mean(window, 0, n));
  }

  lemma {:induction false} ZeroFactor(x: real, n: real)
    requires n > 0.0 && x * n == 0.0
    ensures x == 0.0
  {
  }

  lemma {:induction false} MeanShifts(sum: real, n: real)
    requires n > 0.0
    ensures (sum - 50.0 * n) / n == sum / n - 50.0
  {
    var q, r := sum / n, (sum - 50.0 * n) / n;
    assert q * n == sum && r * n == sum - 50.0 * n;
    assert (r - q + 50.0) * n == r * n - q * n + 50.0 * n;
    ZeroFactor(r - q + 50.0, n);
  }

  lemma {:induction false} CentredSum(window: seq<real>, n: nat)
    requires n <= |window|
    ensures RangeSum(Centred(window), 0, n) == RangeSum(window, 0, n) - 50.0 * n as real
    decreases n
  {
    hide Centred;
    if n > 0 {
      CentredSum(window, n - 1);
      CentredAt(window, n - 1);
    }
  }

  lemma {:induction false} CentredSquares(window: seq<real>, n: nat, centre: real)
    requires n <= |window|
    ensures RangeDevSq(Centred(window), 0, n, centre - 50.0) == RangeDevSq(window, 0, n, centre)
    decreases n
  {
    hide Centred, Sq;
    if n > 0 {
      CentredSquares(window, n - 1, centre);
      CentredAt(window, n - 1);
    }
  }

  // ----- what the strength says -----

  /** Wilder's average over a period: the first is plain, each next one gives the new difference one part in `period`. */
  lemma {:induction false} AverageMeans(closes: seq<real>, period: nat)
    requires 1 <= period < |closes|
    ensures var rise, gain, loss := closes[|closes| - 1] - closes[|closes| - 2], Average(closes, period, true), Average(closes, period, false);
            && gain >= 0.0 && loss >= 0.0
            && (|closes| == period + 1 ==> (gain - loss) * period as real == closes[period] - closes[0])
            && (|closes| > period + 1 ==>
                  var before := closes[..|closes| - 1];
                  && period as real * gain == (period - 1) as real * Average(before, period, true) + (if rise > 0.0 then rise else 0.0)
                  && period as real * loss == (period - 1) as real * Average(before, period, false) + (if rise < 0.0 then -rise else 0.0))
    decreases |closes|
  {
    if |closes| == period + 1 {
      PlainAverages(closes, period);
    } else {
      AverageMeans(closes[..|closes| - 1], period);
      NextAverages(closes, period);
    }
  }

  lemma {:induction false} PlainAverages(closes: seq<real>, period: nat)
    requires 1 <= period && |closes| == period + 1
    ensures var gain, loss := Average(closes, period, true), Average(closes, period, false);
            gain >= 0.0 && loss >= 0.0 && (gain - loss) * period as real == closes[period] - closes[0]
  {
    hide Total;
    TotalsTelescope(closes);
    FirstAverages(Total(closes, true), Total(closes, false), period as real);
  }

  lemma {:induction false} NextAverages(closes: seq<real>, period: nat)
    requires 1 <= period && period + 1 < |closes|
    requires var before := closes[..|closes| - 1]; Average(before, period, true) >= 0.0 && Average(before, period, false) >= 0.0
    ensures var rise, gain, loss := closes[|closes| - 1] - closes[|closes| - 2], Average(closes, period, true), Average(closes, period, false);
            var before := closes[..|closes| - 1];
            && gain >= 0.0 && loss >= 0.0
            && period as real * gain == (period - 1) as real * Average(before, period, true) + (if rise > 0.0 then rise else 0.0)
            && period as real * loss == (period - 1) as real * Average(before, period, false) + (if rise < 0.0 then -rise else 0.0)
  {
    hide Total, Smoothed;
    var before, rise := closes[..|closes| - 1], closes[|closes| - 1] - closes[|closes| - 2];
    SmoothedMeans(Average(before, period, true), GainOf(rise), period);
    SmoothedMeans(Average(before, period, false), LossOf(rise), period);
  }

  lemma {:induction false} FirstAverages(gains: real, losses: real, n: real)
    requires n > 0.0 && gains >= 0.0 && losses >= 0.0
    ensures gains / n >= 0.0 && losses / n >= 0.0 && (gains / n - losses / n) * n == gains - losses
  {
    QuotientTimes(gains, n);
    QuotientTimes(losses, n);
  }

  lemma {:induction false} TotalsTelescope(closes: seq<real>)
    requires closes != []
    ensures Total(closes, true) >= 0.0 && Total(closes, false) >= 0.0
    ensures Total(closes, true) - Total(closes, false) == closes[|closes| - 1] - closes[0]
    decreases |closes|
  {
    if |closes| >= 2 {
      TotalsTelescope(closes[..|closes| - 1]);
    }
  }

  lemma {:induction false} QuotientTimes(x: real, n: real)
    requires n > 0.0
    ensures x / n * n == x && (x >= 0.0 ==> x / n >= 0.0)
  {
  }

  lemma {:induction false} SmoothedMeans(previous: real, next: real, period: nat)
    requires 1 <= period && previous >= 0.0 && next >= 0.0
    ensures Smoothed(previous, next, period) >= 0.0
    ensures period as real * Smoothed(previous, next, period) == (period - 1) as real * previous + next
  {
    var total, n := previous * (period - 1) as real + next, period as real;
    QuotientTimes(total, n);
    assert previous * (period - 1) as real >= 0.0;
  }

  /** The strength is the share of the gains in all movement, in percent: 100 when nothing fell. */
  lemma {:induction false} StrengthIsShareOfGains(closes: seq<real>, period: nat)
    requires 1 <= period < |closes|
    ensures var r, gain, loss := RsiOf(closes, period), Average(closes, period, true), Average(closes, period, false);
            && 0.0 <= r <= 100.0 && (loss == 0.0 ==> r == 100.0) && (loss > 0.0 ==> r * (gain + loss) == 100.0 * gain)
  {
    hide Average;
    AverageMeans(closes, period);
    ShareOfGains(Average(closes, period, true), Average(closes, period, false));
  }

  lemma {:induction false} ShareOfGains(gain: real, loss: real)
    requires gain >= 0.0 && loss >= 0.0
    ensures var r := RsiFromAverages(gain, loss);
            0.0 <= r <= 100.0 && (loss == 0.0 ==> r == 100.0) && (loss > 0.0 ==> r * (gain + loss) == 100.0 * gain)
  {
    if loss > 0.0 {
      var q := gain / loss;
      assert q * loss == gain && q >= 0.0;
      var inverse := 100.0 / (1.0 + q);
      assert inverse * (1.0 + q) == 100.0;
      assert inverse * ((1.0 + q) * loss) == 100.0 * loss;
      assert (1.0 + q) * loss == gain + loss;
      InverseBounds(q);
    }
  }

  lemma {:induction false} InverseBounds(q: real)
    requires q >= 0.0
    ensures 0.0 <= 100.0 / (1.0 + q) <= 100.0
  {
  }

  /** Close i does not go back on a way up, or on a way down. */
  ghost predicate Onward(closes: seq<real>, up: bool, i: nat)
    requires 1 <= i < |closes|
  {
    if up then closes[i - 1] <= closes[i] else closes[i] <= closes[i - 1]
  }

  /** Closes that only rise have no losses, and closes that only fall no gains: strength 100 and 0. */
  lemma {:induction false} StrengthOfOneWay(closes: seq<real>, period: nat, up: bool)
    requires 1 <= period < |closes| && forall i :: 1 <= i < |closes| ==> Onward(closes, up, i)
    ensures Average(closes, period, !up) == 0.0
    ensures up ==> RsiOf(closes, period) == 100.0
    ensures !up && Average(closes, period, false) > 0.0 ==> RsiOf(closes, period) == 0.0
  {
    hide Average, RsiFromAverages, RsiOf;
    NothingAgainst(closes, period, up);
    StrengthIsShareOfGains(closes, period);
    var r, loss := RsiOf(closes, period), Average(closes, period, false);
    if !up && loss > 0.0 {
      ZeroShare(r, loss);
    }
  }

  lemma {:induction false} ZeroShare(r: real, loss: real)
    requires loss > 0.0 && r * (0.0 + loss) == 100.0 * 0.0
    ensures r == 0.0
  {
    assert r == r * loss / loss;
  }

  lemma {:induction false} NothingAgainst(closes: seq<real>, period: nat, up: bool)
    requires 1 <= period < |closes| && forall i :: 1 <= i < |closes| ==> Onward(closes, up, i)
    ensures Average(closes, period, !up) == 0.0
    decreases |closes|
  {
    hide Total, Smoothed;
    assert Onward(closes, up, |closes| - 1);
    if |closes| == period + 1 {
      NoneAgainst(closes, up);
      assert 0.0 / period as real == 0.0;
    } else {
      var before := closes[..|closes| - 1];
      forall i | 1 <= i < |before| ensures Onward(before, up, i) {
        assert Onward(closes, up, i);
      }
      NothingAgainst(before, period, up);
      SmoothedNothing(period);
    }
  }

  lemma {:induction false} SmoothedNothing(period: nat)
    requires 1 <= period
    ensures Smoothed(0.0, 0.0, period) == 0.0
  {
  }

  lemma {:induction false} NoneAgainst(closes: seq<real>, up: bool)
    requires forall i :: 1 <= i < |closes| ==> Onward(closes, up, i)
    ensures Total(closes, !up) == 0.0
    decreases |closes|
  {
    if |closes| >= 2 {
      var before := closes[..|closes| - 1];
      forall i | 1 <= i < |before| ensures Onward(before, up, i) {
        assert Onward(closes, up, i);
      }
      NoneAgainst(before, up);
      assert Onward(closes, up, |closes| - 1);
    }
  }

  /** The averaged changes start from the distances between neighbouring lines. */
  lemma {:induction false} DeltasAre(lines: seq<real>, i: nat)
    requires 1 <= i < |lines|
    ensures var d := Deltas(lines)[i - 1]; d >= 0.0 && (lines[i] == lines[i - 1] + d || lines[i] == lines[i - 1] - d)
    decreases |lines|
  {
    if i < |lines| - 1 {
      DeltasAre(lines[..|lines| - 1], i);
    }
  }
}
