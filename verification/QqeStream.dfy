/** The QQE indicator fed close by close, against the batch composition of the Qqe module. */
module QqeStream {
  import opened Numeric
  import opened IndicatorMath
  import opened TailBuffer
  import opened StreamEma
  import opened Qqe

  const RSI_PERIOD: nat := 6
  const SMOOTHING: nat := 5
  const WILDERS: nat := 11
  const TREND_WINDOW: nat := 50

  /** The trailing trend of one factor. */
  class TrendTracker {
    const factor: real
    var longBand: real
    var shortBand: real
    var direction: int
    var value: real
    var initialized: bool

    function State(): Trend
      reads this
    {
      Trend(longBand, shortBand, direction, value)
    }

    ghost predicate Follows(lines: seq<real>, ranges: seq<real>)
      reads this
    {
      && (initialized <==> ranges != [])
      && (ranges != [] ==> |ranges| < |lines| && State() == TrendOf(lines, ranges, factor))
    }

    constructor (factor: real)
      ensures this.factor == factor && Follows([], [])
    {
      this.factor := factor;
      longBand, shortBand, direction, value, initialized := 0.0, 0.0, 0, 0.0, false;
    }

    method Append(line: real, previousLine: real, rangeValue: real)
      modifies this
      ensures initialized
      ensures State() == if old(initialized) then TrendStep(old(State()), line, previousLine, rangeValue, factor)
                         else TrendStart(line, rangeValue, factor)
    {
      var newLongBand := line - rangeValue * factor;
      var newShortBand := line + rangeValue * factor;
      if !initialized {
        longBand, shortBand := newLongBand, newShortBand;
        direction := 1;
        value := longBand;
        initialized := true;
        return;
      }
      var previousLongBand, previousShortBand := longBand, shortBand;
      longBand := if previousLine > previousLongBand && line > previousLongBand then Max(previousLongBand, newLongBand) else newLongBand;
      shortBand := if previousLine < previousShortBand && line < previousShortBand then Min(previousShortBand, newShortBand) else newShortBand;
      if CrossesAbove(previousLine, line, previousShortBand) {
        direction := 1;
      } else if CrossesBelow(previousLine, line, previousLongBand) {
        direction := -1;
      }
      value := if direction == 1 then longBand else shortBand;
    }

    /** One more line and one more range. */
    method Follow(line: real, previousLine: real, rangeValue: real, ghost lines: seq<real>, ghost ranges: seq<real>)
      requires Follows(lines, ranges) && lines != [] && previousLine == lines[|lines| - 1] && |ranges| < |lines|
      requires factor > 0.0 && rangeValue >= 0.0
      modifies this
      ensures Follows(lines + [line], ranges + [rangeValue])
    {
      hide TrendStart, TrendStep;
      FirstStepIsStart(line, previousLine, rangeValue, factor);
      assert (lines + [line])[..|lines|] == lines && (ranges + [rangeValue])[..|ranges|] == ranges;
      Append(line, previousLine, rangeValue);
    }
  }

  /** The classic trailing stop; published from its second update on. */
  class ClassicTracker {
    const factor: real
    var longBand: real
    var shortBand: real
    var trend: int
    var trailing: real
    var previousTrailing: real
    var initialized: bool
    var ready: bool

    function State(): Classic
      reads this
    {
      Classic(longBand, shortBand, trend, trailing, previousTrailing)
    }

    ghost predicate Follows(lines: seq<real>, ranges: seq<real>)
      reads this
    {
      && (initialized <==> ranges != []) && (ready <==> |ranges| >= 2)
      && (ranges != [] ==> |ranges| < |lines| && State() == ClassicOf(lines, ranges, factor))
    }

    constructor (factor: real)
      ensures this.factor == factor && Follows([], [])
    {
      this.factor := factor;
      longBand, shortBand, trend, trailing, previousTrailing, initialized, ready := 0.0, 0.0, 0, 0.0, 0.0, false, false;
    }

    method Append(line: real, previousLine: real, dynamicRange: real)
      modifies this
      ensures initialized && ready == old(initialized || ready)
      ensures State() == if old(initialized) then ClassicStep(old(State()), line, previousLine, dynamicRange, factor)
                         else ClassicStart(line, dynamicRange, factor)
    {
      var newLongBand := line - dynamicRange * factor;
      var newShortBand := line + dynamicRange * factor;
      if !initialized {
        longBand, shortBand := newLongBand, newShortBand;
        trend := 1;
        trailing := longBand;
        previousTrailing := trailing;
        initialized := true;
        return;
      }
      longBand := if previousLine > longBand && line > longBand then Max(longBand, newLongBand) else newLongBand;
      shortBand := if previousLine < shortBand && line < shortBand then Min(shortBand, newShortBand) else newShortBand;
      trend := if line > shortBand then 1 else if line < longBand then -1 else trend;
      previousTrailing := trailing;
      trailing := if trend == 1 then longBand else shortBand;
      ready := true;
    }

    method Follow(line: real, previousLine: real, dynamicRange: real, ghost lines: seq<real>, ghost ranges: seq<real>)
      requires Follows(lines, ranges) && lines != [] && previousLine == lines[|lines| - 1] && |ranges| < |lines|
      modifies this
      ensures Follows(lines + [line], ranges + [dynamicRange])
    {
      hide ClassicStart, ClassicStep;
      assert (lines + [line])[..|lines|] == lines && (ranges + [dynamicRange])[..|ranges|] == ranges;
      Append(line, previousLine, dynamicRange);
    }
  }

  // ----- the whole pipeline -----

  class StreamQqe {
    var rsiCount: nat
    var averageGain: real
    var averageLoss: real
    var rsiReady: bool
    const smoothed: StreamEmaState
    const delta: StreamEmaState
    const dynamicRange: StreamEmaState
    var previousSmooth: real
    var hasSmooth: bool
    const classic: ClassicTracker
    const primary: TrendTracker
    const secondary: TrendTracker
    const primaryTrends: array<real>
    var trendCount: nat
    ghost var closes: seq<real>

    /** The parts are separate objects with the fixed parameters of the stream. */
    ghost predicate Shape() {
      && smoothed.period == SMOOTHING && delta.period == WILDERS && dynamicRange.period == WILDERS
      && smoothed != delta && smoothed != dynamicRange && delta != dynamicRange
      && smoothed.history != delta.history && smoothed.history != dynamicRange.history && delta.history != dynamicRange.history
      && primaryTrends != smoothed.history && primaryTrends != delta.history && primaryTrends != dynamicRange.history
      && primaryTrends.Length == TREND_WINDOW && primary != secondary
      && primary.factor == 3.0 && secondary.factor == 1.61 && classic.factor == 3.0
    }

    ghost predicate RsiHeld()
      reads `rsiCount, `averageGain, `averageLoss, `rsiReady, `closes
    {
      && (rsiReady <==> |closes| > RSI_PERIOD)
      && (!rsiReady ==> |closes| != 1 && rsiCount == (if closes == [] then 0 else |closes| - 1)
                        && averageGain == Total(closes, true) && averageLoss == Total(closes, false))
      && (rsiReady ==> averageGain == Average(closes, RSI_PERIOD, true) && averageLoss == Average(closes, RSI_PERIOD, false))
    }

    ghost predicate LineHeld(lines: seq<real>)
      reads `previousSmooth, `hasSmooth
    {
      && (hasSmooth <==> lines != [])
      && (hasSmooth ==> previousSmooth == lines[|lines| - 1])
    }

    ghost predicate TrendsHeld(lines: seq<real>, ranges: seq<real>)
      reads primary, secondary, `trendCount, primaryTrends
    {
      && primary.Follows(lines, ranges) && secondary.Follows(lines, ranges)
      && (ranges != [] ==> |ranges| < |lines|)
      && trendCount <= primaryTrends.Length
      && primaryTrends[..trendCount] == Tail(TrendValues(lines, ranges, 3.0), TREND_WINDOW)
    }

    ghost predicate TrackersFollow(lines: seq<real>)
      reads `previousSmooth, `hasSmooth, `trendCount, delta, delta.history, dynamicRange, dynamicRange.history
      reads classic, primary, secondary, primaryTrends
    {
      && LineHeld(lines)
      && delta.Valid() && delta.seen == Deltas(lines)
      && TrendsHeld(lines, delta.averages)
      && dynamicRange.Valid() && dynamicRange.seen == delta.averages
      && classic.Follows(lines, dynamicRange.averages)
    }

    /** Every part holds what the batch composition says about the closes so far. */
    ghost predicate Valid()
      reads this, smoothed, smoothed.history, delta, delta.history, dynamicRange, dynamicRange.history
      reads classic, primary, secondary, primaryTrends
    {
      && Shape() && RsiHeld()
      && smoothed.Valid() && smoothed.seen == RsiSeq(closes, RSI_PERIOD)
      && TrackersFollow(smoothed.averages)
    }

    constructor ()
      ensures Valid() && closes == []
      ensures fresh(smoothed) && fresh(smoothed.history) && fresh(delta) && fresh(delta.history)
      ensures fresh(dynamicRange) && fresh(dynamicRange.history)
      ensures fresh(classic) && fresh(primary) && fresh(secondary) && fresh(primaryTrends)
    {
      hide StreamEmaState.Valid, TrendTracker.Follows, ClassicTracker.Follows, Valid;
      rsiCount, averageGain, averageLoss, rsiReady := 0, 0.0, 0.0, false;
      smoothed := new StreamEmaState(SMOOTHING);
      delta := new StreamEmaState(WILDERS);
      dynamicRange := new StreamEmaState(WILDERS);
      previousSmooth, hasSmooth := 0.0, false;
      classic := new ClassicTracker(3.0);
      primary := new TrendTracker(3.0);
      secondary := new TrendTracker(1.61);
      primaryTrends := new real[TREND_WINDOW](_ => 0.0);
      trendCount := 0;
      closes := [];
      new;
      Begins();
    }

    /** Parts that have seen nothing hold what no closes give. */
    lemma {:induction false} Begins()
      requires Shape() && closes == [] && rsiCount == 0 && averageGain == 0.0 && averageLoss == 0.0 && !rsiReady
      requires smoothed.Valid() && smoothed.seen == [] == smoothed.averages
      requires delta.Valid() && delta.seen == [] == delta.averages
      requires dynamicRange.Valid() && dynamicRange.seen == [] == dynamicRange.averages
      requires !hasSmooth && trendCount == 0
      requires classic.Follows([], []) && primary.Follows([], []) && secondary.Follows([], [])
      ensures Valid()
    {
      hide StreamEmaState.Valid, TrendTracker.Follows, ClassicTracker.Follows, TrendValues, RsiSeq, Deltas, Total, Average, Tail;
      NothingSeen();
    }

    /** The strength stage: the averages move, and from the sixth difference on they have a strength. */
    method AppendDifference(previousClose: real, close: real)
      requires RsiHeld() && (closes != [] ==> closes[|closes| - 1] == previousClose)
      modifies `rsiCount, `averageGain, `averageLoss, `rsiReady, `closes
      ensures RsiHeld() && closes == (if old(closes) == [] then [previousClose] else old(closes)) + [close]
    {
      hide Smoothed;
      ghost var before := if closes == [] then [previousClose] else closes;
      ghost var after := before + [close];
      assert after[..|after| - 1] == before;
      assert Total([previousClose], true) == 0.0 && Total([previousClose], false) == 0.0;
      var difference := close - previousClose;
      if !rsiReady {
        if difference >= 0.0 {
          averageGain := averageGain + difference;
        } else {
          averageLoss := averageLoss - difference;
        }
        rsiCount := rsiCount + 1;
        closes := after;
        if rsiCount < RSI_PERIOD {
          return;
        }
        averageGain := averageGain / RSI_PERIOD as real;
        averageLoss := averageLoss / RSI_PERIOD as real;
        rsiReady := true;
      } else {
        averageGain := Smoothed(averageGain, GainOf(difference), RSI_PERIOD);
        averageLoss := Smoothed(averageLoss, LossOf(difference), RSI_PERIOD);
        closes := after;
      }
    }

    /** Feed one close; consecutive calls must chain. */
    method Append(previousClose: real, close: real)
      requires Valid() && (closes != [] ==> closes[|closes| - 1] == previousClose)
      modifies this, smoothed, smoothed.history, delta, delta.history, dynamicRange, dynamicRange.history
      modifies classic, primary, secondary, primaryTrends
      ensures Valid() && closes == (if old(closes) == [] then [previousClose] else old(closes)) + [close]
    {
      hide RsiFromAverages, Average, RsiSeq, Total, EmaSeq, StreamEmaState.Valid;
      hide TrackersFollow, Deltas;
      ghost var before, lines := if closes == [] then [previousClose] else closes, smoothed.averages;
      RsiStep(before, close);
      RsiNone(closes, previousClose);
      AppendDifference(previousClose, close);
      if !rsiReady {
        return;
      }
      smoothed.Append(RsiFromAverages(averageGain, averageLoss));
      if !smoothed.ready {
        return;
      }
      AppendLine(smoothed.value, lines);
    }

    /** The published classic values are the batch values of the closes so far. */
    method ClassicValue() returns (result: Option<ClassicResult>)
      requires Valid()
      ensures result == BatchClassic(closes, 6, 5, 3.0)
    {
      hide EmaSeq, RsiSeq, Deltas, ClassicOf, TrendValues, TrendOf;
      AveragesOf(smoothed);
      AveragesOf(delta);
      AveragesOf(dynamicRange);
      ClassicReady(closes);
      if !classic.ready {
        return None;
      }
      result := Some(ClassicResult(smoothed.value, classic.trailing, smoothed.previous, classic.previousTrailing));
    }

    /** The published enhanced values are the batch values of the closes so far. */
    method EnhancedValue(sqrt: real -> real) returns (result: Option<Enhanced>)
      requires Valid()
      ensures result == BatchEnhanced(closes, 6, 5, 3.0, 1.61, 50, 0.35, 3.0, sqrt)
    {
      hide EmaSeq, RsiSeq, Deltas, ClassicOf, TrendValues, TrendOf, Centred, Mean, Variance;
      AveragesOf(smoothed);
      AveragesOf(delta);
      EnhancedReady(closes);
      TrendCount(smoothed.averages, delta.averages);
      if trendCount < primaryTrends.Length || !primary.initialized || !secondary.initialized || !smoothed.hasPrevious {
        return None;
      }
      var window := primaryTrends[..];
      assert window == primaryTrends[..trendCount];
      var basis, deviation := CentredBand(window, sqrt);
      var line, previousLine := smoothed.value, smoothed.previous;
      var upper, lower := basis + deviation * 0.35, basis - deviation * 0.35;
      var enhanced := Enhanced(line, primary.value, line, secondary.value, upper, lower, line - 50.0, line - 50.0,
                               ModSignal(line - 50.0, line - 50.0, upper, lower, 3.0), ZeroCross(previousLine, line));
      assert enhanced == EnhancedFrom(smoothed.averages, window, primary.value, secondary.value, 0.35, 3.0, sqrt);
      result := Some(enhanced);
    }

    /** The band stages, reached once the averaged change exists. */
    method AppendRange(line: real, previousLine: real, rangeValue: real, ghost lines: seq<real>, ghost ranges: seq<real>)
      requires Shape() && lines != [] && previousLine == lines[|lines| - 1] && |ranges| < |lines| && rangeValue >= 0.0
      requires TrendsHeld(lines, ranges) && dynamicRange.Valid() && dynamicRange.seen == ranges
      requires classic.Follows(lines, dynamicRange.averages)
      modifies `trendCount, dynamicRange, dynamicRange.history, classic, primary, secondary, primaryTrends
      ensures TrendsHeld(lines + [line], ranges + [rangeValue])
      ensures dynamicRange.Valid() && dynamicRange.seen == ranges + [rangeValue]
      ensures classic.Follows(lines + [line], dynamicRange.averages)
    {
      hide StreamEmaState.Valid, TrendOf, TrendValues, ClassicOf, Tail, EmaSeq;
      TrendStepValues(lines, ranges, line, rangeValue);
      primary.Follow(line, previousLine, rangeValue, lines, ranges);
      secondary.Follow(line, previousLine, rangeValue, lines, ranges);
      TailSnoc(TrendValues(lines, ranges, 3.0), TREND_WINDOW, primary.value);
      trendCount := ShiftIn(primaryTrends, trendCount, primary.value);
      AveragesOf(dynamicRange);
      AveragesShort(ranges);
      ghost var dynamic := dynamicRange.averages;
      dynamicRange.Append(rangeValue);
      if dynamicRange.ready {
        classic.Follow(line, previousLine, dynamicRange.value, lines, dynamic);
      }
    }

    method AppendLine(line: real, ghost lines: seq<real>)
      requires Shape() && TrackersFollow(lines)
      modifies `previousSmooth, `hasSmooth, `trendCount, delta, delta.history, dynamicRange, dynamicRange.history
      modifies classic, primary, secondary, primaryTrends
      ensures TrackersFollow(lines + [line])
    {
      hide StreamEmaState.Valid, TrendsHeld, ClassicTracker.Follows, Deltas, EmaSeq;
      if !hasSmooth {
        previousSmooth, hasSmooth := line, true;
        assert lines + [line] == [line];
        NoDeltas(line);
        AveragesOf(delta);
        AveragesShort([]);
        NoRangesYet(this, lines, [line]);
        return;
      }
      DeltasStep(lines, line);
      var previousLine := previousSmooth;
      previousSmooth := line;
      ghost var ranges := delta.averages;
      AveragesOf(delta);
      AveragesShort(Deltas(lines));
      delta.Append(Abs(line - previousLine));
      if !delta.ready {
        assert ranges == [];
        NoRangesYet(this, lines, lines + [line]);
        return;
      }
      AveragesOf(delta);
      RangesNonNegative(lines + [line], WILDERS);
      assert delta.averages == Ranges(lines + [line], WILDERS);
      AppendRange(line, previousLine, delta.value, lines, ranges);
    }
  }

  lemma {:induction false} RsiStep(closes: seq<real>, next: real)
    requires closes != []
    ensures RsiSeq(closes + [next], RSI_PERIOD)
         == RsiSeq(closes, RSI_PERIOD) + if |closes| < RSI_PERIOD then [] else [RsiOf(closes + [next], RSI_PERIOD)]
  {
  }

  lemma {:induction false} NothingSeen()
    ensures RsiSeq([], RSI_PERIOD) == [] && Deltas([]) == [] && TrendValues([], [], 3.0) == []
    ensures Total([], true) == 0.0 && Total([], false) == 0.0
    ensures Tail<real>([], TREND_WINDOW) == []
  {
  }

  lemma {:induction false} RsiNone(closes: seq<real>, first: real)
    ensures RsiSeq([], RSI_PERIOD) == RsiSeq([first], RSI_PERIOD) == []
  {
  }

  lemma {:induction false} DeltasStep(lines: seq<real>, next: real)
    requires lines != []
    ensures Deltas(lines + [next]) == Deltas(lines) + [Abs(next - lines[|lines| - 1])]
  {
  }

  lemma {:induction false} NoDeltas(next: real)
    ensures Deltas([]) == Deltas([next]) == []
  {
  }

  /** Before the first averaged change the trackers have seen nothing, whatever the lines. */
  lemma {:induction false} NoRangesYet(q: StreamQqe, lines: seq<real>, longer: seq<real>)
    requires q.Shape() && q.delta.Valid() && q.dynamicRange.Valid()
    requires q.delta.averages == [] == q.dynamicRange.seen
    requires q.TrendsHeld(lines, []) && q.classic.Follows(lines, q.dynamicRange.averages)
    ensures q.dynamicRange.averages == [] && q.TrendsHeld(longer, []) && q.classic.Follows(longer, [])
  {
  }

  lemma {:induction false} TrendStepValues(lines: seq<real>, ranges: seq<real>, line: real, rangeValue: real)
    requires |ranges| < |lines|
    ensures TrendValues(lines + [line], ranges + [rangeValue], 3.0)
         == TrendValues(lines, ranges, 3.0) + [TrendOf(lines + [line], ranges + [rangeValue], 3.0).value]
  {
  }

  lemma {:induction false} AveragesShort(ranges: seq<real>)
    ensures |EmaSeq(ranges, WILDERS)| <= |ranges|
  {
  }

  /** For the fixed parameters the second dynamic range needs more history than every other guard. */
  lemma {:induction false} ClassicReady(closes: seq<real>)
    ensures var lines := Lines(closes, RSI_PERIOD, SMOOTHING);
            var ranges := Ranges(lines, WILDERS);
            var dynamic := EmaSeq(ranges, WILDERS);
            && (|dynamic| >= 2 ==> FoundationReady(RsiSeq(closes, RSI_PERIOD), RSI_PERIOD, SMOOTHING) && |lines| >= SMOOTHING + 2)
            && (dynamic != [] ==> |lines| > |dynamic|)
            && Wilders(6) == WILDERS == 11
  {
  }

  lemma {:induction false} EnhancedReady(closes: seq<real>)
    ensures var lines := Lines(closes, RSI_PERIOD, SMOOTHING);
            var ranges := Ranges(lines, WILDERS);
            && (|ranges| >= TREND_WINDOW ==> FoundationReady(RsiSeq(closes, RSI_PERIOD), RSI_PERIOD, SMOOTHING) && |lines| >= 2)
            && (ranges != [] ==> |ranges| < |lines|)
            && Wilders(6) == WILDERS == 11
  {
  }

  lemma {:induction false} TrendCount(lines: seq<real>, ranges: seq<real>)
    requires ranges != [] ==> |ranges| < |lines|
    ensures |TrendValues(lines, ranges, 3.0)| == |ranges|
  {
  }
}
