/**
 * Bollinger bands and Donchian channels with their caches: the twenty-bar readings come
 * from the window's rolling state and must be those of the batch functions.
 */
module FeatureContext {
  import opened IndicatorMath
  import opened Numeric
  import R = RollingWindow
  import W = CalculationWindow

  datatype Bands = Bands(upper: real, middle: real, lower: real)

  function BandsAround(middle: real, multiplier: real, deviation: real): Bands {
    Bands(middle + multiplier * deviation, middle, middle - multiplier * deviation)
  }

  /** The batch bands over the last `period` values. */
  function BollingerOf(values: seq<real>, period: int, multiplier: real, sqrt: real -> real): Option<Bands> {
    if period <= 0 || |values| < period then None
    else
      var lo := |values| - period;
      Some(BandsAround(Mean(values, lo, |values|), multiplier, sqrt(Variance(values, lo, |values|))))
  }

  /** The bands lie the multiple of the deviation above and below the mean of the last `period` values; too few values have none. */
  lemma {:induction false} BandsSay(values: seq<real>, period: int, multiplier: real, sqrt: real -> real)
    ensures var r := BollingerOf(values, period, multiplier, sqrt);
            && (r.None? <==> period < 1 || |values| < period)
            && (r.Some? ==>
                  && r.value.middle == Mean(values, |values| - period, |values|)
                  && r.value.upper - r.value.middle == r.value.middle - r.value.lower == multiplier * sqrt(Variance(values, |values| - period, |values|)))
  {
    hide Mean, Variance;
  }

  datatype Channel = Channel(high: real, low: real)

  /** The batch channel over the last `period` bars. */
  function DonchianOf(highs: seq<real>, lows: seq<real>, period: nat): Option<Channel>
    requires period > 0
  {
    if |highs| < period || |lows| < period then None
    else Some(Channel(RangeMax(highs, |highs| - period, |highs|), RangeMin(lows, |lows| - period, |lows|)))
  }

  method Bollinger(values: seq<real>, period: int, multiplier: real, sqrt: real -> real) returns (r: Option<Bands>)
    ensures r == BollingerOf(values, period, multiplier, sqrt)
  {
    hide Sq;
    if period <= 0 || |values| < period {
      return None;
    }
    var lo := |values| - period;
    var total := 0.0;
    for i := lo to |values|
      invariant total == RangeSum(values, lo, i)
    {
      total := total + values[i];
    }
    var middle := total / period as real;
    var variance := 0.0;
    for i := lo to |values|
      invariant variance == RangeDevSq(values, lo, i, middle)
    {
      variance := variance + Sq(values[i] - middle);
    }
    r := Some(BandsAround(middle, multiplier, sqrt(variance / period as real)));
  }

  method Donchian(highs: seq<real>, lows: seq<real>, period: nat) returns (r: Option<Channel>)
    requires period > 0
    ensures r == DonchianOf(highs, lows, period)
  {
    if |highs| < period || |lows| < period {
      return None;
    }
    var high := HighestOfSlice(highs, |highs| - period, |highs|);
    var low := LowestOfSlice(lows, |lows| - period, |lows|);
    r := Some(Channel(high, low));
  }

  // ----- the rolling readings are the batch readings -----

  /** What a rolling window was fed ends in the series, and reaches back no further unless the series is full. */
  lemma {:induction false} SameTail(fed: seq<real>, values: seq<real>, limit: int)
    requires W.Feeds(fed, values, limit) && (limit <= 0 || limit >= 20)
    ensures |fed| >= |values| && (|fed| >= 20 <==> |values| >= 20)
    ensures |fed| >= 20 ==> forall i :: |values| - 20 <= i < |values| ==> fed[i + (|fed| - |values|)] == values[i]
  {
  }

  lemma {:induction false} SameMoments(fed: seq<real>, values: seq<real>, limit: int)
    requires W.Feeds(fed, values, limit) && (limit <= 0 || limit >= 20) && |fed| >= 20
    ensures |values| >= 20
    ensures Mean(fed, |fed| - 20, |fed|) == Mean(values, |values| - 20, |values|)
    ensures Variance(fed, |fed| - 20, |fed|) == Variance(values, |values| - 20, |values|)
  {
    hide RangeSum, RangeDevSq;
    SameTail(fed, values, limit);
    var shift := |fed| - |values|;
    RangeSumShift(fed, values, shift, |values| - 20, |values|);
    RangeDevSqShift(fed, values, shift, |values| - 20, |values|, Mean(values, |values| - 20, |values|));
  }

  lemma {:induction false} ExtremesShift(s: seq<real>, t: seq<real>, shift: nat, lo: nat, hi: nat)
    requires lo < hi <= |t| && hi + shift <= |s| && forall i :: lo <= i < hi ==> s[i + shift] == t[i]
    ensures RangeMax(s, lo + shift, hi + shift) == RangeMax(t, lo, hi) && RangeMin(s, lo + shift, hi + shift) == RangeMin(t, lo, hi)
  {
    hide RangeMax, RangeMin;
    var i, j := R.ExtremesReached(t, lo, hi);
    forall k | lo + shift <= k < hi + shift ensures RangeMin(t, lo, hi) <= s[k] <= RangeMax(t, lo, hi) {
      assert s[k - shift + shift] == t[k - shift];
    }
    R.RangeExtremesAre(s, lo + shift, hi + shift, RangeMax(t, lo, hi), RangeMin(t, lo, hi), i + shift, j + shift);
  }

  lemma {:induction false} SameExtremes(fed: seq<real>, values: seq<real>, limit: int)
    requires W.Feeds(fed, values, limit) && (limit <= 0 || limit >= 20) && |fed| >= 20
    ensures |values| >= 20
    ensures RangeMax(fed, |fed| - 20, |fed|) == RangeMax(values, |values| - 20, |values|)
    ensures RangeMin(fed, |fed| - 20, |fed|) == RangeMin(values, |values| - 20, |values|)
  {
    hide RangeMax, RangeMin, W.Feeds;
    SameTail(fed, values, limit);
    ExtremesShift(fed, values, |fed| - |values|, |values| - 20, |values|);
  }

  /** The bands over what the close window was fed are the batch bands. */
  lemma {:induction false} RollingBands(fed: seq<real>, values: seq<real>, limit: int, sqrt: real -> real)
    requires W.Feeds(fed, values, limit) && (limit <= 0 || limit >= 20)
    ensures BollingerOf(fed, 20, 2.0, sqrt) == BollingerOf(values, 20, 2.0, sqrt)
  {
    hide Mean, Variance, W.Feeds;
    SameTail(fed, values, limit);
    if |fed| >= 20 {
      SameMoments(fed, values, limit);
    }
  }

  /** The channel over what the high and low windows were fed is the batch channel. */
  lemma {:induction false} RollingChannel(fedHigh: seq<real>, highs: seq<real>, fedLow: seq<real>, lows: seq<real>, limit: int)
    requires W.Feeds(fedHigh, highs, limit) && W.Feeds(fedLow, lows, limit) && (limit <= 0 || limit >= 20)
    ensures DonchianOf(fedHigh, fedLow, 20) == DonchianOf(highs, lows, 20)
  {
    hide RangeMax, RangeMin, W.Feeds;
    SameTail(fedHigh, highs, limit);
    SameTail(fedLow, lows, limit);
    if |fedHigh| >= 20 && |fedLow| >= 20 {
      SameExtremes(fedHigh, highs, limit);
      SameExtremes(fedLow, lows, limit);
    }
  }

  /** For every series a limit leaves, the bands over what its rolling window was fed are the batch bands. */
  ghost predicate BandsAgree(limit: int, sqrt: real -> real) {
    forall fed, values :: W.Feeds(fed, values, limit) && (limit > 0 ==> |values| <= limit) ==>
      BollingerOf(fed, 20, 2.0, sqrt) == BollingerOf(values, 20, 2.0, sqrt)
  }

  /** The same of the channel. */
  ghost predicate ChannelAgrees(limit: int) {
    forall fed, values :: W.Feeds(fed, values, limit) && (limit > 0 ==> |values| <= limit) ==>
      DonchianOf(fed, fed, 20) == DonchianOf(values, values, 20)
  }

  /** The twenty-bar readings may come from the rolling windows exactly when the series keeps twenty bars. */
  lemma {:induction false} AgreesExactlyFromTwenty(limit: int, sqrt: real -> real)
    ensures BandsAgree(limit, sqrt) <==> limit <= 0 || limit >= 20
    ensures ChannelAgrees(limit) <==> limit <= 0 || limit >= 20
  {
    hide RangeMax, RangeMin, Mean, Variance;
    if limit <= 0 || limit >= 20 {
      forall fed, values | W.Feeds(fed, values, limit) && (limit > 0 ==> |values| <= limit)
        ensures BollingerOf(fed, 20, 2.0, sqrt) == BollingerOf(values, 20, 2.0, sqrt)
        ensures DonchianOf(fed, fed, 20) == DonchianOf(values, values, 20)
      {
        RollingBands(fed, values, limit, sqrt);
        RollingChannel(fed, values, fed, values, limit);
      }
    } else {
      var fed, values := seq(20, _ => 0.0), seq(limit, _ => 0.0);
      assert fed[20 - limit..] == values;
      assert W.Feeds(fed, values, limit) && BollingerOf(values, 20, 2.0, sqrt) == None && DonchianOf(values, values, 20) == None;
    }
  }

  /** The bands read: for twenty bars those over everything the rolling window was fed, if it is full. */
  function BandsRead(fed: seq<real>, closes: seq<real>, period: int, sqrt: real -> real): Option<Bands> {
    if period == 20 && |fed| >= 20 then BollingerOf(fed, 20, 2.0, sqrt) else BollingerOf(closes, period, 2.0, sqrt)
  }

  function ChannelRead(fedHigh: seq<real>, fedLow: seq<real>, highs: seq<real>, lows: seq<real>, period: nat): Option<Channel>
    requires period > 0
  {
    if period == 20 && |fedHigh| >= 20 && |fedLow| >= 20 then DonchianOf(fedHigh, fedLow, 20) else DonchianOf(highs, lows, period)
  }

  class Context {
    const window: W.Window
    const sqrt: real -> real
    var bbByPeriod: map<int, Option<Bands>>
    var rangeByPeriod: map<int, Option<Channel>>

    /** The window has nothing outstanding. */
    ghost predicate Usable()
      reads window, window.close20, window.high20, window.low20
    {
      && window.Valid() && !window.parseErr
      && |window.series.highs| == |window.series.lows| == |window.series.closes|
    }

    ghost predicate Valid()
      reads this, window, window.close20, window.high20, window.low20
    {
      && Usable()
      && (forall p :: p in bbByPeriod ==> bbByPeriod[p] == BandsRead(window.close20.fed, window.series.closes, p, sqrt))
      && forall p :: p in rangeByPeriod ==>
           p > 0 && rangeByPeriod[p] == ChannelRead(window.high20.fed, window.low20.fed, window.series.highs, window.series.lows, p)
    }

    constructor (window: W.Window, sqrt: real -> real)
      requires window.Valid() && !window.parseErr
      ensures Valid() && this.window == window && this.sqrt == sqrt
    {
      hide W.Window.Valid;
      this.window, this.sqrt := window, sqrt;
      bbByPeriod, rangeByPeriod := map[], map[];
      new;
      SeriesInStep(window);
    }

    /** The rolling windows of a usable window are valid and have been fed its series. */
    lemma {:induction false} FedInStep()
      requires Usable()
      ensures window.close20.Valid() && window.high20.Valid() && window.low20.Valid()
      ensures window.close20.period == 20 && window.high20.period == 20 && window.low20.period == 20
      ensures W.Feeds(window.close20.fed, window.series.closes, window.limit) && W.Feeds(window.high20.fed, window.series.highs, window.limit)
      ensures W.Feeds(window.low20.fed, window.series.lows, window.limit)
    {
      hide W.Matches, W.Counted, W.Feeds, R.RollingWindow.Valid;
    }

    /** A window that keeps twenty bars or all of them reads the batch results. */
    lemma {:induction false} BandsAreBatch(period: int)
      requires Usable() && (window.limit <= 0 || window.limit >= 20)
      ensures BandsRead(window.close20.fed, window.series.closes, period, sqrt) == BollingerOf(window.series.closes, period, 2.0, sqrt)
    {
      hide Usable, R.RollingWindow.Valid, W.Feeds, BollingerOf;
      FedInStep();
      RollingBands(window.close20.fed, window.series.closes, window.limit, sqrt);
    }

    lemma {:induction false} ChannelIsBatch(period: nat)
      requires Usable() && period > 0 && (window.limit <= 0 || window.limit >= 20)
      ensures ChannelRead(window.high20.fed, window.low20.fed, window.series.highs, window.series.lows, period)
           == DonchianOf(window.series.highs, window.series.lows, period)
    {
      hide Usable, R.RollingWindow.Valid, W.Feeds, DonchianOf;
      FedInStep();
      RollingChannel(window.high20.fed, window.series.highs, window.low20.fed, window.series.lows, window.limit);
    }

    /** The bands for the only supported multiplier: the batch result whenever the window's limit is off or at least twenty. */
    method BollingerBands(period: int, multiplier: real) returns (r: Option<Bands>)
      requires Valid()
      modifies `bbByPeriod
      ensures Valid()
      ensures r == if multiplier != 2.0 then None else BandsRead(window.close20.fed, window.series.closes, period, sqrt)
      ensures multiplier == 2.0 && (window.limit <= 0 || window.limit >= 20) ==> r == BollingerOf(window.series.closes, period, 2.0, sqrt)
    {
      hide W.Window.Valid, Mean, Variance, BandsAround;
      if multiplier != 2.0 {
        return None;
      }
      if window.limit <= 0 || window.limit >= 20 {
        BandsAreBatch(period);
      }
      if period in bbByPeriod {
        return bbByPeriod[period];
      }
      if period == 20 {
        var fast := RollingBollinger();
        if fast.Some? {
          bbByPeriod := bbByPeriod[period := fast];
          return fast;
        }
      }
      r := Bollinger(window.series.closes, period, multiplier, sqrt);
      bbByPeriod := bbByPeriod[period := r];
    }

    method RollingBollinger() returns (r: Option<Bands>)
      requires Usable()
      ensures r == if |window.close20.fed| >= 20 then BollingerOf(window.close20.fed, 20, 2.0, sqrt) else None
    {
      hide Usable, R.RollingWindow.Valid, W.Feeds, Mean, Variance;
      FedInStep();
      var middle, variance, ok := window.close20.MeanVariance();
      if !ok {
        return None;
      }
      IsBands(window.close20.fed, middle, variance, sqrt);
      r := Some(BandsAround(middle, 2.0, sqrt(variance)));
    }

    /** The channel, likewise. */
    method DonchianChannel(period: nat) returns (r: Option<Channel>)
      requires Valid() && period > 0
      modifies `rangeByPeriod
      ensures Valid()
      ensures r == ChannelRead(window.high20.fed, window.low20.fed, window.series.highs, window.series.lows, period)
      ensures window.limit <= 0 || window.limit >= 20 ==> r == DonchianOf(window.series.highs, window.series.lows, period)
    {
      hide W.Window.Valid, RangeMax, RangeMin;
      if window.limit <= 0 || window.limit >= 20 {
        ChannelIsBatch(period);
      }
      if period in rangeByPeriod {
        return rangeByPeriod[period];
      }
      if period == 20 {
        var fast := RollingDonchian();
        if fast.Some? {
          rangeByPeriod := rangeByPeriod[period := fast];
          return fast;
        }
      }
      r := Donchian(window.series.highs, window.series.lows, period);
      rangeByPeriod := rangeByPeriod[period := r];
    }

    method RollingDonchian() returns (r: Option<Channel>)
      requires Usable()
      ensures r == if |window.high20.fed| >= 20 && |window.low20.fed| >= 20 then DonchianOf(window.high20.fed, window.low20.fed, 20) else None
    {
      hide Usable, R.RollingWindow.Valid, W.Feeds, RangeMax, RangeMin;
      FedInStep();
      var high, _, highOk := window.high20.RangeValues();
      var _, low, lowOk := window.low20.RangeValues();
      if !highOk || !lowOk {
        return None;
      }
      IsChannel(window.high20.fed, window.low20.fed, high, low);
      r := Some(Channel(high, low));
    }
  }

  lemma {:induction false} SeriesInStep(w: W.Window)
    requires w.Valid() && !w.parseErr
    ensures |w.series.highs| == |w.series.lows| == |w.series.closes|
  {
  }

  lemma {:induction false} IsBands(fed: seq<real>, middle: real, variance: real, sqrt: real -> real)
    requires |fed| >= 20 && middle == Mean(fed, |fed| - 20, |fed|) && variance == Variance(fed, |fed| - 20, |fed|)
    ensures Some(BandsAround(middle, 2.0, sqrt(variance))) == BollingerOf(fed, 20, 2.0, sqrt)
  {
  }

  lemma {:induction false} IsChannel(fedHigh: seq<real>, fedLow: seq<real>, high: real, low: real)
    requires |fedHigh| >= 20 && |fedLow| >= 20
    requires high == RangeMax(fedHigh, |fedHigh| - 20, |fedHigh|) && low == RangeMin(fedLow, |fedLow| - 20, |fedLow|)
    ensures Some(Channel(high, low)) == DonchianOf(fedHigh, fedLow, 20)
  {
  }
}
