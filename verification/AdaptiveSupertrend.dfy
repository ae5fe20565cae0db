/**
 * The adaptive Supertrend, whose band width is the centroid of the volatility cluster the
 * current ATR falls in: the batch form over whole slices and the streaming state fed bar by
 * bar.
 */
module AdaptiveSupertrend {
  import opened Numeric
  import opened Supertrend
  import opened VolatilityCluster

  /** Wilder's ATR of bars period..n. */
  function AtrTable(ranges: seq<real>, period: nat, n: nat): (r: seq<real>)
    requires 0 < period <= n <= |ranges|
    ensures |r| == n - period && forall i :: period <= i < n ==> r[i - period] == WilderAt(ranges, period, i)
    decreases n
  {
    if n == period then [] else AtrTable(ranges, period, n - 1) + [WilderAt(ranges, period, n - 1)]
  }

  function First(period: nat, training: nat): nat
    requires period > 0 && training > 0
  {
    period + training - 1
  }

  /** The cluster bar i is assigned to, from the `training` ATR values ending at it. */
  function ClusterAt(p: Prices, period: nat, training: nat, i: nat): Cluster
    requires p.Aligned() && period > 0 && training > 0 && First(period, training) <= i < |p.closes|
  {
    var atrs := AtrTable(TrueRanges(p, i + 1), period, i + 1);
    ClusterOf(atrs[|atrs| - training..], atrs[|atrs| - 1]).value
  }

  function AdaptiveBands(p: Prices, period: nat, training: nat, multiplier: real, i: nat): Bands
    requires p.Aligned() && period > 0 && training > 0 && First(period, training) <= i < |p.closes|
    decreases i
  {
    var width := Width(multiplier, ClusterAt(p, period, training, i).assignedATR);
    if i == First(period, training) then Opening(p.highs[i], p.lows[i], p.closes[i], width)
    else Following(AdaptiveBands(p, period, training, multiplier, i - 1), p.highs[i], p.lows[i], p.closes[i], p.closes[i - 1], width)
  }

  function AdaptivePoints(p: Prices, period: nat, training: nat, multiplier: real, n: nat): (r: seq<Point>)
    requires p.Aligned() && period > 0 && training > 0 && First(period, training) <= n <= |p.closes|
    ensures |r| == n - First(period, training)
    decreases n
  {
    if n == First(period, training) then []
    else AdaptivePoints(p, period, training, multiplier, n - 1) + [PointOf(AdaptiveBands(p, period, training, multiplier, n - 1))]
  }

  datatype Adaptive = Adaptive(points: seq<Point>, cluster: Cluster)

  /** Every bar the batch form publishes must have a positive assigned ATR. */
  ghost predicate AllPositive(p: Prices, period: nat, training: nat, n: nat)
    requires p.Aligned() && period > 0 && training > 0 && n <= |p.closes|
  {
    forall i :: First(period, training) <= i < n ==> ClusterAt(p, period, training, i).assignedATR > 0.0
  }

  ghost predicate EnoughBars(p: Prices, period: int, training: nat) {
    period > 0 && |p.closes| > period + training && p.Aligned()
  }

  ghost function BatchOf(p: Prices, period: int, multiplier: real, training: nat): Option<Adaptive> {
    if training <= 1 || !EnoughBars(p, period, training) || !AllPositive(p, period, training, |p.closes|) then None
    else Some(Adaptive(AdaptivePoints(p, period, training, multiplier, |p.closes|), ClusterAt(p, period, training, |p.closes| - 1)))
  }

  /** The stream keeps the last two points and does not look at the sign of the ATR. */
  ghost function StreamOf(p: Prices, period: int, multiplier: real, training: nat): Option<Adaptive> {
    if training == 0 || !EnoughBars(p, period, training) then None
    else
      var n := |p.closes|;
      Some(Adaptive([PointOf(AdaptiveBands(p, period, training, multiplier, n - 2)),
           PointOf(AdaptiveBands(p, period, training, multiplier, n - 1))],
                    ClusterAt(p, period, training, n - 1)))
  }

  /**
   * The batch form answers exactly when the stream does, asked for more than one training
   * bar and with every assigned ATR it uses positive; the stream's answer is then the batch
   * form's last two points and its cluster.
   */
  lemma {:induction false} StreamIsEndOfBatch(p: Prices, period: int, multiplier: real, training: nat)
    ensures BatchOf(p, period, multiplier, training).Some?
       <==> StreamOf(p, period, multiplier, training).Some? && training > 1 && AllPositive(p, period, training, |p.closes|)
    ensures BatchOf(p, period, multiplier, training).Some? ==>
              var batch, points := BatchOf(p, period, multiplier, training).value, BatchOf(p, period, multiplier, training).value.points;
              |points| >= 2 && StreamOf(p, period, multiplier, training) == Some(batch.(points := points[|points| - 2..]))
  {
    hide ClusterAt, AdaptiveBands, AdaptivePoints;
    if BatchOf(p, period, multiplier, training).Some? {
      var first, n := First(period, training), |p.closes|;
      var points := AdaptivePoints(p, period, training, multiplier, n);
      AdaptivePointAt(p, period, training, multiplier, n, n - 2);
      AdaptivePointAt(p, period, training, multiplier, n, n - 1);
      assert points[|points| - 2..] == [points[n - 2 - first], points[n - 1 - first]];
    }
  }

  /** What each form asks for: bars past period and training window, and for the batch form two training bars and positive widths throughout. */
  lemma {:induction false} FormsExistExactly(p: Prices, period: int, multiplier: real, training: nat)
    ensures StreamOf(p, period, multiplier, training).Some?
       <==> training >= 1 && period >= 1 && |p.highs| == |p.lows| == |p.closes| > period + training
    ensures BatchOf(p, period, multiplier, training).Some?
       <==> training >= 2 && period >= 1 && |p.highs| == |p.lows| == |p.closes| > period + training
            && forall i :: period + training - 1 <= i < |p.closes| ==> ClusterAt(p, period, training, i).assignedATR > 0.0
  {
    hide ClusterAt, AdaptiveBands, AdaptivePoints;
  }

  /** A market that does not move splits them: every ATR is zero, so the stream answers and the batch form refuses. */
  lemma {:induction false} FlatMarketSplits(price: real, n: nat, period: nat, multiplier: real, training: nat)
    requires period > 0 && training > 0 && n > period + training
    ensures var flat := seq(n, _ => price);
            var p := Prices(flat, flat, flat);
            StreamOf(p, period, multiplier, training).Some? && BatchOf(p, period, multiplier, training).None?
  {
    hide ClusterOf, AtrTable, TrueRanges, AdaptiveBands, AdaptivePoints;
    var flat := seq(n, _ => price);
    var p, first := Prices(flat, flat, flat), First(period, training);
    ClusterUnfold(p, period, training, first);
    var atrs := AtrTable(TrueRanges(p, first + 1), period, first + 1);
    FlatRanges(p, price, first + 1);
    FlatTable(TrueRanges(p, first + 1), period, first + 1);
    AllAlike(atrs[|atrs| - training..], atrs[|atrs| - 1]);
    assert !(ClusterAt(p, period, training, first).assignedATR > 0.0);
  }

  lemma {:induction false} FlatRanges(p: Prices, price: real, n: nat)
    requires p.Aligned() && n <= |p.closes|
    requires forall i :: 0 <= i < |p.closes| ==> p.highs[i] == price && p.lows[i] == price && p.closes[i] == price
    ensures forall k :: 0 <= k < n ==> TrueRanges(p, n)[k] == 0.0
  {
    hide TrueRanges;
    forall k | 0 <= k < n ensures TrueRanges(p, n)[k] == 0.0 {
      assert TrueRanges(p, n)[k] == TrueRangeAt(p, k);
    }
  }

  lemma {:induction false} FlatTable(ranges: seq<real>, period: nat, n: nat)
    requires 0 < period <= n <= |ranges| && forall k :: 0 <= k < |ranges| ==> ranges[k] == 0.0
    ensures forall k :: 0 <= k < n - period ==> AtrTable(ranges, period, n)[k] == 0.0
    decreases n
  {
    if n > period {
      FlatTable(ranges, period, n - 1);
      FlatWilder(ranges, period, n - 1);
    }
  }

  lemma {:induction false} FlatWilder(ranges: seq<real>, period: nat, i: nat)
    requires 0 < period <= i < |ranges| && forall k :: 0 <= k < |ranges| ==> ranges[k] == 0.0
    ensures WilderAt(ranges, period, i) == 0.0
    decreases i
  {
    if i == period {
      FlatSum(ranges, 1, period + 1);
    } else {
      FlatWilder(ranges, period, i - 1);
    }
  }

  lemma {:induction false} FlatSum(ranges: seq<real>, lo: nat, hi: nat)
    requires lo <= hi <= |ranges| && forall k :: 0 <= k < |ranges| ==> ranges[k] == 0.0
    ensures RangeSum(ranges, lo, hi) == 0.0
    decreases hi
  {
    if lo < hi {
      FlatSum(ranges, lo, hi - 1);
    }
  }

  lemma {:induction false} AllAlike(values: seq<real>, current: real)
    requires values != [] && forall k :: 0 <= k < |values| ==> values[k] == 0.0
    ensures ClusterOf(values, current).Some? && ClusterOf(values, current).value.assignedATR == 0.0
  {
    hide Cost, Iterate, Ordered;
    ClusterExists(values, current);
    ClusterGuarantees(values, current);
    ZeroExtremes(values, |values|);
  }

  lemma {:induction false} ZeroExtremes(values: seq<real>, n: nat)
    requires 1 <= n <= |values| && forall k :: 0 <= k < |values| ==> values[k] == 0.0
    ensures RangeMin(values, 0, n) == 0.0 && RangeMax(values, 0, n) == 0.0
    decreases n
  {
    if n > 1 {
      ZeroExtremes(values, n - 1);
    }
  }

  lemma {:induction false} AdaptivePointAt(p: Prices, period: nat, training: nat, multiplier: real, n: nat, i: nat)
    requires p.Aligned() && period > 0 && training > 0 && First(period, training) <= i < n <= |p.closes|
    ensures |AdaptivePoints(p, period, training, multiplier, n)| == n - First(period, training)
    ensures AdaptivePoints(p, period, training, multiplier, n)[i - First(period, training)]
         == PointOf(AdaptiveBands(p, period, training, multiplier, i))
    decreases n
  {
    hide AdaptiveBands;
    if i < n - 1 {
      AdaptivePointAt(p, period, training, multiplier, n - 1, i);
    }
  }

  // ----- batch -----

  lemma {:induction false} WilderPrefix(s: seq<real>, t: seq<real>, period: nat, i: nat)
    requires 0 < period <= i < |s| <= |t| && t[..|s|] == s
    ensures WilderAt(s, period, i) == WilderAt(t, period, i)
    decreases i
  {
    hide Smoothed;
    if i == period {
      forall k | 1 <= k < period + 1 ensures s[k] == t[k] { assert t[..|s|][k] == t[k]; }
      RangeSumSame(s, t, 1, period + 1);
    } else {
      WilderPrefix(s, t, period, i - 1);
      assert t[..|s|][i] == t[i];
    }
  }

  lemma {:induction false} AtrTablePrefix(s: seq<real>, t: seq<real>, period: nat, n: nat)
    requires 0 < period <= n <= |s| <= |t| && t[..|s|] == s
    ensures AtrTable(s, period, n) == AtrTable(t, period, n)
    decreases n
  {
    hide WilderAt;
    if n > period {
      AtrTablePrefix(s, t, period, n - 1);
      WilderPrefix(s, t, period, n - 1);
    }
  }

  lemma {:induction false} AtrTableSlice(ranges: seq<real>, period: nat, n: nat, m: nat)
    requires 0 < period <= n <= m <= |ranges|
    ensures |AtrTable(ranges, period, m)| == m - period && AtrTable(ranges, period, m)[..n - period] == AtrTable(ranges, period, n)
    decreases m
  {
    hide WilderAt;
    if n < m {
      AtrTableSlice(ranges, period, n, m - 1);
    }
  }

  lemma {:induction false} TrueRangesSlice(p: Prices, n: nat, m: nat)
    requires p.Aligned() && n <= m <= |p.closes|
    ensures |TrueRanges(p, m)| == m && |TrueRanges(p, n)| == n && TrueRanges(p, m)[..n] == TrueRanges(p, n)
    decreases m
  {
  }

  /** The batch slices its ATR table where the definition looks only at the bars so far. */
  lemma {:induction false} ClusterFromTable(p: Prices, period: nat, training: nat, i: nat)
    requires p.Aligned() && period > 0 && training > 0 && First(period, training) <= i < |p.closes|
    ensures var atrs, k := AtrTable(TrueRanges(p, |p.closes|), period, |p.closes|), i - period;
            |atrs| == |p.closes| - period && ClusterOf(atrs[k + 1 - training..k + 1], atrs[k]) == Some(ClusterAt(p, period, training, i))
  {
    hide ClusterOf, TrueRanges, AtrTable;
    var n := |p.closes|;
    var all, seen := TrueRanges(p, n), TrueRanges(p, i + 1);
    TrueRangesSlice(p, i + 1, n);
    AtrTablePrefix(seen, all, period, i + 1);
    AtrTableSlice(all, period, i + 1, n);
    var atrs, k := AtrTable(all, period, n), i - period;
    var table := AtrTable(seen, period, i + 1);
    assert |table| == k + 1 by { AtrTableSlice(all, period, i + 1, i + 1); }
    assert atrs[..k + 1] == table;
    assert atrs[k + 1 - training..k + 1] == table[k + 1 - training..];
    assert atrs[k] == table[k];
    ClusterExists(table[k + 1 - training..], table[k]);
  }

  lemma {:induction false} ClusterExists(values: seq<real>, current: real)
    requires values != []
    ensures ClusterOf(values, current).Some?
  {
  }

  method AtrSeries(p: Prices, period: nat) returns (values: seq<real>)
    requires p.Aligned() && 0 < period < |p.closes|
    ensures values == AtrTable(TrueRanges(p, |p.closes|), period, |p.closes|)
  {
    hide Smoothed, WilderAt, TrueRange, TrueRanges, AtrTable;
    ghost var ranges := TrueRanges(p, |p.closes|);
    TrueRangesSlice(p, 0, |p.closes|);
    var current := 0.0;
    for index := 1 to period + 1
      invariant current == RangeSum(ranges, 1, index)
    {
      RangeStep(p, index);
      current := current + TrueRange(p.highs[index], p.lows[index], p.closes[index - 1]);
    }
    current := current / period as real;
    values := [current];
    WilderStep(ranges, period, period);
    AtrTableStep(ranges, period, period + 1);
    for index := period + 1 to |p.closes|
      invariant current == WilderAt(ranges, period, index - 1)
      invariant values == AtrTable(ranges, period, index)
    {
      RangeStep(p, index);
      WilderStep(ranges, period, index);
      AtrTableStep(ranges, period, index + 1);
      current := Smoothed(current, TrueRange(p.highs[index], p.lows[index], p.closes[index - 1]), period);
      values := values + [current];
    }
  }

  lemma {:induction false} AtrTableStep(ranges: seq<real>, period: nat, n: nat)
    requires 0 < period < n <= |ranges|
    ensures AtrTable(ranges, period, n) == AtrTable(ranges, period, n - 1) + [WilderAt(ranges, period, n - 1)]
    ensures AtrTable(ranges, period, period) == []
  {
  }

  method Batch(p: Prices, period: int, multiplier: real, training: nat) returns (r: Option<Adaptive>)
    ensures r == BatchOf(p, period, multiplier, training)
  {
    hide ClusterOf, ClusterAt, AtrTable, TrueRanges, AdaptivePoints, Points;
    if period <= 0 || training <= 1 || |p.closes| <= period + training || |p.highs| != |p.closes| || |p.lows| != |p.closes| {
      return None;
    }
    var given, lastCluster := AssignAtr(p, period, training);
    var first := First(period, training);
    var points := WithAtr(p, given, first, multiplier);
    if points.None? {
      return None;
    }
    PointsAgree(p, period, training, multiplier, given, |p.closes|);
    r := Some(Adaptive(points.value, lastCluster));
  }

  /** The assigned ATR of every bar that has a training window; zero before. */
  method AssignAtr(p: Prices, period: nat, training: nat) returns (given: seq<real>, lastCluster: Cluster)
    requires p.Aligned() && period > 0 && training > 1 && |p.closes| > period + training
    ensures |given| == |p.closes|
    ensures forall i :: First(period, training) <= i < |p.closes| ==> given[i] == ClusterAt(p, period, training, i).assignedATR
    ensures lastCluster == ClusterAt(p, period, training, |p.closes| - 1)
  {
    hide ClusterOf, ClusterAt, AtrTable, TrueRanges, WilderAt;
    var atrValues := AtrSeries(p, period);
    assert |atrValues| == |p.closes| - period;
    var table := new real[|p.closes|](i => 0.0);
    var last: Option<Cluster> := None;
    for atrIndex := training - 1 to |atrValues|
      invariant forall i :: First(period, training) <= i < atrIndex + period ==> table[i] == ClusterAt(p, period, training, i).assignedATR
      invariant atrIndex >= training ==> last == Some(ClusterAt(p, period, training, atrIndex + period - 1))
    {
      ClusterFromTable(p, period, training, atrIndex + period);
      var cluster := AdaptiveVolatilityCluster(atrValues[atrIndex + 1 - training..atrIndex + 1], atrValues[atrIndex]);
      table[atrIndex + period] := cluster.value.assignedATR;
      last := cluster;
    }
    given, lastCluster := table[..], last.value;
  }

  lemma {:induction false} PointsAgree(p: Prices, period: nat, training: nat, multiplier: real, given: seq<real>, n: nat)
    requires p.Aligned() && period > 0 && training > 0 && First(period, training) <= n <= |p.closes| == |given|
    requires forall i :: First(period, training) <= i < |p.closes| ==> given[i] == ClusterAt(p, period, training, i).assignedATR
    ensures Points(p, Given(given), multiplier, First(period, training), n) == AdaptivePoints(p, period, training, multiplier, n)
    decreases n
  {
    hide BandsAt, AdaptiveBands, ClusterAt;
    if n > First(period, training) {
      PointsAgree(p, period, training, multiplier, given, n - 1);
      BandsAgree(p, period, training, multiplier, given, n - 1);
    }
  }

  lemma {:induction false} BandsAgree(p: Prices, period: nat, training: nat, multiplier: real, given: seq<real>, i: nat)
    requires p.Aligned() && period > 0 && training > 0 && First(period, training) <= i < |p.closes| == |given|
    requires forall i :: First(period, training) <= i < |p.closes| ==> given[i] == ClusterAt(p, period, training, i).assignedATR
    ensures BandsAt(p, Given(given), multiplier, First(period, training), i) == AdaptiveBands(p, period, training, multiplier, i)
    decreases i
  {
    hide Opening, Following, Width, ClusterAt;
    if i > First(period, training) {
      BandsAgree(p, period, training, multiplier, given, i - 1);
    }
  }

  // ----- stream -----

  function Snoc(p: Prices, high: real, low: real, close: real): Prices {
    Prices(p.highs + [high], p.lows + [low], p.closes + [close])
  }

  lemma {:induction false} TrueRangesSnoc(p: Prices, high: real, low: real, close: real, n: nat)
    requires p.Aligned() && n <= |p.closes|
    ensures TrueRanges(Snoc(p, high, low, close), n) == TrueRanges(p, n)
    decreases n
  {
  }

  lemma {:induction false} LastTrueRange(p: Prices, high: real, low: real, close: real)
    requires p.Aligned() && p.closes != []
    ensures var q, n := Snoc(p, high, low, close), |p.closes|;
            TrueRanges(q, n + 1) == TrueRanges(p, n) + [TrueRange(high, low, p.closes[n - 1])]
  {
  }

  lemma {:induction false} BandsSnoc(p: Prices, period: nat, training: nat, multiplier: real, high: real, low: real, close: real, i: nat)
    requires p.Aligned() && period > 0 && training > 0 && First(period, training) <= i < |p.closes|
    ensures AdaptiveBands(Snoc(p, high, low, close), period, training, multiplier, i) == AdaptiveBands(p, period, training, multiplier, i)
    decreases i
  {
    hide Opening, Following, Width, ClusterOf, TrueRanges, AtrTable;
    TrueRangesSnoc(p, high, low, close, i + 1);
    if i > First(period, training) {
      BandsSnoc(p, period, training, multiplier, high, low, close, i - 1);
    }
  }

  /** Wilder's ATR fed one true range at a time; bar 0 has no true range of its own. */
  class StreamAtr {
    const period: int
    var sum: real
    var count: nat
    var value: real
    var ready: bool
    var series: seq<real>
    ghost var ranges: seq<real>

    ghost predicate Valid()
      reads this
    {
      && ranges != []
      && ready == (0 < period < |ranges|)
      && (period > 0 && !ready ==> count == |ranges| - 1 && sum == RangeSum(ranges, 1, |ranges|))
      && (!ready ==> series == [])
      && (ready ==> series == AtrTable(ranges, period, |ranges|) && value == WilderAt(ranges, period, |ranges| - 1))
    }

    constructor (period: int, ghost first: real)
      ensures Valid() && this.period == period && ranges == [first]
    {
      this.period := period;
      sum, count, value, ready, series := 0.0, 0, 0.0, false, [];
      ranges := [first];
    }

    method Append(high: real, low: real, previousClose: real)
      requires Valid()
      modifies this
      ensures Valid() && ranges == old(ranges) + [TrueRange(high, low, previousClose)]
    {
      hide AtrTable, WilderAt, Smoothed, TrueRange;
      ghost var extended := ranges + [TrueRange(high, low, previousClose)];
      assert extended[..|ranges|] == ranges;
      if 0 < period < |extended| {
        AtrTableSnoc(ranges, TrueRange(high, low, previousClose), period);
      }
      RangeSumSame(ranges, extended, 1, |ranges|);
      assert RangeSum(extended, 1, |extended|) == RangeSum(extended, 1, |ranges|) + TrueRange(high, low, previousClose);
      ranges := extended;
      if period <= 0 {
        return;
      }
      var trueRange := TrueRange(high, low, previousClose);
      if !ready {
        sum := sum + trueRange;
        count := count + 1;
        if count == period {
          value := sum / period as real;
          ready := true;
          series := series + [value];
        }
        return;
      }
      value := Smoothed(value, trueRange, period);
      series := series + [value];
    }
  }

  lemma {:induction false} AtrTableSnoc(ranges: seq<real>, next: real, period: nat)
    requires 0 < period <= |ranges|
    ensures var extended := ranges + [next];
            && AtrTable(extended, period, |extended|) == AtrTable(ranges, period, |ranges|) + [WilderAt(extended, period, |ranges|)]
            && WilderAt(extended, period, |ranges|) == (if |ranges| == period then RangeSum(extended, 1, |extended|) / period as real
                                                        else Smoothed(WilderAt(ranges, period, |ranges| - 1), next, period))
            && (|ranges| == period ==> AtrTable(ranges, period, |ranges|) == [])
  {
    hide Smoothed, WilderAt, AtrTable;
    var extended := ranges + [next];
    assert extended[..|ranges|] == ranges;
    AtrTableStep(extended, period, |extended|);
    AtrTablePrefix(ranges, extended, period, |ranges|);
    WilderStep(extended, period, |ranges|);
    if |ranges| > period {
      WilderPrefix(ranges, extended, period, |ranges| - 1);
    }
  }

  /** The streaming state; it is created on a first bar and fed every later one. */
  class StreamAdaptiveSupertrend {
    const atr: StreamAtr
    const trainingPeriod: nat
    const multiplier: real
    var finalUpper: real
    var finalLower: real
    var up: bool
    var previousPoint: Option<Point>
    var currentPoint: Option<Point>
    var cluster: Option<Cluster>
    var pointCount: nat
    ghost var p: Prices

    ghost predicate Published()
      reads this
      requires p.Aligned()
    {
      var n := |p.closes|;
      if atr.period <= 0 || trainingPeriod == 0 then pointCount == 0
      else
        var first := First(atr.period, trainingPeriod);
        && pointCount == (if n > first then n - first else 0)
        && (n > first ==>
              && Bands(finalUpper, finalLower, up) == AdaptiveBands(p, atr.period, trainingPeriod, multiplier, n - 1)
              && currentPoint == Some(PointOf(AdaptiveBands(p, atr.period, trainingPeriod, multiplier, n - 1)))
              && cluster == Some(ClusterAt(p, atr.period, trainingPeriod, n - 1)))
        && (n > first + 1 ==> previousPoint == Some(PointOf(AdaptiveBands(p, atr.period, trainingPeriod, multiplier, n - 2))))
    }

    ghost predicate Valid()
      reads this, atr
    {
      && atr.Valid()
      && p.Aligned() && p.closes != [] && atr.ranges == TrueRanges(p, |p.closes|)
      && Published()
    }

    constructor (period: int, multiplier: real, trainingPeriod: nat, ghost high: real, ghost low: real, ghost close: real)
      ensures Valid() && fresh(atr) && atr.period == period && this.multiplier == multiplier && this.trainingPeriod == trainingPeriod
      ensures p == Prices([high], [low], [close])
    {
      atr := new StreamAtr(period, high - low);
      this.trainingPeriod, this.multiplier := trainingPeriod, multiplier;
      finalUpper, finalLower, up := 0.0, 0.0, false;
      previousPoint, currentPoint, cluster, pointCount := None, None, None, 0;
      p := Prices([high], [low], [close]);
    }

    method Append(high: real, low: real, previousClose: real, close: real)
      requires Valid() && previousClose == p.closes[|p.closes| - 1]
      modifies this, atr
      ensures Valid() && p == Snoc(old(p), high, low, close)
    {
      hide AdaptiveBands, ClusterAt, ClusterOf, AtrTable, WilderAt, TrueRanges, TrueRange, Opening, Following, Width, PointOf;
      ghost var q := Snoc(p, high, low, close);
      ghost var n := |p.closes|;
      LastTrueRange(p, high, low, close);
      if atr.period > 0 && trainingPeriod > 0 {
        if n >= First(atr.period, trainingPeriod) {
          NextBands(p, atr.period, trainingPeriod, multiplier, high, low, close);
        }
        if n >= atr.period {
          SeriesCluster(q, atr.period, trainingPeriod);
        }
      }
      atr.Append(high, low, previousClose);
      p := q;
      if |atr.series| < trainingPeriod {
        return;
      }
      var values := atr.series[|atr.series| - trainingPeriod..];
      var found := AdaptiveVolatilityCluster(values, atr.value);
      if found.None? {
        return;
      }
      SomethingToCluster(values, atr.value);
      Publish(high, low, previousClose, close, found.value);
    }

    method Publish(high: real, low: real, previousClose: real, close: real, given: Cluster)
      modifies `finalUpper, `finalLower, `up, `previousPoint, `currentPoint, `cluster, `pointCount
      ensures Bands(finalUpper, finalLower, up)
           == if old(pointCount) == 0 then Opening(high, low, close, Width(multiplier, given.assignedATR))
              else Following(old(Bands(finalUpper, finalLower, up)), high, low, close, previousClose, Width(multiplier, given.assignedATR))
      ensures previousPoint == old(currentPoint) && currentPoint == Some(PointOf(Bands(finalUpper, finalLower, up)))
      ensures cluster == Some(given) && pointCount == old(pointCount) + 1
    {
      var mid := (high + low) / 2.0;
      var basicUpper := mid + Width(multiplier, given.assignedATR);
      var basicLower := mid - Width(multiplier, given.assignedATR);
      if pointCount == 0 {
        finalUpper, finalLower, up := basicUpper, basicLower, close >= mid;
      } else {
        if basicUpper < finalUpper || previousClose > finalUpper {
          finalUpper := basicUpper;
        }
        if basicLower > finalLower || previousClose < finalLower {
          finalLower := basicLower;
        }
        if !up && close > finalUpper {
          up := true;
        } else if up && close < finalLower {
          up := false;
        }
      }
      previousPoint := currentPoint;
      currentPoint := Some(PointOf(Bands(finalUpper, finalLower, up)));
      cluster, pointCount := Some(given), pointCount + 1;
    }

    /** What the stream publishes is the specification of everything appended. */
    method Value() returns (r: Option<Adaptive>)
      requires Valid()
      ensures r == StreamOf(p, atr.period, multiplier, trainingPeriod)
    {
      hide AdaptiveBands, ClusterAt;
      if pointCount < 2 {
        return None;
      }
      r := Some(Adaptive([previousPoint.value, currentPoint.value], cluster.value));
    }
  }

  lemma {:induction false} SomethingToCluster(values: seq<real>, current: real)
    ensures ClusterOf(values, current).Some? ==> values != []
  {
  }

  lemma {:induction false} TableLast(ranges: seq<real>, period: nat)
    requires 0 < period < |ranges|
    ensures var table := AtrTable(ranges, period, |ranges|);
            |table| == |ranges| - period && table[|table| - 1] == WilderAt(ranges, period, |ranges| - 1)
  {
  }

  lemma {:induction false} ClusterUnfold(p: Prices, period: nat, training: nat, i: nat)
    requires p.Aligned() && period > 0 && training > 0 && First(period, training) <= i < |p.closes|
    ensures var atrs := AtrTable(TrueRanges(p, i + 1), period, i + 1);
            |atrs| == i + 1 - period && ClusterOf(atrs[|atrs| - training..], atrs[|atrs| - 1]) == Some(ClusterAt(p, period, training, i))
  {
    hide AtrTable, TrueRanges, ClusterOf;
    TrueRangesSlice(p, i + 1, i + 1);
    AtrTableSlice(TrueRanges(p, i + 1), period, i + 1, i + 1);
    var atrs := AtrTable(TrueRanges(p, i + 1), period, i + 1);
    ClusterExists(atrs[|atrs| - training..], atrs[|atrs| - 1]);
  }

  /** What the ATR series holds once p has been fed: enough of it, and its tail clusters as specified. */
  lemma {:induction false} SeriesCluster(p: Prices, period: nat, training: nat)
    requires p.Aligned() && 0 < period < |p.closes| && training > 0
    ensures var n, ranges := |p.closes|, TrueRanges(p, |p.closes|);
            && |ranges| == n
            && var series := AtrTable(ranges, period, n);
            && |series| == n - period
            && (|series| >= training ==>
                  ClusterOf(series[|series| - training..], WilderAt(ranges, period, n - 1)) == Some(ClusterAt(p, period, training, n - 1)))
  {
    hide AtrTable, TrueRanges, ClusterOf, ClusterAt, WilderAt;
    var n := |p.closes|;
    TrueRangesSlice(p, n, n);
    TableLast(TrueRanges(p, n), period);
    if n > First(period, training) {
      ClusterUnfold(p, period, training, n - 1);
    }
  }

  lemma {:induction false} NextBands(p: Prices, period: nat, training: nat, multiplier: real, high: real, low: real, close: real)
    requires p.Aligned() && period > 0 && training > 0 && First(period, training) <= |p.closes|
    ensures var q, n, first := Snoc(p, high, low, close), |p.closes|, First(period, training);
            var width := Width(multiplier, ClusterAt(q, period, training, n).assignedATR);
            && AdaptiveBands(q, period, training, multiplier, n)
               == (if n == first then Opening(high, low, close, width)
                   else Following(AdaptiveBands(p, period, training, multiplier, n - 1), high, low, close, p.closes[n - 1], width))
            && (n > first ==> AdaptiveBands(q, period, training, multiplier, n - 1) == AdaptiveBands(p, period, training, multiplier, n - 1))
  {
    hide Opening, Following, Width, ClusterAt;
    if |p.closes| > First(period, training) {
      BandsSnoc(p, period, training, multiplier, high, low, close, |p.closes| - 1);
    }
  }
}
