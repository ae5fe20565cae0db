/**
 * The six features of the AI source selector at one bar: recomputed from the whole
 * source, and read off a cursor that visits the bars in order and keeps two averages,
 * running moments and the extremes of the 20-bar deviation over 100 bars.
 */
module AiFeatures {
  import opened Numeric
  import opened IndicatorMath
  import opened MonotonicWindow

  const FIRST_INDEX: nat := 100
  const FIRST_VOL: nat := 19
  const VOL_LOOKBACK: nat := 99

  datatype Features = Features(trend: real, reversion: real, momentum: real, volatility: real, place: real, impulse: real)

  /** What the cursor hands over for one bar; fields not yet available are zero. */
  datatype Point = Point(ema10: real, ema34: real, sma30: real, stddev30: real, stddev20: real, volLow100: real, volHigh100: real)

  function Clamp(value: real, low: real, high: real): real {
    Max(low, Min(value, high))
  }

  function Scale01(value: real, low: real, high: real): real {
    if high == low then 0.5 else Clamp((value - low) / (high - low), 0.0, 1.0)
  }

  /** Both forms end with this formula over their own numbers; `priceRange` is never zero here. */
  function FeaturesOf(p: Point, latest: real, past14: real, past3: real, low: real, priceRange: real, atr: real): Features
    requires atr > 0.0 && p.stddev30 != 0.0 && past14 != 0.0 && priceRange != 0.0
  {
    Features(Clamp((p.ema10 - p.ema34) / atr, -3.0, 3.0) / 3.0,
             Clamp(-(latest - p.sma30) / p.stddev30, -3.0, 3.0) / 3.0,
             Clamp((latest / past14 - 1.0) / 0.05, -3.0, 3.0) / 3.0,
             Scale01(p.stddev20, p.volLow100, p.volHigh100) * 2.0 - 1.0,
             Clamp((latest - low) / priceRange * 2.0 - 1.0, -1.0, 1.0),
             Clamp((latest - past3) / atr, -3.0, 3.0) / 3.0)
  }

  function PriceRange(high: real, low: real): (r: real)
    ensures r != 0.0
  {
    if high - low == 0.0 then 1.0 else high - low
  }

  function FeaturesFromPoint(p: Point, source: seq<real>, highs: seq<real>, lows: seq<real>, index: int, atr: real): Option<Features>
    requires |highs| == |lows| == |source|
  {
    if index < FIRST_INDEX || index >= |source| || atr <= 0.0 then None
    else if p.stddev30 == 0.0 || source[index - 14] == 0.0 then None
    else Some(FeaturesOf(p, source[index], source[index - 14], source[index - 3], lows[index], PriceRange(highs[index], lows[index]), atr))
  }

  // ----- what every number means -----

  /** The deviation of the 20 values ending at i, zero before there are 20. */
  function VolAt(source: seq<real>, i: nat, sqrt: real -> real): real
    requires i < |source|
  {
    if i < FIRST_VOL then 0.0 else sqrt(Variance(source, i - 19, i + 1))
  }

  function Vols(source: seq<real>, n: nat, sqrt: real -> real): (r: seq<real>)
    requires n <= |source|
    ensures |r| == n
    ensures forall i :: 0 <= i < n ==> r[i] == VolAt(source, i, sqrt)
  {
    if n == 0 then [] else Vols(source, n - 1, sqrt) + [VolAt(source, n - 1, sqrt)]
  }

  /** The oldest deviation still looked at from bar i. */
  function VolStart(i: nat): nat {
    if i < FIRST_VOL + VOL_LOOKBACK then FIRST_VOL else i - VOL_LOOKBACK
  }

  /** Running average until `period` values are there, exponential from then on. */
  function WarmEma(xs: seq<real>, period: nat): real
    requires 1 <= |xs| && 1 <= period
  {
    if |xs| <= period then Mean(xs, 0, |xs|) else Blend(WarmEma(xs[..|xs| - 1], period), xs[|xs| - 1], period)
  }

  lemma {:induction false} WarmEmaIsEma(xs: seq<real>, period: nat)
    requires 1 <= period <= |xs|
    ensures WarmEma(xs, period) == EmaOf(xs, period)
    decreases |xs|
  {
    hide Blend;
    if |xs| > period {
      WarmEmaIsEma(xs[..|xs| - 1], period);
    }
  }

  /** Everything the cursor should know at bar `index`. */
  function PointAt(source: seq<real>, index: nat, sqrt: real -> real): Point
    requires index < |source|
  {
    var vols := Vols(source, |source|, sqrt);
    Point(WarmEma(source[..index + 1], 10), WarmEma(source[..index + 1], 34),
          if index < 29 then 0.0 else Mean(source, index - 29, index + 1),
          if index < 29 then 0.0 else sqrt(Variance(source, index - 29, index + 1)),
          VolAt(source, index, sqrt),
          if index < FIRST_VOL then 0.0 else RangeMin(vols, VolStart(index), index + 1),
          if index < FIRST_VOL then 0.0 else RangeMax(vols, VolStart(index), index + 1))
  }

  // ----- the brute force -----

  method DeviationOfPrefix(source: seq<real>, end: nat, period: nat, sqrt: real -> real) returns (deviation: real)
    requires 1 <= period <= end <= |source|
    ensures deviation == sqrt(Variance(source, end - period, end))
  {
    hide RangeSum, RangeDevSq;
    var ok;
    deviation, ok := StandardDeviation(source[..end], period, sqrt);
    RangeSumSame(source[..end], source, end - period, end);
    RangeDevSqSame(source[..end], source, end - period, end, Mean(source, end - period, end));
  }

  /** Lowest and highest deviation over the lookback; windows without 20 values are skipped. */
  method VolExtremes(source: seq<real>, index: nat, volNow: real, sqrt: real -> real) returns (volLow: real, volHigh: real)
    requires FIRST_INDEX <= index < |source| && volNow == VolAt(source, index, sqrt)
    ensures var vols := Vols(source, |source|, sqrt);
            volLow == RangeMin(vols, VolStart(index), index + 1) && volHigh == RangeMax(vols, VolStart(index), index + 1)
  {
    hide Variance, Vols;
    ghost var vols, start := Vols(source, |source|, sqrt), VolStart(index);
    VolsAre(source, sqrt);
    volLow, volHigh := volNow, volNow;
    for lookback := index - 99 to index + 1
      invariant forall i :: start <= i < lookback ==> volLow <= vols[i] <= volHigh
      invariant volLow <= vols[index] <= volHigh
      invariant exists i :: start <= i <= index && vols[i] == volLow
      invariant exists i :: start <= i <= index && vols[i] == volHigh
    {
      if lookback >= FIRST_VOL {
        var vol := DeviationOfPrefix(source, lookback + 1, 20, sqrt);
        assert vol == VolAt(source, lookback, sqrt) == vols[lookback];
        volLow := Min(volLow, vol);
        volHigh := Max(volHigh, vol);
      }
    }
  }

  lemma {:induction false} VolsAre(source: seq<real>, sqrt: real -> real)
    ensures |Vols(source, |source|, sqrt)| == |source|
    ensures forall i :: 0 <= i < |source| ==> Vols(source, |source|, sqrt)[i] == VolAt(source, i, sqrt)
  {
  }

  method AiSourceFeatures(source: seq<real>, highs: seq<real>, lows: seq<real>, index: int, atr: real, sqrt: real -> real)
    returns (features: Option<Features>)
    requires |highs| == |lows| == |source|
    ensures features == if 0 <= index < |source| then FeaturesFromPoint(PointAt(source, index, sqrt), source, highs, lows, index, atr) else None
  {
    hide Variance, Vols, RangeMax, RangeMin, Mean, EmaOf, WarmEma, FeaturesOf;
    if index < FIRST_INDEX || index >= |source| || atr <= 0.0 {
      return None;
    }
    var fast, _ := Ema(source[..index + 1], 10);
    var slow, _ := Ema(source[..index + 1], 34);
    WarmEmaIsEma(source[..index + 1], 10);
    WarmEmaIsEma(source[..index + 1], 34);
    var mean := SmaOfPrefix(source, index + 1, 30);
    var dev := DeviationOfPrefix(source, index + 1, 30, sqrt);
    if dev == 0.0 || source[index - 14] == 0.0 {
      return None;
    }
    var volNow := DeviationOfPrefix(source, index + 1, 20, sqrt);
    var volLow, volHigh := VolExtremes(source, index, volNow, sqrt);
    var priceRange := PriceRange(highs[index], lows[index]);
    features := Some(FeaturesOf(Point(fast, slow, mean, dev, volNow, volLow, volHigh), source[index], source[index - 14], source[index - 3],
                                lows[index], priceRange, atr));
  }

  // ----- the cursor -----

  class WarmEmaState {
    const period: nat
    var sum: real
    var count: nat
    var value: real
    var ready: bool

    ghost predicate Follows(seen: seq<real>)
      reads this
    {
      && period >= 1
      && (ready <==> |seen| >= period)
      && (!ready ==> count == |seen| && sum == RangeSum(seen, 0, |seen|))
      && (seen != [] ==> value == WarmEma(seen, period))
    }

    constructor (period: nat)
      requires period >= 1
      ensures this.period == period && Follows([])
    {
      this.period := period;
      sum, count, value, ready := 0.0, 0, 0.0, false;
    }

    method Append(next: real, ghost seen: seq<real>) returns (average: real)
      requires Follows(seen) && period > 1
      modifies this
      ensures Follows(seen + [next]) && average == WarmEma(seen + [next], period)
    {
      ghost var after := seen + [next];
      RangeSumSame(seen, after, 0, |seen|);
      if !ready {
        sum := sum + next;
        count := count + 1;
        value := sum / count as real;
        if count >= period {
          ready := true;
        }
        return value;
      }
      WarmEmaStep(seen, next, period);
      value := Blend(value, next, period);
      return value;
    }
  }

  lemma {:induction false} WarmEmaStep(seen: seq<real>, next: real, period: nat)
    requires 1 <= period <= |seen|
    ensures WarmEma(seen + [next], period) == Blend(WarmEma(seen, period), next, period)
  {
    assert (seen + [next])[..|seen|] == seen;
  }

  function Back(i: nat, n: nat): nat {
    if i < n then 0 else i - n
  }

  class FeatureCursor {
    const source: seq<real>
    const ema10: WarmEmaState
    const ema34: WarmEmaState
    const volLowWindow: FloatMonotonicWindow
    const volHighWindow: FloatMonotonicWindow
    var sum30: real
    var sumSq30: real
    var sum20: real
    var sumSq20: real
    ghost var visited: nat
    const sqrt: real -> real

    /** The oldest deviation the deques hold once `visited` bars were seen. */
    ghost function HeldFrom(): nat
      reads `visited
    {
      if visited <= FIRST_VOL then visited else VolStart(visited - 1)
    }

    ghost predicate SumsHeld()
      reads `visited, `sum30, `sumSq30
    {
      && visited <= |source|
      && sum30 == RangeSum(source, Back(visited, 30), visited) && sumSq30 == RangeSumSq(source, Back(visited, 30), visited)
    }

    ghost predicate SumsHeld20()
      reads `visited, `sum20, `sumSq20
    {
      && visited <= |source|
      && sum20 == RangeSum(source, Back(visited, 20), visited) && sumSq20 == RangeSumSq(source, Back(visited, 20), visited)
    }

    ghost predicate WindowsHeld(vols: seq<real>)
      reads `visited, volLowWindow, volLowWindow.values, volHighWindow, volHighWindow.values
    {
      && HeldFrom() <= visited <= |vols|
      && TrackPair(volHighWindow, volLowWindow, vols, vols, HeldFrom(), visited)
    }

    ghost predicate Valid()
      reads this, ema10, ema34, volLowWindow, volLowWindow.values, volHighWindow, volHighWindow.values
    {
      && ema10 != ema34 && ema10.period == 10 && ema34.period == 34
      && visited <= |source|
      && ema10.Follows(source[..visited]) && ema34.Follows(source[..visited])
      && SumsHeld() && SumsHeld20() && WindowsHeld(Vols(source, |source|, sqrt))
    }

    constructor (source: seq<real>, sqrt: real -> real)
      ensures Valid() && visited == 0 && this.source == source && this.sqrt == sqrt
      ensures fresh(ema10) && fresh(ema34) && fresh(volLowWindow) && fresh(volLowWindow.values)
      ensures fresh(volHighWindow) && fresh(volHighWindow.values)
    {
      hide Vols, Frontier;
      this.source, this.sqrt, visited := source, sqrt, 0;
      ema10 := new WarmEmaState(10);
      ema34 := new WarmEmaState(34);
      ghost var vols := Vols(source, |source|, sqrt);
      NothingTracked(vols, true, 0);
      NothingTracked(vols, false, 0);
      var highs, lows := NewPair();
      volHighWindow, volLowWindow := highs, lows;
      sum30, sumSq30, sum20, sumSq20 := 0.0, 0.0, 0.0, 0.0;
    }

    /** The features' numbers of the next bar; other positions are refused and change nothing. */
    method Next(index: int) returns (point: Point)
      requires Valid() && (0 <= index < |source| ==> index == visited)
      modifies this, ema10, ema34, volLowWindow, volLowWindow.values, volHighWindow, volHighWindow.values
      ensures Valid()
      ensures 0 <= index < |source| ==> visited == old(visited) + 1 && point == PointAt(source, index, sqrt)
      ensures !(0 <= index < |source|) ==> visited == old(visited) && point == Point(0.0, 0.0, 0.0, 0.0, 0.0, 0.0, 0.0)
    {
      hide Vols, TrackPair, WarmEma, Mean, Variance, VolAt, VolStart, RangeSum, RangeSumSq, RangeMax, RangeMin, WarmEmaState.Follows;
      VolsAre(source, sqrt);
      point := Point(0.0, 0.0, 0.0, 0.0, 0.0, 0.0, 0.0);
      if index < 0 || index >= |source| {
        return;
      }
      assert source[..index + 1] == source[..index] + [source[index]];
      var fast := ema10.Append(source[index], source[..index]);
      var slow := ema34.Append(source[index], source[..index]);
      var mean, dev := SlideMoments30(index);
      var vol := SlideMoments20(index);
      var low, high := SlideWindows(index, vol, Vols(source, |source|, sqrt));
      visited := visited + 1;
      point := Point(fast, slow, mean, dev, vol, low, high);
    }

    /** The 30-bar moments take the bar in and drop the one that leaves. */
    method SlideMoments30(index: nat) returns (mean: real, dev: real)
      requires SumsHeld() && index == visited < |source|
      modifies `sum30, `sumSq30
      ensures sum30 == RangeSum(source, Back(index + 1, 30), index + 1) && sumSq30 == RangeSumSq(source, Back(index + 1, 30), index + 1)
      ensures mean == if index < 29 then 0.0 else Mean(source, index - 29, index + 1)
      ensures dev == if index < 29 then 0.0 else sqrt(Variance(source, index - 29, index + 1))
    {
      hide RangeSum, RangeSumSq, Variance;
      var value := source[index];
      mean, dev := 0.0, 0.0;
      SlideBoth(source, index, 30);
      sum30 := sum30 + value;
      sumSq30 := sumSq30 + value * value;
      if index >= 30 {
        var drop := source[index - 30];
        sum30 := sum30 - drop;
        sumSq30 := sumSq30 - drop * drop;
      }
      if index >= 29 {
        RunningMoments(source, index + 1, 30);
        mean := sum30 / 30.0;
        assert mean == Mean(source, index - 29, index + 1);
        var variance := Max(sumSq30 / 30.0 - mean * mean, 0.0);
        assert variance == Variance(source, index - 29, index + 1);
        dev := sqrt(variance);
      }
    }

    method SlideMoments20(index: nat) returns (vol: real)
      requires SumsHeld20() && index == visited < |source|
      modifies `sum20, `sumSq20
      ensures sum20 == RangeSum(source, Back(index + 1, 20), index + 1) && sumSq20 == RangeSumSq(source, Back(index + 1, 20), index + 1)
      ensures vol == VolAt(source, index, sqrt)
    {
      hide RangeSum, RangeSumSq, Variance;
      var value := source[index];
      vol := 0.0;
      SlideBoth(source, index, 20);
      sum20 := sum20 + value;
      sumSq20 := sumSq20 + value * value;
      if index >= 20 {
        var drop := source[index - 20];
        sum20 := sum20 - drop;
        sumSq20 := sumSq20 - drop * drop;
      }
      if index >= FIRST_VOL {
        RunningMoments(source, index + 1, 20);
        var mean := sum20 / 20.0;
        assert mean == Mean(source, index - 19, index + 1);
        var variance := Max(sumSq20 / 20.0 - mean * mean, 0.0);
        assert variance == Variance(source, index - 19, index + 1);
        vol := sqrt(variance);
      }
    }

    /** The deques start with the first available deviation and keep the last hundred. */
    method SlideWindows(index: nat, vol: real, ghost vols: seq<real>) returns (low: real, high: real)
      requires index == visited < |vols| == |source| && vol == vols[index] && WindowsHeld(vols)
      modifies volLowWindow, volLowWindow.values, volHighWindow, volHighWindow.values
      ensures var lo := if index < FIRST_VOL then index + 1 else VolStart(index);
              lo <= index + 1 && TrackPair(volHighWindow, volLowWindow, vols, vols, lo, index + 1)
      ensures low == if index < FIRST_VOL then 0.0 else RangeMin(vols, VolStart(index), index + 1)
      ensures high == if index < FIRST_VOL then 0.0 else RangeMax(vols, VolStart(index), index + 1)
    {
      hide TrackPair, RangeMin, RangeMax;
      low, high := 0.0, 0.0;
      ghost var lo := HeldFrom();
      if index >= FIRST_VOL {
        PushTracked(volHighWindow, volLowWindow, vols, vols, lo, index, vol, vol);
        var ok;
        high, low, ok := ReadTracked(volHighWindow, volLowWindow, vols, vols, lo, index - 99, VolStart(index), index + 1);
      } else {
        EmptyPair(volHighWindow, volLowWindow, vols, lo, index + 1);
      }
    }
  }

  lemma {:induction false} SlideBoth(source: seq<real>, index: nat, n: nat)
    requires index < |source| && 1 <= n
    ensures RangeSum(source, Back(index + 1, n), index + 1)
         == RangeSum(source, Back(index, n), index) + source[index] - (if index >= n then source[index - n] else 0.0)
    ensures RangeSumSq(source, Back(index + 1, n), index + 1)
         == RangeSumSq(source, Back(index, n), index) + source[index] * source[index]
            - (if index >= n then source[index - n] * source[index - n] else 0.0)
  {
    if index >= n {
      RangeSumDropFirst(source, index - n, index + 1);
    }
  }

  /** The running moments are the two-pass ones, so the clamp at zero is never needed. */
  lemma {:induction false} RunningMoments(source: seq<real>, hi: nat, count: nat)
    requires 0 < count <= hi <= |source|
    ensures RangeSum(source, hi - count, hi) / count as real == Mean(source, hi - count, hi)
    ensures var mean := Mean(source, hi - count, hi);
            Max(RangeSumSq(source, hi - count, hi) / count as real - mean * mean, 0.0) == Variance(source, hi - count, hi)
  {
    hide RangeSum, RangeSumSq, Variance;
    RunningVarianceIsTwoPass(source, hi - count, hi);
    VarianceNonNegative(source, hi - count, hi);
  }

  /** Deques that hold nothing hold the empty window wherever it starts. */
  lemma {:induction false} EmptyPair(highWindow: FloatMonotonicWindow, lowWindow: FloatMonotonicWindow, vols: seq<real>, lo: nat, next: nat)
    requires lo <= |vols| && next <= |vols| && TrackPair(highWindow, lowWindow, vols, vols, lo, lo)
    ensures TrackPair(highWindow, lowWindow, vols, vols, next, next)
  {
  }

  /** One visited bar gives the brute-force features, refusals included. */
  method FeaturesAt(cursor: FeatureCursor, highs: seq<real>, lows: seq<real>, index: nat, atr: real) returns (features: Option<Features>)
    requires cursor.Valid() && index == cursor.visited < |cursor.source| == |highs| == |lows|
    modifies cursor, cursor.ema10, cursor.ema34, cursor.volLowWindow, cursor.volLowWindow.values, cursor.volHighWindow,
         cursor.volHighWindow.values
    ensures cursor.Valid() && cursor.visited == index + 1
    ensures features == FeaturesFromPoint(PointAt(cursor.source, index, cursor.sqrt), cursor.source, highs, lows, index, atr)
  {
    var point := cursor.Next(index);
    features := FeaturesFromPoint(point, cursor.source, highs, lows, index, atr);
  }

  // ----- what a feature says -----

  /** A third of a clamped measure: the measure against its unit, full at three units either way. */
  ghost predicate Measures(feature: real, amount: real, scale: real) {
    && -1.0 <= feature <= 1.0
    && (amount >= 3.0 * scale ==> feature == 1.0) && (amount <= -3.0 * scale ==> feature == -1.0)
    && (-3.0 * scale <= amount <= 3.0 * scale ==> 3.0 * feature * scale == amount)
  }

  lemma {:induction false} ClampMeasures(amount: real, scale: real)
    requires scale > 0.0
    ensures Measures(Clamp(amount / scale, -3.0, 3.0) / 3.0, amount, scale)
  {
    var q := amount / scale;
    assert q * scale == amount;
    FactorOrder(q, 3.0, scale);
    FactorOrder(-3.0, q, scale);
    FactorOrder(3.0, q, scale);
    FactorOrder(q, -3.0, scale);
  }

  lemma {:induction false} FactorOrder(x: real, y: real, scale: real)
    requires scale > 0.0
    ensures x <= y <==> x * scale <= y * scale
  {
    if x > y {
      assert (x - y) * scale > 0.0;
    } else {
      assert (y - x) * scale >= 0.0;
    }
  }

  lemma {:induction false} MomentumMeasures(latest: real, past: real)
    requires past > 0.0
    ensures Measures(Clamp((latest / past - 1.0) / 0.05, -3.0, 3.0) / 3.0, latest - past, 0.05 * past)
  {
    var q := latest / past;
    assert q * past == latest;
    var amount := (q - 1.0) / 0.05;
    assert amount * (0.05 * past) == latest - past;
    assert 0.05 * past > 0.0;
    SameQuotient(amount, latest - past, 0.05 * past);
    ClampMeasures(latest - past, 0.05 * past);
  }

  lemma {:induction false} SameQuotient(q: real, amount: real, scale: real)
    requires scale > 0.0 && q * scale == amount
    ensures amount / scale == q
  {
  }

  lemma {:induction false} ReversionMeasures(latest: real, mean: real, deviation: real)
    requires deviation > 0.0
    ensures Measures(Clamp(-(latest - mean) / deviation, -3.0, 3.0) / 3.0, mean - latest, deviation)
  {
    ClampMeasures(mean - latest, deviation);
    assert -(latest - mean) == mean - latest;
  }

  /** Where a value lies between two bounds, from -1 at the lower to 1 at the upper; 0 when they coincide. */
  ghost predicate Places(feature: real, value: real, low: real, high: real) {
    && -1.0 <= feature <= 1.0
    && (low == high ==> feature == 0.0)
    && (low < high && low <= value <= high ==> feature * (high - low) == (value - low) - (high - value))
  }

  lemma {:induction false} ScalePlaces(value: real, low: real, high: real)
    ensures Places(Scale01(value, low, high) * 2.0 - 1.0, value, low, high)
  {
    if low < high && low <= value <= high {
      var q := (value - low) / (high - low);
      assert q * (high - low) == value - low;
      QuotientInUnit(value - low, high - low);
    }
  }

  lemma {:induction false} QuotientInUnit(part: real, whole: real)
    requires 0.0 <= part <= whole && whole > 0.0
    ensures 0.0 <= part / whole <= 1.0
  {
  }

  lemma {:induction false} ClosePlaces(latest: real, high: real, low: real)
    requires low <= latest <= high && low < high
    ensures Places(Clamp((latest - low) / PriceRange(high, low) * 2.0 - 1.0, -1.0, 1.0), latest, low, high)
  {
    var q := (latest - low) / (high - low);
    assert q * (high - low) == latest - low;
    QuotientInUnit(latest - low, high - low);
  }

  /**
   * The six features: averages apart in units of ATR, distance below the mean in deviations,
   * change over fourteen bars in steps of five percent, place of the deviation among the last
   * hundred, place of the close in its bar, and change over three bars in units of ATR.
   */
  lemma {:induction false} FeaturesSay(p: Point, latest: real, past14: real, past3: real, high: real, low: real, atr: real)
    requires atr > 0.0 && p.stddev30 > 0.0 && past14 > 0.0
    ensures var f := FeaturesOf(p, latest, past14, past3, low, PriceRange(high, low), atr);
            && Measures(f.trend, p.ema10 - p.ema34, atr) && Measures(f.reversion, p.sma30 - latest, p.stddev30)
            && Measures(f.momentum, latest - past14, 0.05 * past14) && Places(f.volatility, p.stddev20, p.volLow100, p.volHigh100)
            && (low <= latest <= high && low < high ==> Places(f.place, latest, low, high)) && Measures(f.impulse, latest - past3, atr)
            && (high == low && low <= latest <= low + 1.0 ==> f.place == 2.0 * (latest - low) - 1.0) && -1.0 <= f.place <= 1.0
  {
    hide Measures, Places, Scale01;
    ClampMeasures(p.ema10 - p.ema34, atr);
    ReversionMeasures(latest, p.sma30, p.stddev30);
    MomentumMeasures(latest, past14);
    ScalePlaces(p.stddev20, p.volLow100, p.volHigh100);
    ClampMeasures(latest - past3, atr);
    if low <= latest <= high && low < high {
      ClosePlaces(latest, high, low);
    }
  }

  /** The features of bar `index`, from the closes, highs and lows of the source alone. */
  lemma {:induction false} FeaturesOfBar(source: seq<real>, highs: seq<real>, lows: seq<real>, index: nat, atr: real, sqrt: real -> real)
    requires |highs| == |lows| == |source| && 100 <= index < |source| && atr > 0.0
    requires sqrt(Variance(source, index - 29, index + 1)) > 0.0 && source[index - 14] > 0.0
    ensures var p, r := PointAt(source, index, sqrt), FeaturesFromPoint(PointAt(source, index, sqrt), source, highs, lows, index, atr);
            var close, high, low, seen := source[index], highs[index], lows[index], source[..index + 1];
            && r.Some?
            && Measures(r.value.trend, EmaOf(seen, 10) - EmaOf(seen, 34), atr)
            && Measures(r.value.reversion, Mean(source, index - 29, index + 1) - close, sqrt(Variance(source, index - 29, index + 1)))
            && Measures(r.value.momentum, close - source[index - 14], 0.05 * source[index - 14])
            && Places(r.value.volatility, Deviation20(source, index, sqrt), p.volLow100, p.volHigh100)
            && (low <= close <= high && low < high ==> Places(r.value.place, close, low, high))
            && (high == low && low <= close <= low + 1.0 ==> r.value.place == 2.0 * (close - low) - 1.0)
            && Measures(r.value.impulse, close - source[index - 3], atr)
  {
    hide Measures, Places, PointAt, FeaturesOf, Variance, Mean, EmaOf, PriceRange, Deviation20;
    PointAverages(source, index, sqrt);
    var p := PointAt(source, index, sqrt);
    FeaturesSay(p, source[index], source[index - 14], source[index - 3], highs[index], lows[index], atr);
  }

  /** Before its window is full an average of thirty or a deviation of twenty is zero, and so are the extremes. */
  lemma {:induction false} PointWarmsUp(source: seq<real>, index: nat, sqrt: real -> real)
    requires index < |source|
    ensures var p := PointAt(source, index, sqrt);
            && (index < 29 ==> p.sma30 == p.stddev30 == 0.0) && (index < 19 ==> p.stddev20 == p.volLow100 == p.volHigh100 == 0.0)
            && (index < 10 ==> p.ema10 == Mean(source[..index + 1], 0, index + 1)) && (index < 34 ==> p.ema34 == Mean(source[..index + 1], 0, index + 1))
  {
    hide Mean, Variance, Vols;
  }

  /** A bar has features exactly from the hundredth on, with a positive ATR, a deviation and a price fourteen bars back. */
  lemma {:induction false} FeaturesExist(source: seq<real>, highs: seq<real>, lows: seq<real>, index: nat, atr: real, sqrt: real -> real)
    requires |highs| == |lows| == |source| && index < |source|
    ensures FeaturesFromPoint(PointAt(source, index, sqrt), source, highs, lows, index, atr).Some?
       <==> index >= 100 && atr > 0.0 && sqrt(Variance(source, index - 29, index + 1)) != 0.0 && source[index - 14] != 0.0
  {
    hide Vols, Variance, Mean, WarmEma, RangeMin, RangeMax, FeaturesOf;
  }

  /** The deviation of the twenty values that end with value i. */
  ghost function Deviation20(source: seq<real>, i: nat, sqrt: real -> real): real
    requires 19 <= i < |source|
  {
    sqrt(Variance(source, i - 19, i + 1))
  }

  lemma {:induction false} VolIsDeviation(source: seq<real>, sqrt: real -> real, i: nat)
    requires 19 <= i < |source|
    ensures |Vols(source, |source|, sqrt)| == |source| && Vols(source, |source|, sqrt)[i] == Deviation20(source, i, sqrt)
  {
    hide Vols, Variance;
    VolsAre(source, sqrt);
  }

  /** The averages and the deviation of a point, over the values up to its bar. */
  lemma {:induction false} PointAverages(source: seq<real>, index: nat, sqrt: real -> real)
    requires 29 <= index < |source|
    ensures var p := PointAt(source, index, sqrt);
            && p.ema10 == EmaOf(source[..index + 1], 10) && (index >= 33 ==> p.ema34 == EmaOf(source[..index + 1], 34))
            && p.sma30 == Mean(source, index - 29, index + 1) && p.stddev30 == sqrt(Variance(source, index - 29, index + 1))
            && p.stddev20 == Deviation20(source, index, sqrt)
  {
    hide Variance, Mean, WarmEma, EmaOf, Vols, RangeMin, RangeMax;
    WarmEmaIsEma(source[..index + 1], 10);
    if index >= 33 {
      WarmEmaIsEma(source[..index + 1], 34);
    }
  }

  /** The extremes a point keeps are those of the last hundred deviations, of twenty values each. */
  lemma {:induction false} PointExtremes(source: seq<real>, index: nat, sqrt: real -> real)
    requires 19 <= index < |source|
    ensures var p, first := PointAt(source, index, sqrt), if index < 118 then 19 else index - 99;
            && (forall i :: first <= i <= index ==> p.volLow100 <= Deviation20(source, i, sqrt) <= p.volHigh100)
            && (exists i :: first <= i <= index && p.volLow100 == Deviation20(source, i, sqrt))
            && (exists i :: first <= i <= index && p.volHigh100 == Deviation20(source, i, sqrt))
  {
    hide Variance, Mean, WarmEma, Vols, Deviation20;
    var vols, first := Vols(source, |source|, sqrt), VolStart(index);
    VolIsDeviation(source, sqrt, index);
    forall i | first <= i <= index ensures vols[i] == Deviation20(source, i, sqrt) {
      VolIsDeviation(source, sqrt, i);
    }
    var p := PointAt(source, index, sqrt);
    assert p.volLow100 == RangeMin(vols, first, index + 1) && p.volHigh100 == RangeMax(vols, first, index + 1);
    var lowest :| first <= lowest <= index && vols[lowest] == p.volLow100;
    var highest :| first <= highest <= index && vols[highest] == p.volHigh100;
    assert p.volLow100 == Deviation20(source, lowest, sqrt) && p.volHigh100 == Deviation20(source, highest, sqrt);
  }
}
