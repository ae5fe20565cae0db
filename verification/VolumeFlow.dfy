/**
 * The Volume Flow Indicator: capped signed volume summed over `length` bars, divided
 * by the average volume of the bars before, with an exponential signal line.  This
 * file is the reference definition and the quadratic implementation of it.
 */
module VolumeFlow {
  import opened Numeric
  import opened IndicatorMath

  const INTER_WINDOW: nat := 30

  datatype Market = Market(highs: seq<real>, lows: seq<real>, closes: seq<real>, volumes: seq<real>) {
    predicate Aligned() {
      |highs| == |closes| && |lows| == |closes| && |volumes| == |closes|
    }

    function Typical(i: nat): real
      requires Aligned() && i < |closes|
    {
      (highs[i] + lows[i] + closes[i]) / 3.0
    }
  }

  /** The square root and the logarithm are parameters: only their being functions matters. */
  datatype Settings = Settings(length: nat, coef: real, volumeCoef: real, signalLength: nat, log: real -> real, sqrt: real -> real)

  /** Logarithmic change of the typical price, zero where a price is not positive. */
  function InterOf(log: real -> real, previousTypical: real, typical: real): real {
    if typical > 0.0 && previousTypical > 0.0 then log(typical) - log(previousTypical) else 0.0
  }

  function Inters(m: Market, log: real -> real, n: nat): (r: seq<real>)
    requires m.Aligned() && n <= |m.closes|
    ensures |r| == n
  {
    if n == 0 then []
    else Inters(m, log, n - 1) + [if n == 1 then 0.0 else InterOf(log, m.Typical(n - 2), m.Typical(n - 1))]
  }

  /** What one bar contributes; an invalid bar contributes nothing. */
  datatype Flow = Flow(valid: bool, vcp: real, priceCutoff: real, volumeCutoff: real)

  const NoFlow: Flow := Flow(false, 0.0, 0.0, 0.0)

  function SignedVolume(volume: real, volumeCutoff: real, moneyFlow: real, priceCutoff: real): real {
    var capped := if volume > volumeCutoff then volumeCutoff else volume;
    if moneyFlow > priceCutoff then capped else if moneyFlow < -priceCutoff then -capped else 0.0
  }

  function FlowFrom(s: Settings, volatility: real, volumeAverage: real, close: real, volume: real, moneyFlow: real): Flow {
    var priceCutoff, volumeCutoff := s.coef * volatility * close, volumeAverage * s.volumeCoef;
    Flow(true, SignedVolume(volume, volumeCutoff, moneyFlow, priceCutoff), priceCutoff, volumeCutoff)
  }

  /** The volume of the `length` bars before bar i, or of all of them if there are fewer. */
  function PriorVolume(m: Market, length: nat, i: nat): real
    requires m.Aligned() && i < |m.closes|
  {
    RangeSum(m.volumes, if i < length then 0 else i - length, i)
  }

  function FlowAt(m: Market, s: Settings, i: nat): Flow
    requires m.Aligned() && i < |m.closes| && 1 <= s.length
  {
    if i < s.length || i < INTER_WINDOW || PriorVolume(m, s.length, i) == 0.0 then NoFlow
    else
      FlowFrom(s, s.sqrt(Variance(Inters(m, s.log, i + 1), i + 1 - INTER_WINDOW, i + 1)),
               PriorVolume(m, s.length, i) / s.length as real, m.closes[i], m.volumes[i], m.Typical(i) - m.Typical(i - 1))
  }

  function Flows(m: Market, s: Settings, n: nat): (r: seq<Flow>)
    requires m.Aligned() && n <= |m.closes| && 1 <= s.length
    ensures |r| == n
  {
    if n == 0 then [] else Flows(m, s, n - 1) + [FlowAt(m, s, n - 1)]
  }

  function SumVcp(flows: seq<Flow>, lo: nat, hi: nat): real
    requires lo <= hi <= |flows|
    decreases hi
  {
    if lo == hi then 0.0 else SumVcp(flows, lo, hi - 1) + flows[hi - 1].vcp
  }

  function CountInvalid(flows: seq<Flow>, lo: nat, hi: nat): nat
    requires lo <= hi <= |flows|
    decreases hi
  {
    if lo == hi then 0 else CountInvalid(flows, lo, hi - 1) + if flows[hi - 1].valid then 0 else 1
  }

  datatype VfiPoint = VfiPoint(value: real, priceCutoff: real, volumeCutoff: real)

  /** Bar i has a value when the last `length` bars all contributed. */
  predicate Emits(flows: seq<Flow>, length: nat, i: nat)
    requires i < |flows| && 1 <= length
  {
    i + 1 >= length && CountInvalid(flows, i + 1 - length, i + 1) == 0
  }

  function PointFrom(vcpSum: real, priorVolume: real, length: nat, flow: Flow): VfiPoint
    requires priorVolume != 0.0 && 1 <= length
  {
    var volumeAverage := priorVolume / length as real;
    VfiPoint(Quotient(vcpSum, volumeAverage), flow.priceCutoff, flow.volumeCutoff)
  }

  /** Division that the callers only use with a non-zero divisor. */
  function Quotient(a: real, b: real): real {
    if b == 0.0 then 0.0 else a / b
  }

  lemma {:induction false} LastFlowValid(flows: seq<Flow>, length: nat, i: nat)
    requires i < |flows| && 1 <= length && Emits(flows, length, i)
    ensures flows[i].valid
  {
  }

  lemma {:induction false} ValidFlow(m: Market, s: Settings, n: nat, i: nat)
    requires m.Aligned() && i < n <= |m.closes| && 1 <= s.length
    ensures Flows(m, s, n)[i] == FlowAt(m, s, i)
    ensures Flows(m, s, n)[i].valid ==> i >= s.length && PriorVolume(m, s.length, i) != 0.0
    decreases n
  {
    if i < n - 1 {
      ValidFlow(m, s, n - 1, i);
    }
  }

  /** The indicator values of the first n bars, oldest first. */
  function Points(m: Market, s: Settings, n: nat): seq<VfiPoint>
    requires m.Aligned() && n <= |m.closes| && 1 <= s.length
  {
    if n == 0 then []
    else
      var flows := Flows(m, s, n);
      Points(m, s, n - 1) +
      if Emits(flows, s.length, n - 1) && PriorVolume(m, s.length, n - 1) != 0.0
      then [PointFrom(SumVcp(flows, n - s.length, n), PriorVolume(m, s.length, n - 1), s.length, flows[n - 1])]
      else []
  }

  function ValuesOf(points: seq<VfiPoint>): (r: seq<real>)
    ensures |r| == |points|
    ensures forall i :: 0 <= i < |points| ==> r[i] == points[i].value
  {
    if points == [] then [] else ValuesOf(points[..|points| - 1]) + [points[|points| - 1].value]
  }

  datatype VfiResult = VfiResult(value: real, signal: real, hist: real, previousValue: real, previousSignal: real,
                                 volumeCutoff: real, priceCutoff: real)

  function ResultOf(points: seq<VfiPoint>, signalLength: nat): Option<VfiResult>
    requires 1 <= signalLength
  {
    if |points| < signalLength + 1 then None
    else
      var signals := EmaSeq(ValuesOf(points), signalLength);
      var last, signal := points[|points| - 1], signals[|signals| - 1];
      Some(VfiResult(last.value, signal, last.value - signal, points[|points| - 2].value, signals[|signals| - 2],
                     last.volumeCutoff, last.priceCutoff))
  }

  predicate Accepts(m: Market, s: Settings) {
    s.length > 0 && s.coef > 0.0 && s.volumeCoef > 0.0 && s.signalLength > 0 && m.Aligned() && |m.closes| >= s.length * 2 + s.signalLength
  }

  /** The reference indicator. */
  function Indicator(m: Market, s: Settings): Option<VfiResult> {
    if Accepts(m, s) then ResultOf(Points(m, s, |m.closes|), s.signalLength) else None
  }

  /** There is an indicator exactly for positive settings, two windows and a signal's worth of bars, and more values than the signal averages. */
  lemma {:induction false} IndicatorExistsExactly(m: Market, s: Settings)
    ensures Indicator(m, s).Some?
       <==> m.Aligned() && s.length > 0 && s.signalLength > 0 && s.coef > 0.0 && s.volumeCoef > 0.0
            && |m.closes| >= 2 * s.length + s.signalLength && |Points(m, s, |m.closes|)| > s.signalLength
  {
    hide Points, EmaSeq;
  }

  // ----- the quadratic implementation -----

  method AllInters(m: Market, s: Settings) returns (inter: seq<real>)
    requires m.Aligned()
    ensures inter == Inters(m, s.log, |m.closes|)
  {
    inter := [];
    for index := 0 to |m.closes|
      invariant inter == Inters(m, s.log, index)
    {
      inter := inter + [if index == 0 then 0.0 else InterOf(s.log, m.Typical(index - 1), m.Typical(index))];
    }
  }

  lemma {:induction false} IntersPrefix(m: Market, log: real -> real, n: nat, k: nat)
    requires m.Aligned() && k <= n <= |m.closes|
    ensures Inters(m, log, n)[..k] == Inters(m, log, k)
    decreases n
  {
    if k < n {
      IntersPrefix(m, log, n - 1, k);
      assert Inters(m, log, n)[..k] == Inters(m, log, n - 1)[..k];
    } else {
      assert Inters(m, log, n)[..n] == Inters(m, log, n);
    }
  }

  method FlowOfBar(m: Market, s: Settings, inter: seq<real>, index: nat) returns (flow: Flow)
    requires m.Aligned() && index < |m.closes| && 1 <= s.length && inter == Inters(m, s.log, |m.closes|)
    ensures flow == FlowAt(m, s, index)
  {
    hide RangeSum, Inters, Variance, FlowFrom;
    if index < s.length || index < INTER_WINDOW {
      return NoFlow;
    }
    IntersPrefix(m, s.log, |m.closes|, index + 1);
    var volatility, _ := StandardDeviation(inter[..index + 1], INTER_WINDOW, s.sqrt);
    var volumeAverage := SmaOfPrefix(m.volumes, index, s.length);
    QuotientZero(PriorVolume(m, s.length, index), s.length as real);
    if volumeAverage == 0.0 {
      return NoFlow;
    }
    flow := FlowFrom(s, volatility, volumeAverage, m.closes[index], m.volumes[index], m.Typical(index) - m.Typical(index - 1));
  }

  lemma {:induction false} QuotientZero(a: real, n: real)
    requires n > 0.0
    ensures a / n == 0.0 <==> a == 0.0
  {
    assert a / n * n == a;
  }

  method AllFlows(m: Market, s: Settings, inter: seq<real>) returns (flows: seq<Flow>)
    requires m.Aligned() && 1 <= s.length && inter == Inters(m, s.log, |m.closes|)
    ensures flows == Flows(m, s, |m.closes|)
  {
    hide FlowAt, Inters;
    flows := [];
    for index := 0 to |m.closes|
      invariant flows == Flows(m, s, index)
    {
      var flow := FlowOfBar(m, s, inter, index);
      flows := flows + [flow];
    }
  }

  method WindowValid(flows: seq<Flow>, start: nat, index: nat) returns (valid: bool)
    requires start <= index < |flows|
    ensures valid <==> CountInvalid(flows, start, index + 1) == 0
  {
    for vcpIndex := start to index + 1
      invariant CountInvalid(flows, start, vcpIndex) == 0
    {
      if !flows[vcpIndex].valid {
        SomeInvalid(flows, start, vcpIndex, index + 1);
        return false;
      }
    }
    return true;
  }

  lemma {:induction false} SomeInvalid(flows: seq<Flow>, lo: nat, bad: nat, hi: nat)
    requires lo <= bad < hi <= |flows| && !flows[bad].valid
    ensures CountInvalid(flows, lo, hi) > 0
    decreases hi
  {
    if bad < hi - 1 {
      SomeInvalid(flows, lo, bad, hi - 1);
    }
  }

  method SumOfVcp(flows: seq<Flow>, start: nat, end: nat) returns (sum: real)
    requires start <= end <= |flows|
    ensures sum == SumVcp(flows, start, end)
  {
    sum := 0.0;
    for index := start to end
      invariant sum == SumVcp(flows, start, index)
    {
      sum := sum + flows[index].vcp;
    }
  }

  /** A prefix of the flows is the flows of the prefix. */
  lemma {:induction false} FlowsPrefix(m: Market, s: Settings, n: nat, k: nat)
    requires m.Aligned() && k <= n <= |m.closes| && 1 <= s.length
    ensures Flows(m, s, n)[..k] == Flows(m, s, k)
    decreases n
  {
    if k < n {
      FlowsPrefix(m, s, n - 1, k);
      assert Flows(m, s, n)[..k] == Flows(m, s, n - 1)[..k];
    } else {
      assert Flows(m, s, n)[..n] == Flows(m, s, n);
    }
  }

  lemma {:induction false} SumsOfPrefix(flows: seq<Flow>, longer: seq<Flow>, lo: nat, hi: nat)
    requires lo <= hi <= |flows| && flows <= longer
    ensures SumVcp(flows, lo, hi) == SumVcp(longer, lo, hi) && CountInvalid(flows, lo, hi) == CountInvalid(longer, lo, hi)
    decreases hi
  {
    if lo < hi {
      SumsOfPrefix(flows, longer, lo, hi - 1);
    }
  }

  /** The value of one bar, if it has one. */
  method PointOfBar(m: Market, s: Settings, flows: seq<Flow>, index: nat) returns (point: Option<VfiPoint>)
    requires m.Aligned() && index < |m.closes| && 1 <= s.length && flows == Flows(m, s, |m.closes|)
    ensures Points(m, s, index + 1) == Points(m, s, index) + if point.Some? then [point.value] else []
  {
    hide Flows, RangeSum, CountInvalid, SumVcp, FlowAt, PointFrom;
    FlowsPrefix(m, s, |m.closes|, index + 1);
    if index + 1 < s.length {
      return None;
    }
    var start := index + 1 - s.length;
    SumsOfPrefix(Flows(m, s, index + 1), flows, start, index + 1);
    var valid := WindowValid(flows, start, index);
    if !valid {
      return None;
    }
    LastFlowValid(flows, s.length, index);
    ValidFlow(m, s, |m.closes|, index);
    var volumeAverage := SmaOfPrefix(m.volumes, index, s.length);
    QuotientZero(PriorVolume(m, s.length, index), s.length as real);
    if volumeAverage == 0.0 {
      return None;
    }
    var sum := SumOfVcp(flows, start, index + 1);
    assert Flows(m, s, index + 1)[index] == flows[index];
    point := Some(VfiPoint(sum / volumeAverage, flows[index].priceCutoff, flows[index].volumeCutoff));
    PointForm(sum, PriorVolume(m, s.length, index), s.length, flows[index], volumeAverage);
  }

  lemma {:induction false} PointForm(sum: real, prior: real, length: nat, flow: Flow, average: real)
    requires prior != 0.0 && 1 <= length && average == prior / length as real && average != 0.0
    ensures PointFrom(sum, prior, length, flow) == VfiPoint(sum / average, flow.priceCutoff, flow.volumeCutoff)
  {
  }

  method VolumeFlowIndicator(m: Market, s: Settings) returns (result: Option<VfiResult>)
    ensures result == Indicator(m, s)
  {
    hide Inters, Flows, Points, EmaSeq;
    if !Accepts(m, s) {
      return None;
    }
    var inter := AllInters(m, s);
    var flows := AllFlows(m, s, inter);
    var points := [];
    NoPoints(m, s);
    for index := 0 to |m.closes|
      invariant points == Points(m, s, index)
    {
      var point := PointOfBar(m, s, flows, index);
      if point.Some? {
        points := points + [point.value];
      }
    }
    if |points| < s.signalLength + 1 {
      return None;
    }
    var values := ValuesOf(points);
    var signals, _ := EmaSeries(values, s.signalLength);
    var last, signal := |values| - 1, signals[|signals| - 1];
    var offset := |values| - |signals|;
    result := Some(VfiResult(values[last], signal, values[last] - signal, values[last - 1], signals[last - 1 - offset],
                             points[last].volumeCutoff, points[last].priceCutoff));
  }

  lemma {:induction false} NoPoints(m: Market, s: Settings)
    requires m.Aligned() && 1 <= s.length
    ensures Points(m, s, 0) == []
  {
  }

  // ----- what a value says about the market -----

  /** Three times how far the typical price of bar i moved. */
  function Rise(m: Market, i: nat): real
    requires m.Aligned() && 1 <= i < |m.closes|
  {
    (m.highs[i] + m.lows[i] + m.closes[i]) - (m.highs[i - 1] + m.lows[i - 1] + m.closes[i - 1])
  }

  /** The logarithmic changes, bar by bar. */
  lemma {:induction false} IntersAre(m: Market, log: real -> real, n: nat, i: nat)
    requires m.Aligned() && i < n <= |m.closes|
    ensures var before, now := if i == 0 then 0.0 else (m.highs[i - 1] + m.lows[i - 1] + m.closes[i - 1]) / 3.0,
                               (m.highs[i] + m.lows[i] + m.closes[i]) / 3.0;
            Inters(m, log, n)[i] == if before > 0.0 && now > 0.0 then log(now) - log(before) else 0.0
    decreases n
  {
    if i < n - 1 {
      IntersAre(m, log, n - 1, i);
    }
  }

  /** The move a bar has to make: coef times the deviation of the last thirty changes times its close. */
  function Threshold(m: Market, s: Settings, i: nat): real
    requires m.Aligned() && 30 <= i + 1 && i < |m.closes|
  {
    s.coef * s.sqrt(Variance(Inters(m, s.log, i + 1), i + 1 - 30, i + 1)) * m.closes[i]
  }

  /** At most volumeCoef times the average volume of the bars before counts. */
  function CountedVolume(m: Market, s: Settings, i: nat): real
    requires m.Aligned() && 1 <= s.length <= i < |m.closes|
  {
    Min(m.volumes[i], s.volumeCoef * (RangeSum(m.volumes, i - s.length, i) / s.length as real))
  }

  /** A bar that has a flow at all. */
  predicate Usable(m: Market, s: Settings, i: nat)
    requires m.Aligned() && i < |m.closes| && 1 <= s.length
  {
    i >= s.length && i >= 30 && RangeSum(m.volumes, i - s.length, i) != 0.0
  }

  /** The volume that counts of the bars lo..hi whose typical price rose past its threshold. */
  function Risen(m: Market, s: Settings, lo: nat, hi: nat): real
    requires m.Aligned() && 1 <= s.length <= lo <= hi <= |m.closes| && INTER_WINDOW <= lo
    decreases hi
  {
    if lo == hi then 0.0
    else Risen(m, s, lo, hi - 1) + if Rise(m, hi - 1) > 3.0 * Threshold(m, s, hi - 1) then CountedVolume(m, s, hi - 1) else 0.0
  }

  /** The same of the bars that fell past it. */
  function Fallen(m: Market, s: Settings, lo: nat, hi: nat): real
    requires m.Aligned() && 1 <= s.length <= lo <= hi <= |m.closes| && INTER_WINDOW <= lo
    decreases hi
  {
    if lo == hi then 0.0
    else
      var rose, fell := Rise(m, hi - 1) > 3.0 * Threshold(m, s, hi - 1), -Rise(m, hi - 1) > 3.0 * Threshold(m, s, hi - 1);
      Fallen(m, s, lo, hi - 1) + if fell && !rose then CountedVolume(m, s, hi - 1) else 0.0
  }

  lemma {:induction false} FlowMeans(m: Market, s: Settings, i: nat)
    requires m.Aligned() && i < |m.closes| && 1 <= s.length
    ensures FlowAt(m, s, i).valid <==> Usable(m, s, i)
    ensures Usable(m, s, i) ==>
              && FlowAt(m, s, i).priceCutoff == Threshold(m, s, i)
              && FlowAt(m, s, i).volumeCutoff == s.volumeCoef * (RangeSum(m.volumes, i - s.length, i) / s.length as real)
              && FlowAt(m, s, i).vcp == (if Rise(m, i) > 3.0 * Threshold(m, s, i) then CountedVolume(m, s, i)
                                         else if -Rise(m, i) > 3.0 * Threshold(m, s, i) then -CountedVolume(m, s, i) else 0.0)
  {
    hide RangeSum, Variance, Inters;
    if Usable(m, s, i) {
      var average := RangeSum(m.volumes, i - s.length, i) / s.length as real;
      assert average * s.volumeCoef == s.volumeCoef * average;
    }
  }

  lemma {:induction false} FlowsMean(m: Market, s: Settings, n: nat, lo: nat, hi: nat)
    requires m.Aligned() && 1 <= s.length <= lo <= hi <= n <= |m.closes| && INTER_WINDOW <= lo
    requires forall i :: lo <= i < hi ==> Usable(m, s, i)
    ensures SumVcp(Flows(m, s, n), lo, hi) == Risen(m, s, lo, hi) - Fallen(m, s, lo, hi)
    decreases hi
  {
    hide FlowAt, Flows, Usable, Threshold, CountedVolume, Rise;
    if lo < hi {
      FlowsMean(m, s, n, lo, hi - 1);
      ValidFlowIs(m, s, n, hi - 1);
      FlowMeans(m, s, hi - 1);
    }
  }

  lemma {:induction false} ValidFlowIs(m: Market, s: Settings, n: nat, i: nat)
    requires m.Aligned() && i < n <= |m.closes| && 1 <= s.length
    ensures Flows(m, s, n)[i] == FlowAt(m, s, i)
  {
    ValidFlow(m, s, n, i);
  }

  lemma {:induction false} NoneInvalid(flows: seq<Flow>, lo: nat, hi: nat)
    requires lo <= hi <= |flows|
    ensures CountInvalid(flows, lo, hi) == 0 <==> forall i :: lo <= i < hi ==> flows[i].valid
    decreases hi
  {
    if lo < hi {
      NoneInvalid(flows, lo, hi - 1);
    }
  }

  /** Bar i publishes a value. */
  predicate Publishes(m: Market, s: Settings, i: nat)
    requires m.Aligned() && i < |m.closes| && 1 <= s.length
  {
    i + 1 >= s.length && forall k :: i + 1 - s.length <= k <= i ==> Usable(m, s, k)
  }

  lemma {:induction false} FlowsUsable(m: Market, s: Settings, n: nat)
    requires m.Aligned() && n <= |m.closes| && 1 <= s.length
    ensures forall k :: 0 <= k < n ==> (Flows(m, s, n)[k].valid <==> Usable(m, s, k))
  {
    hide Flows, FlowAt, Usable;
    forall k | 0 <= k < n ensures Flows(m, s, n)[k].valid <==> Usable(m, s, k) {
      ValidFlowIs(m, s, n, k);
      FlowMeans(m, s, k);
    }
  }

  /**
   * A bar publishes a value exactly when the whole window is usable.  The value times the
   * average volume before the bar is the volume of the window's bars that rose past their
   * threshold less that of the bars that fell past it.
   */
  lemma {:induction false} ValueIsRisenLessFallen(m: Market, s: Settings, i: nat)
    requires m.Aligned() && i < |m.closes| && 1 <= s.length
    ensures if !Publishes(m, s, i) then Points(m, s, i + 1) == Points(m, s, i)
            else
              var points, lo := Points(m, s, i + 1), i + 1 - s.length;
              && |points| == |Points(m, s, i)| + 1 && points[..|points| - 1] == Points(m, s, i)
              && s.length <= lo && 30 <= lo
              && points[|points| - 1].value * (RangeSum(m.volumes, i - s.length, i) / s.length as real)
                 == Risen(m, s, lo, i + 1) - Fallen(m, s, lo, i + 1)
              && points[|points| - 1].priceCutoff == Threshold(m, s, i)
              && points[|points| - 1].volumeCutoff == s.volumeCoef * (RangeSum(m.volumes, i - s.length, i) / s.length as real)
  {
    hide RangeSum, FlowAt, SumVcp, CountInvalid, Flows, Threshold, Risen, Fallen, Inters, PointFrom;
    var flows := Flows(m, s, i + 1);
    FlowsUsable(m, s, i + 1);
    if i + 1 >= s.length {
      var lo := i + 1 - s.length;
      NoneInvalid(flows, lo, i + 1);
      if Publishes(m, s, i) {
        assert Usable(m, s, lo) && Usable(m, s, i);
        FlowsMean(m, s, i + 1, lo, i + 1);
        ValidFlowIs(m, s, i + 1, i);
        FlowMeans(m, s, i);
        ValueTimesAverage(SumVcp(flows, lo, i + 1), PriorVolume(m, s.length, i), s.length, flows[i]);
      }
    }
  }

  lemma {:induction false} ValueTimesAverage(sum: real, prior: real, length: nat, flow: Flow)
    requires prior != 0.0 && 1 <= length
    ensures var point := PointFrom(sum, prior, length, flow);
            && point.value * (prior / length as real) == sum
            && point.priceCutoff == flow.priceCutoff && point.volumeCutoff == flow.volumeCutoff
  {
    QuotientZero(prior, length as real);
  }

  /** Every bar of lo..hi moved past its threshold, up or down, on volume. */
  ghost predicate AllRose(m: Market, s: Settings, lo: nat, hi: nat)
    requires m.Aligned() && 1 <= s.length <= lo <= hi <= |m.closes| && INTER_WINDOW <= lo
  {
    forall k :: lo <= k < hi ==> Rise(m, k) > 3.0 * Threshold(m, s, k)
  }

  ghost predicate AllFell(m: Market, s: Settings, lo: nat, hi: nat)
    requires m.Aligned() && 1 <= s.length <= lo <= hi <= |m.closes| && INTER_WINDOW <= lo
  {
    forall k :: lo <= k < hi ==> -Rise(m, k) > 3.0 * Threshold(m, s, k) && Rise(m, k) <= 3.0 * Threshold(m, s, k)
  }

  lemma {:induction false} OneSided(m: Market, s: Settings, lo: nat, hi: nat)
    requires m.Aligned() && 1 <= s.length <= lo <= hi <= |m.closes| && INTER_WINDOW <= lo
    requires forall k :: lo <= k < hi ==> CountedVolume(m, s, k) > 0.0
    ensures AllRose(m, s, lo, hi) ==> Fallen(m, s, lo, hi) == 0.0 && (lo < hi ==> Risen(m, s, lo, hi) > 0.0)
    ensures AllFell(m, s, lo, hi) ==> Risen(m, s, lo, hi) == 0.0 && (lo < hi ==> Fallen(m, s, lo, hi) > 0.0)
    ensures lo == hi ==> Risen(m, s, lo, hi) == 0.0 == Fallen(m, s, lo, hi)
    decreases hi
  {
    hide Rise, Threshold, CountedVolume;
    if lo < hi {
      OneSided(m, s, lo, hi - 1);
    }
  }

  lemma {:induction false} CountsPositive(m: Market, s: Settings, i: nat)
    requires m.Aligned() && 1 <= s.length <= i < |m.closes| && s.volumeCoef > 0.0 && forall k :: 0 <= k < |m.volumes| ==> m.volumes[k] > 0.0
    ensures CountedVolume(m, s, i) > 0.0 && RangeSum(m.volumes, i - s.length, i) / s.length as real > 0.0
  {
    SumPositive(m.volumes, i - s.length, i);
    var sum, n := RangeSum(m.volumes, i - s.length, i), s.length as real;
    assert sum / n > 0.0;
    assert s.volumeCoef * (sum / n) > 0.0;
  }

  lemma {:induction false} SumPositive(xs: seq<real>, lo: nat, hi: nat)
    requires lo < hi <= |xs| && forall i :: lo <= i < hi ==> xs[i] > 0.0
    ensures RangeSum(xs, lo, hi) > 0.0
    decreases hi
  {
    if lo < hi - 1 {
      SumPositive(xs, lo, hi - 1);
    } else {
      assert RangeSum(xs, lo, lo) == 0.0;
    }
  }

  /** On positive volume the value is positive when the whole window rose and negative when it fell. */
  lemma {:induction false} SignFollowsThePrice(m: Market, s: Settings, i: nat)
    requires m.Aligned() && i < |m.closes| && 1 <= s.length && Publishes(m, s, i) && s.volumeCoef > 0.0
    requires forall k :: 0 <= k < |m.volumes| ==> m.volumes[k] > 0.0
    ensures Points(m, s, i + 1) != []
    ensures var value, lo := Points(m, s, i + 1)[|Points(m, s, i + 1)| - 1].value, i + 1 - s.length;
            && s.length <= lo && INTER_WINDOW <= lo
            && (AllRose(m, s, lo, i + 1) ==> value > 0.0) && (AllFell(m, s, lo, i + 1) ==> value < 0.0)
  {
    hide RangeSum, Points, Threshold, Risen, Fallen, AllRose, AllFell, CountedVolume, Rise;
    ValueIsRisenLessFallen(m, s, i);
    var lo := i + 1 - s.length;
    forall k | lo <= k < i + 1 ensures CountedVolume(m, s, k) > 0.0 {
      CountsPositive(m, s, k);
    }
    CountsPositive(m, s, i);
    OneSided(m, s, lo, i + 1);
    SignOfFactor(Points(m, s, i + 1)[|Points(m, s, i + 1)| - 1].value, RangeSum(m.volumes, i - s.length, i) / s.length as real);
  }

  lemma {:induction false} SignOfFactor(x: real, y: real)
    requires y > 0.0
    ensures x * y > 0.0 ==> x > 0.0
    ensures x * y < 0.0 ==> x < 0.0
  {
    if x >= 0.0 {
      assert x * y >= 0.0;
    }
    if x <= 0.0 {
      assert -x * y >= 0.0;
    }
  }

  /** What is published of the values: the last two, their exponential averages, and the gap between the last of both. */
  lemma {:induction false} ResultMeans(points: seq<VfiPoint>, signalLength: nat)
    requires 1 <= signalLength && ResultOf(points, signalLength).Some?
    ensures var r, values, n := ResultOf(points, signalLength).value, ValuesOf(points), |points|;
            && n > signalLength && r.value == points[n - 1].value && r.previousValue == points[n - 2].value
            && r.signal == EmaOf(values, signalLength) && r.previousSignal == EmaOf(values[..n - 1], signalLength)
            && r.hist + r.signal == r.value
            && r.volumeCutoff == points[n - 1].volumeCutoff && r.priceCutoff == points[n - 1].priceCutoff
  {
    hide EmaOf;
    var values, n := ValuesOf(points), |points|;
    var before := EmaSeq(values[..n - 1], signalLength);
    assert EmaSeq(values, signalLength) == before + [EmaOf(values, signalLength)];
    assert before[|before| - 1] == EmaOf(values[..n - 1], signalLength);
  }
}
