/**
 * The Volume Flow Indicator from running sums: a ring of 30 logarithmic changes with
 * its sum and sum of squares, rings of `length` capped volumes and validity marks with
 * a sum and an invalid counter that starts at one for the bar without a predecessor.
 */
module VolumeFlowStream {
  import opened Numeric
  import opened IndicatorMath
  import opened TailBuffer
  import opened StreamEma
  import opened VolumeFlow

  // ----- what each running quantity stands for after the first k bars -----

  function Start(k: nat, length: nat): (r: nat)
    ensures r <= k
  {
    if k < length then 0 else k - length
  }

  /** Thirty zeros stand for the ring as allocated. */
  function Padded(inters: seq<real>): (r: seq<real>)
    ensures |r| == |inters| + INTER_WINDOW
    ensures forall i :: 0 <= i < INTER_WINDOW ==> r[i] == 0.0
    ensures forall i :: 0 <= i < |inters| ==> r[i + INTER_WINDOW] == inters[i]
  {
    seq(INTER_WINDOW, _ => 0.0) + inters
  }

  ghost predicate IntersHeld(ring: seq<real>, sum: real, sumSq: real, inters: seq<real>) {
    var padded := Padded(inters);
    && |ring| == INTER_WINDOW
    && RingHolds(ring, padded)
    && sum == RangeSum(padded, |inters|, |padded|)
    && sumSq == RangeSumSq(padded, |inters|, |padded|)
  }

  ghost predicate FlowsHeld(vcps: seq<real>, valids: seq<bool>, vcpSum: real, invalidCount: int, flows: seq<Flow>, length: nat) {
    && |vcps| == |valids| == length >= 1
    && (forall i :: Start(|flows|, length) <= i < |flows| ==> vcps[i % length] == flows[i].vcp && valids[i % length] == flows[i].valid)
    && vcpSum == SumVcp(flows, Start(|flows|, length), |flows|)
    && invalidCount == CountInvalid(flows, Start(|flows|, length), |flows|)
  }

  // ----- one bar -----

  lemma {:induction false} IntersStep(ring: seq<real>, sum: real, sumSq: real, inters: seq<real>, next: real)
    requires IntersHeld(ring, sum, sumSq, inters)
    ensures var slot := |inters| % INTER_WINDOW;
            IntersHeld(ring[slot := next], sum - ring[slot] + next, sumSq - ring[slot] * ring[slot] + next * next, inters + [next])
  {
    hide RangeSum, RangeSumSq, RingHolds;
    var padded, n := Padded(inters), |inters|;
    assert Padded(inters + [next]) == padded + [next];
    PadSlot(n);
    OldestHeld(ring, padded);
    RingSnoc(ring, padded, next);
    SlideSums(padded, n, next);
  }

  lemma {:induction false} OldestHeld(ring: seq<real>, padded: seq<real>)
    requires |ring| == INTER_WINDOW <= |padded| && RingHolds(ring, padded)
    ensures ring[(|padded| - INTER_WINDOW) % INTER_WINDOW] == padded[|padded| - INTER_WINDOW]
  {
  }

  lemma {:induction false} SlideSums(xs: seq<real>, lo: nat, next: real)
    requires lo < |xs|
    ensures var longer := xs + [next];
            && RangeSum(longer, lo + 1, |longer|) == RangeSum(xs, lo, |xs|) - xs[lo] + next
            && RangeSumSq(longer, lo + 1, |longer|) == RangeSumSq(xs, lo, |xs|) - xs[lo] * xs[lo] + next * next
  {
    var longer := xs + [next];
    RangeSumSame(xs, longer, lo, |xs|);
    RangeSumDropFirst(longer, lo, |longer|);
  }

  /** A shift by the ring length keeps the slot. */
  lemma {:induction false} PadSlot(n: nat)
    ensures (n + INTER_WINDOW) % INTER_WINDOW == n % INTER_WINDOW
  {
  }

  /** From the thirtieth change on the ring spans no padding: its moments are those of the window. */
  lemma {:induction false} IntersVariance(ring: seq<real>, sum: real, sumSq: real, inters: seq<real>)
    requires IntersHeld(ring, sum, sumSq, inters) && |inters| > INTER_WINDOW
    ensures var mean := sum / INTER_WINDOW as real;
            sumSq / INTER_WINDOW as real - mean * mean == Variance(inters, |inters| - INTER_WINDOW, |inters|)
  {
    hide RangeSum, RangeSumSq, RangeDevSq, RingHolds;
    var padded, n := Padded(inters), |inters|;
    RangeSumShift(padded, inters, INTER_WINDOW, n - INTER_WINDOW, n);
    RangeSumSqShift(padded, inters, INTER_WINDOW, n - INTER_WINDOW, n);
    RunningVarianceIsTwoPass(inters, n - INTER_WINDOW, n);
  }

  lemma {:induction false} SumVcpDropFirst(flows: seq<Flow>, lo: nat, hi: nat)
    requires lo < hi <= |flows|
    ensures SumVcp(flows, lo, hi) == flows[lo].vcp + SumVcp(flows, lo + 1, hi)
    ensures CountInvalid(flows, lo, hi) == (if flows[lo].valid then 0 else 1) + CountInvalid(flows, lo + 1, hi)
    decreases hi
  {
    if lo + 1 < hi {
      SumVcpDropFirst(flows, lo, hi - 1);
    }
  }

  /** The rings after one more flow. */
  lemma {:induction false} FlowRings(vcps: seq<real>, valids: seq<bool>, flows: seq<Flow>, length: nat, next: Flow)
    requires |vcps| == |valids| == length >= 1
    requires forall i :: Start(|flows|, length) <= i < |flows| ==> vcps[i % length] == flows[i].vcp && valids[i % length] == flows[i].valid
    ensures var slot, longer := |flows| % length, flows + [next];
            forall i :: Start(|longer|, length) <= i < |longer| ==>
              vcps[slot := next.vcp][i % length] == longer[i].vcp && valids[slot := next.valid][i % length] == longer[i].valid
    ensures |flows| >= length ==>
              var slot, oldest := |flows| % length, flows[|flows| - length];
              vcps[slot] == oldest.vcp && valids[slot] == oldest.valid
  {
    var slot, longer := |flows| % length, flows + [next];
    forall i | Start(|longer|, length) <= i < |longer|
      ensures vcps[slot := next.vcp][i % length] == longer[i].vcp && valids[slot := next.valid][i % length] == longer[i].valid
    {
      if i < |flows| {
        SlotsDiffer(i, |flows|, length);
      }
    }
    if |flows| >= length {
      DropSlot(|flows|, length);
    }
  }

  lemma {:induction false} DropSlot(n: nat, length: nat)
    requires 1 <= length <= n
    ensures (n - length) % length == n % length
  {
    DivMod(n, length);
    DivMod(n - length, length);
    assert length * (n / length - 1) == length * (n / length) - length;
    RemainderUnique(length, n / length - 1, n % length, (n - length) / length, (n - length) % length);
  }

  lemma {:induction false} FlowsStep(vcps: seq<real>, valids: seq<bool>, vcpSum: real, invalidCount: int, flows: seq<Flow>,
        length: nat, next: Flow)
    requires FlowsHeld(vcps, valids, vcpSum, invalidCount, flows, length)
    ensures var slot, full := |flows| % length, |flows| >= length;
            FlowsHeld(vcps[slot := next.vcp], valids[slot := next.valid],
                      vcpSum - (if full then vcps[slot] else 0.0) + next.vcp,
                      invalidCount - (if full && !valids[slot] then 1 else 0) + (if next.valid then 0 else 1),
                      flows + [next], length)
  {
    var longer, k := flows + [next], |flows|;
    FlowRings(vcps, valids, flows, length, next);
    SumsOfPrefix(flows, longer, Start(k, length), k);
    SumVcpDropFirst(longer, Start(k, length), k + 1);
  }

  /** How many bars before bar `index` one step reads. */
  function Depth(index: nat, length: nat): (r: nat)
    ensures r <= index
  {
    if index < length + 1 then index else length + 1
  }

  /** Bar `at` of `shown`, with the volumes a step reads before it, is bar `index` of `m`. */
  ghost predicate Shows(shown: Market, at: nat, m: Market, index: nat, length: nat) {
    && shown.Aligned() && m.Aligned() && at < |shown.closes| && index < |m.closes| && Depth(index, length) <= at
    && shown.highs[at] == m.highs[index] && shown.lows[at] == m.lows[index] && shown.closes[at] == m.closes[index]
    && shown.volumes[at - Depth(index, length)..at + 1] == m.volumes[index - Depth(index, length)..index + 1]
  }

  lemma {:induction false} SameVolumes(shown: Market, at: nat, m: Market, index: nat, length: nat, back: nat)
    requires Shows(shown, at, m, index, length) && back <= Depth(index, length)
    ensures shown.volumes[at - back] == m.volumes[index - back]
  {
    var depth := Depth(index, length);
    hide Market.Typical;
    var xs, ys := shown.volumes[at - depth..at + 1], m.volumes[index - depth..index + 1];
    assert xs == ys;
    assert xs[depth - back] == shown.volumes[at - back];
    assert ys[depth - back] == m.volumes[index - back];
  }

  // ----- the running state -----

  class RunningFlow {
    const settings: Settings
    const interRing: array<real>
    const vcpRing: array<real>
    const validRing: array<bool>
    const signalEma: StreamEmaState
    var previousTypical: real
    var volumeSum: real
    var interSum: real
    var interSumSq: real
    var vcpSum: real
    var invalidCount: int
    var vfiCount: nat
    var previousValue: real
    var currentValue: real
    var lastPriceCutoff: real
    var lastVolumeCutoff: real

    ghost predicate Shape() {
      && 1 <= settings.length && 1 <= settings.signalLength
      && interRing.Length == INTER_WINDOW && vcpRing.Length == settings.length && validRing.Length == settings.length
      && interRing != vcpRing && signalEma.history != interRing && signalEma.history != vcpRing
      && signalEma.period == settings.signalLength
    }

    ghost predicate PointsHeld(points: seq<VfiPoint>)
      reads `vfiCount, `currentValue, `previousValue, `lastPriceCutoff, `lastVolumeCutoff, signalEma, signalEma.history
    {
      && signalEma.Valid() && signalEma.seen == ValuesOf(points) && vfiCount == |points|
      && (|points| > 0 ==> currentValue == points[|points| - 1].value)
      && (|points| > 1 ==> previousValue == points[|points| - 2].value)
      && (|points| >= settings.signalLength > 0 ==>
            lastPriceCutoff == points[|points| - 1].priceCutoff && lastVolumeCutoff == points[|points| - 1].volumeCutoff)
    }

    /** Every field is what the reference definition says about the first k bars. */
    ghost predicate Processed(m: Market, k: nat)
      reads this, interRing, vcpRing, validRing, signalEma, signalEma.history
    {
      && Shape() && m.Aligned() && 1 <= k <= |m.closes|
      && previousTypical == m.Typical(k - 1)
      && volumeSum == PriorVolume(m, settings.length, k - 1)
      && IntersHeld(interRing[..], interSum, interSumSq, Inters(m, settings.log, k))
      && FlowsHeld(vcpRing[..], validRing[..], vcpSum, invalidCount, Flows(m, settings, k), settings.length)
      && PointsHeld(Points(m, settings, k))
    }

    /** No bar seen yet; the bar without a predecessor is already counted as invalid. */
    ghost predicate Unstarted()
      reads this, interRing, vcpRing, validRing, signalEma, signalEma.history
    {
      && Shape() && volumeSum == 0.0
      && IntersHeld(interRing[..], interSum, interSumSq, [0.0])
      && FlowsHeld(vcpRing[..], validRing[..], vcpSum, invalidCount, [NoFlow], settings.length)
      && PointsHeld([])
    }

    constructor (settings: Settings)
      requires 1 <= settings.length && 1 <= settings.signalLength
      ensures Unstarted() && this.settings == settings
      ensures fresh(interRing) && fresh(vcpRing) && fresh(validRing) && fresh(signalEma) && fresh(signalEma.history)
    {
      hide Padded, IntersHeld, FlowsHeld;
      this.settings := settings;
      interRing := new real[INTER_WINDOW](_ => 0.0);
      vcpRing := new real[settings.length](_ => 0.0);
      validRing := new bool[settings.length](_ => false);
      signalEma := new StreamEmaState(settings.signalLength);
      previousTypical, volumeSum, interSum, interSumSq, vcpSum, invalidCount := 0.0, 0.0, 0.0, 0.0, 0.0, 1;
      vfiCount, previousValue, currentValue, lastPriceCutoff, lastVolumeCutoff := 0, 0.0, 0.0, 0.0, 0.0;
      new;
      FirstInter(interRing[..]);
      FirstFlow(vcpRing[..], validRing[..], settings.length);
    }

    /** The first bar only leaves its typical price behind. */
    method Begin(shown: Market, at: nat, ghost m: Market)
      requires Unstarted() && Shows(shown, at, m, 0, settings.length)
      modifies this`previousTypical
      ensures Processed(m, 1)
    {
      hide IntersHeld, FlowsHeld, Inters, Flows, Points, PriorVolume;
      FirstBar(m, settings);
      previousTypical := shown.Typical(at);
    }

    /** One more bar, the last of `shown`: the market itself or its latest bars only. */
    method Advance(shown: Market, at: nat, ghost m: Market, index: nat)
      requires Processed(m, index) && Shows(shown, at, m, index, settings.length)
      modifies this, interRing, vcpRing, validRing, signalEma, signalEma.history
      ensures Processed(m, index + 1)
    {
      hide IntersHeld, FlowsHeld, PointsHeld, PriorVolume, FlowAt, PointFrom, InterOf;
      Unfold(m, settings, index);
      var typical := shown.Typical(at);
      SlideVolume(shown, at, m, index);
      var interValue := InterOf(settings.log, previousTypical, typical);
      SlideInter(index, interValue, Inters(m, settings.log, index));
      var flow := CurrentFlow(shown, at, m, index, typical);
      SlideFlow(index, flow, Flows(m, settings, index));
      previousTypical := typical;
      EmitIfComplete(m, index, flow);
    }

    /** Emission is allowed exactly when the counter has no invalid bar left in the window. */
    method EmitIfComplete(ghost m: Market, index: nat, flow: Flow)
      requires Shape() && m.Aligned() && 1 <= index < |m.closes|
      requires flow == Flows(m, settings, index + 1)[index] && volumeSum == PriorVolume(m, settings.length, index)
      requires FlowsHeld(vcpRing[..], validRing[..], vcpSum, invalidCount, Flows(m, settings, index + 1), settings.length)
      requires PointsHeld(Points(m, settings, index))
      modifies this`vfiCount, this`previousValue, this`currentValue, this`lastPriceCutoff, this`lastVolumeCutoff, signalEma, signalEma.history
      ensures PointsHeld(Points(m, settings, index + 1))
    {
      hide PointsHeld, PriorVolume, Flows, SumVcp, CountInvalid, Points;
      PointsStep(m, settings, index);
      if index < settings.length - 1 || invalidCount > 0 || volumeSum == 0.0 {
        return;
      }
      var volumeAverage := volumeSum / settings.length as real;
      QuotientZero(volumeSum, settings.length as real);
      PointForm(vcpSum, volumeSum, settings.length, flow, volumeAverage);
      Emit(vcpSum / volumeAverage, flow, Points(m, settings, index));
    }

    method ResultAfter(ghost m: Market, ghost k: nat) returns (result: Option<VfiResult>)
      requires Processed(m, k)
      ensures result == ResultOf(Points(m, settings, k), settings.signalLength)
    {
      hide IntersHeld, FlowsHeld, PointsHeld, Points, ResultOf;
      result := Result(Points(m, settings, k));
    }

    method Result(ghost points: seq<VfiPoint>) returns (result: Option<VfiResult>)
      requires Shape() && PointsHeld(points)
      ensures result == ResultOf(points, settings.signalLength)
    {
      hide EmaSeq, ValuesOf;
      EmaSeqShort(ValuesOf(points), settings.signalLength);
      ValuesLength(points);
      if vfiCount < settings.signalLength + 1 || !signalEma.ready || !signalEma.hasPrevious {
        return None;
      }
      result := Some(VfiResult(currentValue, signalEma.value, currentValue - signalEma.value, previousValue, signalEma.previous,
                               lastVolumeCutoff, lastPriceCutoff));
    }

    /** The volumes of the `length` bars before this one. */
    method SlideVolume(shown: Market, at: nat, ghost m: Market, index: nat)
      requires Shape() && 1 <= index && Shows(shown, at, m, index, settings.length) && volumeSum == PriorVolume(m, settings.length, index - 1)
      modifies this`volumeSum
      ensures volumeSum == PriorVolume(m, settings.length, index)
    {
      hide RangeSum;
      SlidePrior(m.volumes, settings.length, index);
      SameVolumes(shown, at, m, index, settings.length, 1);
      volumeSum := volumeSum + shown.volumes[at - 1];
      if index - settings.length - 1 >= 0 {
        SameVolumes(shown, at, m, index, settings.length, settings.length + 1);
        volumeSum := volumeSum - shown.volumes[at - settings.length - 1];
      }
    }

    method SlideInter(index: nat, interValue: real, ghost inters: seq<real>)
      requires Shape() && index == |inters| && IntersHeld(interRing[..], interSum, interSumSq, inters)
      modifies this`interSum, this`interSumSq, interRing
      ensures IntersHeld(interRing[..], interSum, interSumSq, inters + [interValue])
    {
      hide IntersHeld;
      IntersStep(interRing[..], interSum, interSumSq, inters, interValue);
      ghost var after := interRing[..][index % INTER_WINDOW := interValue];
      var interSlot := index % interRing.Length;
      var previousInter := interRing[interSlot];
      interSum := interSum - previousInter;
      interSumSq := interSumSq - previousInter * previousInter;
      interRing[interSlot] := interValue;
      interSum := interSum + interValue;
      interSumSq := interSumSq + interValue * interValue;
      assert interRing[..] == after;
    }

    /** What the bar contributes, from the running sums. */
    method CurrentFlow(shown: Market, at: nat, ghost m: Market, index: nat, typical: real) returns (flow: Flow)
      requires Shape() && 1 <= index && Shows(shown, at, m, index, settings.length) && typical == m.Typical(index)
      requires previousTypical == m.Typical(index - 1) && volumeSum == PriorVolume(m, settings.length, index)
      requires IntersHeld(interRing[..], interSum, interSumSq, Inters(m, settings.log, index + 1))
      ensures flow == FlowAt(m, settings, index)
    {
      hide IntersHeld, FlowFrom, Variance, PriorVolume;
      flow := NoFlow;
      if index >= settings.length && index >= interRing.Length && volumeSum != 0.0 {
        IntersVariance(interRing[..], interSum, interSumSq, Inters(m, settings.log, index + 1));
        var mean := interSum / INTER_WINDOW as real;
        var variance := interSumSq / INTER_WINDOW as real - mean * mean;
        if variance < 0.0 {
          variance := 0.0;
        }
        assert variance == Variance(Inters(m, settings.log, index + 1), index + 1 - INTER_WINDOW, index + 1);
        SameVolumes(shown, at, m, index, settings.length, 0);
        var volatility := settings.sqrt(variance);
        var volumeAverage := volumeSum / settings.length as real;
        flow := FlowFrom(settings, volatility, volumeAverage, shown.closes[at], shown.volumes[at], typical - previousTypical);
      }
    }

    method SlideFlow(index: nat, flow: Flow, ghost flows: seq<Flow>)
      requires Shape() && index == |flows| && FlowsHeld(vcpRing[..], validRing[..], vcpSum, invalidCount, flows, settings.length)
      modifies this`vcpSum, this`invalidCount, vcpRing, validRing
      ensures FlowsHeld(vcpRing[..], validRing[..], vcpSum, invalidCount, flows + [flow], settings.length)
    {
      hide FlowsHeld;
      FlowsStep(vcpRing[..], validRing[..], vcpSum, invalidCount, flows, settings.length, flow);
      var slot := index % settings.length;
      ghost var vcps, valids := vcpRing[..][slot := flow.vcp], validRing[..][slot := flow.valid];
      if index >= settings.length {
        vcpSum := vcpSum - vcpRing[slot];
        if !validRing[slot] {
          invalidCount := invalidCount - 1;
        }
      }
      vcpRing[slot] := flow.vcp;
      validRing[slot] := flow.valid;
      vcpSum := vcpSum + flow.vcp;
      if !flow.valid {
        invalidCount := invalidCount + 1;
      }
      assert vcpRing[..] == vcps && validRing[..] == valids;
    }

    /** Publish a value for a bar whose whole window contributed. */
    method Emit(value: real, flow: Flow, ghost points: seq<VfiPoint>)
      requires Shape() && PointsHeld(points)
      modifies this`vfiCount, this`previousValue, this`currentValue, this`lastPriceCutoff, this`lastVolumeCutoff, signalEma, signalEma.history
      ensures PointsHeld(points + [VfiPoint(value, flow.priceCutoff, flow.volumeCutoff)])
    {
      hide EmaSeq, ValuesOf, StreamEmaState.Valid;
      ghost var longer := points + [VfiPoint(value, flow.priceCutoff, flow.volumeCutoff)];
      ValuesSnoc(points, VfiPoint(value, flow.priceCutoff, flow.volumeCutoff));
      if vfiCount > 0 {
        previousValue := currentValue;
      }
      currentValue := value;
      vfiCount := vfiCount + 1;
      signalEma.Append(value);
      ReadyFromPeriod(signalEma);
      if signalEma.ready {
        lastPriceCutoff := flow.priceCutoff;
        lastVolumeCutoff := flow.volumeCutoff;
      }
    }
  }

  /** The signal line is ready from its period on. */
  lemma {:induction false} ReadyFromPeriod(ema: StreamEmaState)
    requires ema.Valid() && ema.period >= 1
    ensures ema.ready <==> |ema.seen| >= ema.period
  {
    EmaSeqShort(ema.seen, ema.period);
  }

  lemma {:induction false} FirstBar(m: Market, s: Settings)
    requires m.Aligned() && |m.closes| > 0 && 1 <= s.length
    ensures Inters(m, s.log, 1) == [0.0] && Flows(m, s, 1) == [NoFlow] && Points(m, s, 1) == [] && PriorVolume(m, s.length, 0) == 0.0
  {
    assert Inters(m, s.log, 0) == [];
    assert Flows(m, s, 0) == [];
    assert Points(m, s, 0) == [];
    assert CountInvalid([NoFlow], 0, 0) == 0;
  }

  lemma {:induction false} FirstInter(ring: seq<real>)
    requires |ring| == INTER_WINDOW && forall i :: 0 <= i < |ring| ==> ring[i] == 0.0
    ensures IntersHeld(ring, 0.0, 0.0, [0.0])
  {
    var padded := Padded([0.0]);
    assert forall i :: 0 <= i < |padded| ==> padded[i] == 0.0;
    ZeroSums(padded, 1, |padded|);
  }

  lemma {:induction false} ZeroSums(xs: seq<real>, lo: nat, hi: nat)
    requires lo <= hi <= |xs| && forall i :: 0 <= i < |xs| ==> xs[i] == 0.0
    ensures RangeSum(xs, lo, hi) == 0.0 && RangeSumSq(xs, lo, hi) == 0.0
    decreases hi
  {
    if lo < hi {
      ZeroSums(xs, lo, hi - 1);
    }
  }

  lemma {:induction false} FirstFlow(vcps: seq<real>, valids: seq<bool>, length: nat)
    requires |vcps| == |valids| == length >= 1
    requires forall i :: 0 <= i < length ==> vcps[i] == 0.0 && !valids[i]
    ensures FlowsHeld(vcps, valids, 0.0, 1, [NoFlow], length)
  {
    assert CountInvalid([NoFlow], 0, 0) == 0 && SumVcp([NoFlow], 0, 0) == 0.0;
  }

  lemma {:induction false} SlidePrior(volumes: seq<real>, length: nat, index: nat)
    requires 1 <= length && 1 <= index < |volumes|
    ensures RangeSum(volumes, Start(index, length), index)
         == RangeSum(volumes, Start(index - 1, length), index - 1) + volumes[index - 1]
            - (if index - length - 1 >= 0 then volumes[index - length - 1] else 0.0)
  {
    if index - length - 1 >= 0 {
      RangeSumDropFirst(volumes, index - length - 1, index);
    }
  }

  lemma {:induction false} ValuesSnoc(points: seq<VfiPoint>, next: VfiPoint)
    ensures ValuesOf(points + [next]) == ValuesOf(points) + [next.value]
    ensures |ValuesOf(points)| == |points|
  {
    assert (points + [next])[..|points|] == points;
  }

  lemma {:induction false} ValuesLength(points: seq<VfiPoint>)
    ensures |ValuesOf(points)| == |points|
  {
  }

  lemma {:induction false} EmaSeqShort(values: seq<real>, period: nat)
    requires 1 <= period
    ensures |EmaSeq(values, period)| == if |values| < period then 0 else |values| - period + 1
  {
  }

  lemma {:induction false} Unfold(m: Market, s: Settings, index: nat)
    requires m.Aligned() && 1 <= index < |m.closes| && 1 <= s.length
    ensures Inters(m, s.log, index + 1) == Inters(m, s.log, index) + [InterOf(s.log, m.Typical(index - 1), m.Typical(index))]
    ensures Flows(m, s, index + 1) == Flows(m, s, index) + [FlowAt(m, s, index)]
  {
  }

  lemma {:induction false} PointsStep(m: Market, s: Settings, index: nat)
    requires m.Aligned() && 1 <= index < |m.closes| && 1 <= s.length
    ensures var flows, prior := Flows(m, s, index + 1), PriorVolume(m, s.length, index);
            Points(m, s, index + 1)
            == if index + 1 >= s.length && CountInvalid(flows, index + 1 - s.length, index + 1) == 0 && prior != 0.0
               then Points(m, s, index) + [PointFrom(SumVcp(flows, index + 1 - s.length, index + 1), prior, s.length, flows[index])]
               else Points(m, s, index)
  {
  }

  // ----- the compact form: one pass over the whole market -----

  method VolumeFlowIndicatorCompact(m: Market, s: Settings) returns (result: Option<VfiResult>)
    ensures result == Indicator(m, s)
  {
    hide RunningFlow.Processed, RunningFlow.Unstarted, RunningFlow.PointsHeld, Points, ResultOf;
    if !Accepts(m, s) {
      return None;
    }
    var flow := new RunningFlow(s);
    flow.Begin(m, 0, m);
    for index := 1 to |m.closes|
      invariant fresh(flow) && fresh(flow.interRing) && fresh(flow.vcpRing) && fresh(flow.validRing)
      invariant fresh(flow.signalEma) && fresh(flow.signalEma.history)
      invariant flow.settings == s && flow.Processed(m, index)
    {
      flow.Advance(m, index, m, index);
    }
    result := flow.ResultAfter(m, |m.closes|);
  }

  // ----- the stream: one bar per call, with the latest bars passed each time -----

  const STREAM_LENGTH: nat := 130

  /** `longer` is `m` with more bars appended. */
  predicate Extends(longer: Market, m: Market) {
    m.Aligned() && longer.Aligned() && m.highs <= longer.highs && m.lows <= longer.lows && m.closes <= longer.closes
         && m.volumes <= longer.volumes
  }

  /** The history with the last bar of `shown` appended. */
  ghost function Grown(history: Market, shown: Market): (r: Market)
    requires history.Aligned() && shown.Aligned() && |shown.closes| > 0
    ensures Extends(r, history) && |r.closes| == |history.closes| + 1
  {
    var last := |shown.closes| - 1;
    Market(history.highs + [shown.highs[last]], history.lows + [shown.lows[last]], history.closes + [shown.closes[last]],
           history.volumes + [shown.volumes[last]])
  }

  lemma {:induction false} FlowsOfHistory(longer: Market, m: Market, s: Settings, k: nat)
    requires Extends(longer, m) && k <= |m.closes| && 1 <= s.length
    ensures Inters(longer, s.log, k) == Inters(m, s.log, k)
    ensures Flows(longer, s, k) == Flows(m, s, k)
    ensures k > 0 ==> PriorVolume(longer, s.length, k - 1) == PriorVolume(m, s.length, k - 1)
    decreases k
  {
    hide RangeSum, FlowAt, InterOf;
    if k > 0 {
      FlowsOfHistory(longer, m, s, k - 1);
      RangeSumSame(m.volumes, longer.volumes, if k - 1 < s.length then 0 else k - 1 - s.length, k - 1);
      SameFlow(longer, m, s, k - 1);
    }
  }

  lemma {:induction false} SameFlow(longer: Market, m: Market, s: Settings, i: nat)
    requires Extends(longer, m) && i < |m.closes| && 1 <= s.length
    requires Inters(longer, s.log, i + 1) == Inters(m, s.log, i + 1)
    requires PriorVolume(longer, s.length, i) == PriorVolume(m, s.length, i)
    ensures FlowAt(longer, s, i) == FlowAt(m, s, i)
  {
    hide Inters, PriorVolume, Variance, FlowFrom;
    assert longer.Typical(i) == m.Typical(i);
    assert i > 0 ==> longer.Typical(i - 1) == m.Typical(i - 1);
  }

  /** Bars that come later change nothing about the bars before them. */
  lemma {:induction false} HistoryPrefix(longer: Market, m: Market, s: Settings, k: nat)
    requires Extends(longer, m) && k <= |m.closes| && 1 <= s.length
    ensures Inters(longer, s.log, k) == Inters(m, s.log, k)
    ensures Flows(longer, s, k) == Flows(m, s, k)
    ensures Points(longer, s, k) == Points(m, s, k)
    ensures k > 0 ==> PriorVolume(longer, s.length, k - 1) == PriorVolume(m, s.length, k - 1)
    decreases k
  {
    hide Inters, Flows, PriorVolume, PointFrom, Emits, SumVcp;
    FlowsOfHistory(longer, m, s, k);
    if k > 0 {
      HistoryPrefix(longer, m, s, k - 1);
    }
  }

  /** A value needs two full windows: the first comes with bar number twice the length. */
  lemma {:induction false} PointsBound(m: Market, s: Settings, n: nat)
    requires m.Aligned() && n <= |m.closes| && 1 <= s.length
    ensures |Points(m, s, n)| <= if n < 2 * s.length then 0 else n + 1 - 2 * s.length
    decreases n
  {
    if n > 0 {
      PointsBound(m, s, n - 1);
      var flows := Flows(m, s, n);
      if s.length <= n < 2 * s.length {
        ValidFlow(m, s, n, n - s.length);
        if !flows[n - s.length].valid {
          SomeInvalid(flows, n - s.length, n - s.length, n);
        }
      }
    }
  }

  predicate SameNumbers(a: Settings, b: Settings) {
    a.length == b.length && a.coef == b.coef && a.volumeCoef == b.volumeCoef && a.signalLength == b.signalLength
  }

  lemma {:induction false} TooFew(points: seq<VfiPoint>, signalLength: nat)
    requires 1 <= signalLength
    ensures |points| < signalLength + 1 ==> ResultOf(points, signalLength) == None
  {
  }

  lemma {:induction false} NothingYet(m: Market, s: Settings)
    requires m.closes == [] && m.Aligned() && 1 <= s.length && 1 <= s.signalLength
    ensures Indicator(m, s) == None && ResultOf([], s.signalLength) == None && Points(m, s, 0) == []
  {
  }

  class StreamVolumeFlow {
    const settings: Settings
    const flow: RunningFlow
    var index: int
    ghost var history: Market

    ghost predicate Valid()
      reads this, flow, flow.interRing, flow.vcpRing, flow.validRing, flow.signalEma, flow.signalEma.history
    {
      && flow.settings == settings && index + 1 == |history.closes| && history.Aligned()
      && (index < 0 ==> flow.Unstarted())
      && (index >= 0 ==> settings.length == STREAM_LENGTH && flow.Processed(history, index + 1))
    }

    constructor (settings: Settings)
      requires 1 <= settings.length && 1 <= settings.signalLength
      ensures Valid() && this.settings == settings && history == Market([], [], [], [])
      ensures fresh(flow) && fresh(flow.interRing) && fresh(flow.vcpRing) && fresh(flow.validRing)
      ensures fresh(flow.signalEma) && fresh(flow.signalEma.history)
    {
      this.settings := settings;
      flow := new RunningFlow(settings);
      index, history := -1, Market([], [], [], []);
    }

    /**
     * Appending is ignored unless the stream was made for 130 bars; otherwise the history
     * grows by the last bar.  The caller may have trimmed its arrays at the front: what is
     * passed only has to end in that bar and the 131 bars of the history before it.
     */
    method Append(shown: Market)
      requires Valid()
      requires Taken(shown) ==> Shows(shown, |shown.closes| - 1, Grown(history, shown), |history.closes|, settings.length)
      modifies this, flow, flow.interRing, flow.vcpRing, flow.validRing, flow.signalEma, flow.signalEma.history
      ensures Valid()
      ensures history == if Taken(shown) then Grown(old(history), shown) else old(history)
      ensures settings.length != 130 || shown.closes == [] || !shown.Aligned() ==> history == old(history)
      ensures settings.length == 130 && shown.closes != [] && shown.Aligned() ==>
                var last := |shown.closes| - 1;
                && history.highs == old(history.highs) + [shown.highs[last]] && history.lows == old(history.lows) + [shown.lows[last]]
                && history.closes == old(history.closes) + [shown.closes[last]] && history.volumes == old(history.volumes) + [shown.volumes[last]]
    {
      hide Inters, Flows, Points, IntersHeld, FlowsHeld, RunningFlow.PointsHeld, PriorVolume;
      if settings.length != STREAM_LENGTH || |shown.closes| == 0 || !shown.Aligned() {
        return;
      }
      var last := |shown.closes| - 1;
      ghost var longer := Grown(history, shown);
      index := index + 1;
      if index == 0 {
        flow.Begin(shown, last, longer);
      } else {
        HistoryPrefix(longer, history, settings, index);
        flow.Advance(shown, last, longer, index);
      }
      history := longer;
    }

    predicate Taken(shown: Market) {
      settings.length == STREAM_LENGTH && |shown.closes| > 0 && shown.Aligned()
    }

    /** Asked for its own settings, the stream answers what the reference indicator says about the history. */
    method Value(asked: Settings) returns (result: Option<VfiResult>)
      requires Valid()
      ensures !SameNumbers(asked, settings) || settings.length != 130 ==> result == None
      ensures result.Some? ==> asked.length == settings.length == 130 && asked.signalLength == settings.signalLength
                               && asked.coef == settings.coef && asked.volumeCoef == settings.volumeCoef
      ensures SameNumbers(asked, settings) && settings.length == 130 ==>
                result == ResultOf(Points(history, settings, |history.closes|), settings.signalLength)
      ensures SameNumbers(asked, settings) && settings.length == 130 && settings.coef > 0.0 && settings.volumeCoef > 0.0 ==>
                result == Indicator(history, settings)
    {
      hide Points, IntersHeld, FlowsHeld, ResultOf, RunningFlow.PointsHeld, Inters, Flows;
      if !SameNumbers(asked, settings) {
        return None;
      }
      if index < 0 {
        NothingYet(history, settings);
        result := flow.Result([]);
      } else {
        PointsBound(history, settings, index + 1);
        TooFew(Points(history, settings, index + 1), settings.signalLength);
        result := flow.ResultAfter(history, index + 1);
      }
    }
  }
}
