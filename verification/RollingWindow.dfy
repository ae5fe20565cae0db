/**
 * A ring of the last `period` values with running sums, and the batch values its two
 * readings must equal.
 */
module RollingWindow {
  import opened Numeric
  import opened TailBuffer

  function Lo(n: nat, period: nat): nat {
    if n < period then 0 else n - period
  }

  /** The ring holds the last values of what it was fed, each in the slot of its number. */
  ghost predicate Holds(values: seq<real>, fed: seq<real>, period: nat) {
    && period >= 1 && |values| == |fed| - Lo(|fed|, period)
    && forall i :: Lo(|fed|, period) <= i < |fed| ==> i % period < |values| && values[i % period] == fed[i]
  }

  lemma {:induction false} HoldsSnoc(values: seq<real>, fed: seq<real>, period: nat, next: real)
    requires Holds(values, fed, period)
    ensures |fed| % period < period
    ensures |fed| < period ==> |fed| % period == |fed| && Holds(values + [next], fed + [next], period)
    ensures |fed| >= period ==> Holds(values[|fed| % period := next], fed + [next], period)
  {
    DivMod(|fed|, period);
    if |fed| < period {
      forall i | 0 <= i <= |fed| ensures i % period == i {
        SmallSlot(i, period);
      }
    } else {
      forall i | |fed| + 1 - period <= i < |fed| ensures i % period != |fed| % period && i % period < period {
        SlotsDiffer(i, |fed|, period);
        DivMod(i, period);
      }
    }
  }

  lemma {:induction false} SmallSlot(i: nat, period: nat)
    requires i < period
    ensures i % period == i
  {
  }

  /** The number of the value in slot 0 when the next value goes in slot n modulo the period. */
  function TurnStart(n: nat, period: nat): nat
    requires period >= 1
  {
    n - n % period
  }

  /** A full ring is a rotation of the window: slot j holds the value of this turn, or of the turn before. */
  lemma {:induction false} Rotation(values: seq<real>, fed: seq<real>, period: nat)
    requires Holds(values, fed, period) && |fed| >= period
    ensures var n, start := |fed|, TurnStart(|fed|, period);
            && period <= start <= n < start + period
            && (forall j :: n - start <= j < period ==> values[j] == fed[j + (start - period)])
            && forall j :: 0 <= j < n - start ==> values[j] == fed[j + start]
  {
    hide Holds, TurnStart;
    HoldsPeriod(values, fed, period);
    forall j | 0 <= j < period
      ensures var n, start := |fed|, TurnStart(|fed|, period);
              && period <= start <= n < start + period
              && values[j] == if j < n - start then fed[j + start] else fed[j + (start - period)]
    {
      SlotHolds(values, fed, period, j);
    }
    SlotHolds(values, fed, period, 0);
  }

  lemma {:induction false} HoldsPeriod(values: seq<real>, fed: seq<real>, period: nat)
    requires Holds(values, fed, period) && |fed| >= period
    ensures |values| == period >= 1
  {
  }

  lemma {:induction false} SlotHolds(values: seq<real>, fed: seq<real>, period: nat, j: nat)
    requires Holds(values, fed, period) && |fed| >= period && j < period
    ensures var n, start := |fed|, TurnStart(|fed|, period);
            && period <= start <= n < start + period && |values| == period
            && values[j] == if j < n - start then fed[j + start] else fed[j + (start - period)]
  {
    SlotOfTurn(|fed|, period, j);
    var start := TurnStart(|fed|, period);
    var i := if j < |fed| - start then j + start else j + (start - period);
    assert i % period == j;
  }

  /** Whole turns before n do not change a slot. */
  lemma {:induction false} SlotOfTurn(n: nat, period: nat, j: nat)
    requires 1 <= period <= n && j < period
    ensures n - n % period >= period
    ensures (j + (n - n % period)) % period == j && (j + (n - n % period - period)) % period == j
  {
    WholeTurns(n, period);
    DivMod(n, period);
    var q := n / period;
    TurnSlot(j, q, period);
    TurnSlot(j, q - 1, period);
    assert (q - 1) * period == q * period - period;
  }

  lemma {:induction false} WholeTurns(n: nat, period: nat)
    requires 1 <= period <= n
    ensures n / period >= 1 && n - n % period >= period && n % period < period
  {
  }

  lemma {:induction false} TurnSlot(j: nat, turns: int, period: nat)
    requires j < period && turns >= 0
    ensures turns * period + j >= 0 && (turns * period + j) % period == j
  {
    TurnsAreNatural(turns, period);
    var i := turns * period + j;
    DivMod(i, period);
    RemainderUnique(period, turns, j, i / period, i % period);
  }

  lemma {:induction false} TurnsAreNatural(turns: int, period: nat)
    requires turns >= 0
    ensures turns * period >= 0
  {
  }

  /** Adding up the slots is adding up the window, whatever the rotation. */
  lemma {:induction false} RingSum(values: seq<real>, fed: seq<real>, period: nat)
    requires Holds(values, fed, period) && |fed| >= period
    ensures RangeSum(values, 0, period) == RangeSum(fed, |fed| - period, |fed|)
    ensures RangeSumSq(values, 0, period) == RangeSumSq(fed, |fed| - period, |fed|)
  {
    hide Holds, RangeSum, RangeSumSq, TurnStart;
    RingLength(values, fed, period);
    Rotation(values, fed, period);
    var n, start := |fed|, TurnStart(|fed|, period);
    var r := n - start;
    SumSplits(values, 0, r, period);
    RangeSumShift(fed, values, start - period, r, period);
    RangeSumSqShift(fed, values, start - period, r, period);
    RangeSumShift(fed, values, start, 0, r);
    RangeSumSqShift(fed, values, start, 0, r);
    SumSplits(fed, n - period, start, n);
  }

  lemma {:induction false} RingLength(values: seq<real>, fed: seq<real>, period: nat)
    requires Holds(values, fed, period) && |fed| >= period
    ensures |values| == period >= 1
  {
  }

  lemma {:induction false} SumSplits(s: seq<real>, lo: nat, k: nat, hi: nat)
    requires lo <= k <= hi <= |s|
    ensures RangeSum(s, lo, hi) == RangeSum(s, lo, k) + RangeSum(s, k, hi)
    ensures RangeSumSq(s, lo, hi) == RangeSumSq(s, lo, k) + RangeSumSq(s, k, hi)
    decreases hi
  {
    if k < hi {
      SumSplits(s, lo, k, hi - 1);
    }
  }

  const RESUM: nat := 4096

  class RollingWindow {
    const period: nat
    var index: nat
    var count: nat
    var next: nat
    var sum: real
    var sumSq: real
    var values: seq<real>
    ghost var fed: seq<real>

    /** Counters, ring and sums are those of everything fed. */
    ghost predicate Valid()
      reads this
    {
      && period >= 1 && index == |fed| && count == |values| && next == |fed| % period
      && Holds(values, fed, period)
      && sum == RangeSum(fed, Lo(|fed|, period), |fed|) && sumSq == RangeSumSq(fed, Lo(|fed|, period), |fed|)
    }

    constructor (period: nat)
      requires period >= 1
      ensures Valid() && this.period == period && fed == []
    {
      this.period := period;
      index, count, next, sum, sumSq, values, fed := 0, 0, 0, 0.0, 0.0, [], [];
      new;
      SmallSlot(0, period);
    }

    method Clone() returns (r: RollingWindow)
      requires Valid()
      ensures fresh(r) && r.Valid() && r.period == period && r.fed == fed
    {
      hide Holds, RangeSum, RangeSumSq;
      r := new RollingWindow(period);
      r.index, r.count, r.next, r.sum, r.sumSq := index, count, next, sum, sumSq;
      r.values, r.fed := values, fed;
    }

    /** As good as new. */
    method Clear()
      requires Valid()
      modifies this
      ensures Valid() && fed == []
    {
      index, count, next, sum, sumSq := 0, 0, 0, 0.0, 0.0;
      values, fed := [], [];
      SmallSlot(0, period);
    }

    method Append(value: real)
      requires Valid()
      modifies this
      ensures Valid() && fed == old(fed) + [value]
    {
      hide Holds, RangeSum, RangeSumSq;
      ghost var grown := fed + [value];
      HoldsSnoc(values, fed, period, value);
      RingFits(values, fed, period);
      NextSlot(|fed|, period);
      SlideSums(fed, value, period);
      var newSum, newSumSq, ring, held := sum, sumSq, values, count;
      if count == period {
        var oldest := values[next];
        newSum, newSumSq := newSum - oldest, newSumSq - oldest * oldest;
        ring := values[next := value];
      } else {
        held := held + 1;
        ring := values + [value];
      }
      newSum, newSumSq := newSum + value, newSumSq + value * value;
      var following := if next + 1 == period then 0 else next + 1;
      if (index + 1) % RESUM == 0 && held == period {
        newSum, newSumSq := Resum(ring, grown);
      }
      index, count, next, sum, sumSq := index + 1, held, following, newSum, newSumSq;
      values, fed := ring, grown;
    }

    /** The periodic fresh sums over the slots are the running sums. */
    method Resum(ring: seq<real>, ghost grown: seq<real>) returns (total: real, squares: real)
      requires Holds(ring, grown, period) && |ring| == period
      ensures total == RangeSum(grown, Lo(|grown|, period), |grown|) && squares == RangeSumSq(grown, Lo(|grown|, period), |grown|)
    {
      hide Holds;
      FullWindow(ring, grown, period);
      total, squares := 0.0, 0.0;
      for i := 0 to |ring|
        invariant total == RangeSum(ring, 0, i) && squares == RangeSumSq(ring, 0, i)
      {
        total := total + ring[i];
        squares := squares + ring[i] * ring[i];
      }
      RingSum(ring, grown, period);
    }

    /** Mean and variance of the last `period` values, once there are that many; the variance needs no clamp. */
    method MeanVariance() returns (mean: real, variance: real, ok: bool)
      requires Valid()
      ensures ok <==> |fed| >= period
      ensures ok ==> mean == Mean(fed, |fed| - period, |fed|) && variance == Variance(fed, |fed| - period, |fed|)
    {
      hide Holds, RangeSum, RangeSumSq, Variance;
      RingFits(values, fed, period);
      if count != period {
        return 0.0, 0.0, false;
      }
      RunningVarianceIsTwoPass(fed, |fed| - period, |fed|);
      VarianceNonNegative(fed, |fed| - period, |fed|);
      mean := sum / period as real;
      variance := sumSq / period as real - mean * mean;
      if variance < 0.0 && variance > -0.000000000001 * Max(1.0, mean * mean) {
        variance := 0.0;
      }
      ok := variance >= 0.0;
    }

    /** Highest and lowest of the last `period` values, once there are that many. */
    method RangeValues() returns (maximum: real, minimum: real, ok: bool)
      requires Valid()
      ensures ok <==> |fed| >= period
      ensures ok ==> maximum == RangeMax(fed, |fed| - period, |fed|) && minimum == RangeMin(fed, |fed| - period, |fed|)
    {
      hide Holds, RangeSum, RangeSumSq, RangeMax, RangeMin;
      RingFits(values, fed, period);
      if count != period {
        return 0.0, 0.0, false;
      }
      maximum, minimum := values[0], values[0];
      for i := 1 to |values|
        invariant maximum == RangeMax(values, 0, i) && minimum == RangeMin(values, 0, i)
      {
        ExtremesStep(values, i);
        if values[i] > maximum {
          maximum := values[i];
        }
        if values[i] < minimum {
          minimum := values[i];
        }
      }
      RingExtremes(values, fed, period);
      ok := true;
    }
  }

  lemma {:induction false} RingFits(values: seq<real>, fed: seq<real>, period: nat)
    requires Holds(values, fed, period)
    ensures |values| == (if |fed| < period then |fed| else period) && |fed| % period < period
    ensures |fed| >= period ==> values[|fed| % period] == fed[|fed| - period]
    ensures |values| > 0 ==> RangeMax(values, 0, 1) == values[0] && RangeMin(values, 0, 1) == values[0]
  {
    DivMod(|fed|, period);
    if |fed| >= period {
      SlotWrap(|fed| - period, period);
    }
  }

  lemma {:induction false} SlotWrap(i: nat, period: nat)
    requires period >= 1
    ensures (i + period) % period == i % period
  {
    DivMod(i, period);
    DivMod(i + period, period);
    var q := i / period;
    assert period * (q + 1) == period * q + period;
    RemainderUnique(period, q + 1, i % period, (i + period) / period, (i + period) % period);
  }

  lemma {:induction false} FullWindow(ring: seq<real>, grown: seq<real>, period: nat)
    requires Holds(ring, grown, period) && |ring| == period
    ensures |grown| >= period
  {
  }

  lemma {:induction false} SlideSums(fed: seq<real>, next: real, period: nat)
    requires period >= 1
    ensures var n, grown := |fed|, fed + [next];
            && RangeSum(grown, Lo(n + 1, period), n + 1)
               == RangeSum(fed, Lo(n, period), n) - (if n >= period then fed[n - period] else 0.0) + next
            && RangeSumSq(grown, Lo(n + 1, period), n + 1)
               == RangeSumSq(fed, Lo(n, period), n) - (if n >= period then fed[n - period] * fed[n - period] else 0.0) + next * next
  {
    var n, grown := |fed|, fed + [next];
    RangeSumSame(fed, grown, Lo(n, period), n);
    if n >= period {
      RangeSumDropFirst(grown, n - period, n + 1);
    }
  }

  lemma {:induction false} ExtremesStep(values: seq<real>, i: nat)
    requires 1 <= i < |values|
    ensures RangeMax(values, 0, i + 1) == Max(RangeMax(values, 0, i), values[i])
         && RangeMin(values, 0, i + 1) == Min(RangeMin(values, 0, i), values[i])
  {
  }

  /** The extremes of the slots are those of the window. */
  lemma {:induction false} RingExtremes(values: seq<real>, fed: seq<real>, period: nat)
    requires Holds(values, fed, period) && |fed| >= period
    ensures |values| == period
    ensures RangeMax(values, 0, period) == RangeMax(fed, |fed| - period, |fed|)
         && RangeMin(values, 0, period) == RangeMin(fed, |fed| - period, |fed|)
  {
    hide Holds, TurnStart, RangeMax, RangeMin;
    RingLength(values, fed, period);
    Rotation(values, fed, period);
    var n, start, lo := |fed|, TurnStart(|fed|, period), |fed| - period;
    var atHigh, atLow := ExtremesReached(values, 0, period);
    forall i | lo <= i < n ensures RangeMin(values, 0, period) <= fed[i] <= RangeMax(values, 0, period) {
      var j := if i >= start then i - start else i - (start - period);
      assert values[j] == fed[i];
    }
    RangeExtremesAre(fed, lo, n, RangeMax(values, 0, period), RangeMin(values, 0, period),
                     if atHigh < n - start then atHigh + start else atHigh + (start - period),
                     if atLow < n - start then atLow + start else atLow + (start - period));
  }

  lemma {:induction false} ExtremesReached(s: seq<real>, lo: nat, hi: nat) returns (atHigh: nat, atLow: nat)
    requires lo < hi <= |s|
    ensures lo <= atHigh < hi && s[atHigh] == RangeMax(s, lo, hi) && lo <= atLow < hi && s[atLow] == RangeMin(s, lo, hi)
    ensures forall i :: lo <= i < hi ==> RangeMin(s, lo, hi) <= s[i] <= RangeMax(s, lo, hi)
  {
    var i :| lo <= i < hi && s[i] == RangeMax(s, lo, hi);
    var j :| lo <= j < hi && s[j] == RangeMin(s, lo, hi);
    atHigh, atLow := i, j;
  }

  /** Bounds that are reached are the extremes. */
  lemma {:induction false} RangeExtremesAre(s: seq<real>, lo: nat, hi: nat, high: real, low: real, atHigh: nat, atLow: nat)
    requires lo < hi <= |s| && forall i :: lo <= i < hi ==> low <= s[i] <= high
    requires lo <= atHigh < hi && s[atHigh] == high && lo <= atLow < hi && s[atLow] == low
    ensures RangeMax(s, lo, hi) == high && RangeMin(s, lo, hi) == low
  {
  }
}
