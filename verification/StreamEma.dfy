/** The exponential average fed one value at a time, with its last five predecessors. */
module StreamEma {
  import opened Numeric
  import opened IndicatorMath
  import opened TailBuffer

  const HISTORY: nat := 5

  ghost function Superseded(averages: seq<real>): seq<real> {
    if averages == [] then [] else Tail(averages[..|averages| - 1], HISTORY)
  }

  class StreamEmaState {
    const period: int
    var sum: real
    var count: nat
    var value: real
    var previous: real
    var hasPrevious: bool
    const history: array<real>
    var historyCount: nat
    var ready: bool
    ghost var seen: seq<real>
    ghost var averages: seq<real>

    /** Everything held is what the batch averages of the values seen so far say. */
    ghost predicate Valid()
      reads this, history
    {
      && history.Length == HISTORY && historyCount <= HISTORY
      && (period <= 0 ==> seen == [])
      && averages == (if period <= 0 then [] else EmaSeq(seen, period))
      && (ready <==> averages != [])
      && (!ready ==> count == |seen| && sum == RangeSum(seen, 0, |seen|))
      && (ready ==> value == averages[|averages| - 1])
      && (hasPrevious <==> |averages| > 1)
      && (hasPrevious ==> previous == averages[|averages| - 2])
      && history[..historyCount] == Superseded(averages)
    }

    constructor (period: int)
      ensures Valid() && seen == [] && averages == [] && this.period == period && fresh(history)
    {
      this.period := period;
      sum, count, value, previous := 0.0, 0, 0.0, 0.0;
      hasPrevious, ready, historyCount := false, false, 0;
      history := new real[HISTORY](_ => 0.0);
      seen, averages := [], [];
    }

    method Append(next: real)
      requires Valid()
      modifies this, history
      ensures Valid() && seen == if period <= 0 then old(seen) else old(seen) + [next]
      ensures averages == old(averages) + (if ready then [value] else [])
      ensures !ready ==> averages == []
    {
      if period <= 0 {
        return;
      }
      if ready {
        Smooth(next);
      } else {
        Accumulate(next);
      }
    }

    method Accumulate(next: real)
      requires Valid() && period > 0 && !ready
      modifies this
      ensures Valid() && seen == old(seen) + [next]
      ensures averages == old(averages) + (if ready then [value] else [])
      ensures !ready ==> averages == []
    {
      RangeSumSame(seen, seen + [next], 0, |seen|);
      seen := seen + [next];
      sum := sum + next;
      count := count + 1;
      if count == period {
        value := sum / period as real;
        ready := true;
        averages := [value];
      }
    }

    method Smooth(next: real)
      requires Valid() && ready
      modifies this, history
      ensures Valid() && seen == old(seen) + [next]
      ensures averages == old(averages) + (if ready then [value] else [])
      ensures !ready ==> averages == []
    {
      hide EmaOf, EmaSeq, Superseded;
      EmaSeqStep(seen, next, period);
      SupersededSnoc(averages, Blend(value, next, period));
      historyCount := ShiftIn(history, historyCount, value);
      previous := value;
      hasPrevious := true;
      value := Blend(value, next, period);
      seen := seen + [next];
      averages := averages + [value];
    }

    method HistoricalValue(offset: int) returns (past: real, ok: bool)
      requires Valid()
      ensures ok <==> 0 < offset <= 5 && offset < |averages|
      ensures ok ==> past == averages[|averages| - 1 - offset]
    {
      assert historyCount == |Superseded(averages)|;
      if offset <= 0 || offset > historyCount {
        return 0.0, false;
      }
      assert history[historyCount - offset] == history[..historyCount][historyCount - offset];
      return history[historyCount - offset], true;
    }
  }

  lemma {:induction false} AveragesOf(state: StreamEmaState)
    requires state.Valid() && state.period > 0
    ensures state.averages == EmaSeq(state.seen, state.period)
  {
  }

  lemma {:induction false} SupersededSnoc(averages: seq<real>, next: real)
    requires averages != []
    ensures Superseded(averages + [next]) == Tail(Superseded(averages) + [averages[|averages| - 1]], HISTORY)
  {
  }
}
