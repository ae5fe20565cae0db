/**
 * Parabolic SAR: one step shared by the batch loop and the streaming state, the batch and
 * stream forms, and what the line guarantees inside a trend.
 */
module Psar {
  import opened Numeric

  datatype Trail = Trail(up: bool, sar: real, ep: real, acceleration: real)

  /** What is published: the line and its side. */
  datatype Reading = Reading(sar: real, up: bool)

  /** The line against a bar: flip to the extreme point when the bar crosses it, else follow new extremes. */
  function Turn(t: Trail, line: real, high: real, low: real, step: real, maxStep: real): Trail {
    if t.up then
      if low < line then Trail(false, t.ep, low, step)
      else if high > t.ep then Trail(true, line, high, Min(t.acceleration + step, maxStep))
      else t.(sar := line)
    else
      if high > line then Trail(true, t.ep, high, step)
      else if low < t.ep then Trail(false, line, low, Min(t.acceleration + step, maxStep))
      else t.(sar := line)
  }

  function Glide(t: Trail): real {
    t.sar + t.acceleration * (t.ep - t.sar)
  }

  /** The line may not enter the previous two bars. */
  function Held(t: Trail, highs: seq<real>, lows: seq<real>, i: nat): real
    requires 2 <= i <= |highs| == |lows|
  {
    if t.up then Min(Min(Glide(t), lows[i - 1]), lows[i - 2]) else Max(Max(Glide(t), highs[i - 1]), highs[i - 2])
  }

  function Begin(highs: seq<real>, lows: seq<real>, closes: seq<real>, step: real): Trail
    requires |highs| == |lows| == |closes| >= 2
  {
    if closes[1] >= closes[0] then Trail(true, lows[0], highs[0], step) else Trail(false, highs[0], lows[0], step)
  }

  /** The trail after the first n bars. */
  function TrailAfter(highs: seq<real>, lows: seq<real>, closes: seq<real>, step: real, maxStep: real, n: nat): Trail
    requires |highs| == |lows| == |closes| && 2 <= n <= |closes|
    decreases n
  {
    if n == 2 then
      var t := Begin(highs, lows, closes, step);
      Turn(t, Glide(t), highs[1], lows[1], step, maxStep)
    else
      var t := TrailAfter(highs, lows, closes, step, maxStep, n - 1);
      Turn(t, Held(t, highs, lows, n - 1), highs[n - 1], lows[n - 1], step, maxStep)
  }

  ghost predicate Enabled(step: real, maxStep: real) {
    0.0 < step <= maxStep
  }

  ghost function ReadingOf(highs: seq<real>, lows: seq<real>, closes: seq<real>, step: real, maxStep: real): Option<Reading>
    requires |highs| == |lows| == |closes|
  {
    if |closes| < 3 || !Enabled(step, maxStep) then None
    else
      var t := TrailAfter(highs, lows, closes, step, maxStep, |closes|);
      Some(Reading(t.sar, t.up))
  }

  /** A reading needs three bars and a positive step up to the maximum, and is the line with its side. */
  lemma {:induction false} ReadingExistsExactly(highs: seq<real>, lows: seq<real>, closes: seq<real>, step: real, maxStep: real)
    requires |highs| == |lows| == |closes|
    ensures var r := ReadingOf(highs, lows, closes, step, maxStep);
            && (r.Some? <==> |closes| >= 3 && step > 0.0 && maxStep >= step)
            && (r.Some? ==>
                  var t := TrailAfter(highs, lows, closes, step, maxStep, |closes|); r.value.sar == t.sar && r.value.up == t.up)
  {
    hide TrailAfter;
  }

  // ----- batch -----

  method Batch(highs: seq<real>, lows: seq<real>, closes: seq<real>, step: real, maxStep: real) returns (r: Option<Reading>)
    requires |highs| == |lows| == |closes|
    ensures r == ReadingOf(highs, lows, closes, step, maxStep)
  {
    hide Glide;
    if |closes| < 3 || step <= 0.0 || maxStep < step {
      return None;
    }
    var uptrend := closes[1] >= closes[0];
    var sar, ep := lows[0], highs[0];
    if !uptrend {
      sar, ep := highs[0], lows[0];
    }
    var acceleration := step;
    for index := 1 to |closes|
      invariant index == 1 ==> Trail(uptrend, sar, ep, acceleration) == Begin(highs, lows, closes, step)
      invariant index > 1 ==> Trail(uptrend, sar, ep, acceleration) == TrailAfter(highs, lows, closes, step, maxStep, index)
    {
      sar := Glide(Trail(uptrend, sar, ep, acceleration));
      if uptrend {
        if index >= 2 {
          sar := Min(Min(sar, lows[index - 1]), lows[index - 2]);
        }
        if lows[index] < sar {
          uptrend, sar, ep, acceleration := false, ep, lows[index], step;
        } else if highs[index] > ep {
          ep, acceleration := highs[index], Min(acceleration + step, maxStep);
        }
      } else {
        if index >= 2 {
          sar := Max(Max(sar, highs[index - 1]), highs[index - 2]);
        }
        if highs[index] > sar {
          uptrend, sar, ep, acceleration := true, ep, highs[index], step;
        } else if lows[index] < ep {
          ep, acceleration := lows[index], Min(acceleration + step, maxStep);
        }
      }
    }
    r := Some(Reading(sar, uptrend));
  }

  // ----- stream -----

  /** The trail only looks at the bars it has seen. */
  lemma {:induction false} TrailPrefix(highs: seq<real>, lows: seq<real>, closes: seq<real>,
                                       high: real, low: real, close: real, step: real, maxStep: real, n: nat)
    requires |highs| == |lows| == |closes| && 2 <= n <= |closes|
    ensures TrailAfter(highs + [high], lows + [low], closes + [close], step, maxStep, n) == TrailAfter(highs, lows, closes, step, maxStep, n)
    decreases n
  {
    hide Glide, Turn;
    if n > 2 {
      TrailPrefix(highs, lows, closes, high, low, close, step, maxStep, n - 1);
    }
  }

  lemma {:induction false} TrailSnoc(highs: seq<real>, lows: seq<real>, closes: seq<real>, high: real, low: real, close: real,
        step: real, maxStep: real)
    requires |highs| == |lows| == |closes| >= 2
    ensures var n := |closes|;
            var t := TrailAfter(highs, lows, closes, step, maxStep, n);
            TrailAfter(highs + [high], lows + [low], closes + [close], step, maxStep, n + 1)
            == Turn(t, if t.up then Min(Min(Glide(t), lows[n - 1]), lows[n - 2]) else Max(Max(Glide(t), highs[n - 1]), highs[n - 2]),
                    high, low, step, maxStep)
  {
    hide Glide, Turn;
    TrailPrefix(highs, lows, closes, high, low, close, step, maxStep, |closes|);
  }

  lemma {:induction false} TrailTwo(highs: seq<real>, lows: seq<real>, closes: seq<real>, step: real, maxStep: real)
    requires |highs| == |lows| == |closes| == 2
    ensures var t := Begin(highs, lows, closes, step);
            TrailAfter(highs, lows, closes, step, maxStep, 2) == Turn(t, Glide(t), highs[1], lows[1], step, maxStep)
  {
  }

  class StreamPsar {
    const step: real
    const maxStep: real
    var count: nat
    var uptrend: bool
    var sar: real
    var ep: real
    var acceleration: real
    var previousHigh: real
    var previousLow: real
    var previousClose: real
    var priorHigh: real
    var priorLow: real
    ghost var highs: seq<real>
    ghost var lows: seq<real>
    ghost var closes: seq<real>

    ghost predicate Valid()
      reads this
    {
      && |highs| == |lows| == |closes|
      && count == (if Enabled(step, maxStep) then |closes| else 0)
      && (count >= 1 ==> previousHigh == highs[count - 1] && previousLow == lows[count - 1] && previousClose == closes[count - 1])
      && (count >= 2 ==> priorHigh == highs[count - 2] && priorLow == lows[count - 2])
      && (count >= 2 ==> Trail(uptrend, sar, ep, acceleration) == TrailAfter(highs, lows, closes, step, maxStep, count))
    }

    constructor (step: real, maxStep: real)
      ensures Valid() && closes == [] && this.step == step && this.maxStep == maxStep
    {
      this.step, this.maxStep := step, maxStep;
      count, highs, lows, closes := 0, [], [], [];
    }

    method Append(high: real, low: real, close: real)
      requires Valid()
      modifies this
      ensures Valid()
      ensures highs == old(highs) + [high] && lows == old(lows) + [low] && closes == old(closes) + [close]
    {
      hide Glide, Turn, TrailAfter;
      ghost var hs, ls, cs := highs + [high], lows + [low], closes + [close];
      if count >= 2 {
        TrailSnoc(highs, lows, closes, high, low, close, step, maxStep);
      }
      if count == 1 {
        TrailTwo(hs, ls, cs, step, maxStep);
      }
      highs, lows, closes := hs, ls, cs;
      if step <= 0.0 || maxStep < step {
        return;
      }
      if count == 0 {
        previousHigh, previousLow, previousClose, count := high, low, close, 1;
        return;
      }
      if count == 1 {
        Orient(close);
        Advance(high, low, false);
      } else {
        Advance(high, low, true);
      }
      Shift(high, low, close);
    }

    method Orient(close: real)
      modifies `uptrend, `sar, `ep, `acceleration
      ensures Trail(uptrend, sar, ep, acceleration)
           == if close >= previousClose then Trail(true, previousLow, previousHigh, step) else Trail(false, previousHigh, previousLow, step)
    {
      uptrend := close >= previousClose;
      sar, ep := previousLow, previousHigh;
      if !uptrend {
        sar, ep := previousHigh, previousLow;
      }
      acceleration := step;
    }

    method Shift(high: real, low: real, close: real)
      modifies `priorHigh, `priorLow, `previousHigh, `previousLow, `previousClose, `count
      ensures priorHigh == old(previousHigh) && priorLow == old(previousLow)
      ensures previousHigh == high && previousLow == low && previousClose == close && count == old(count) + 1
    {
      priorHigh, priorLow := previousHigh, previousLow;
      previousHigh, previousLow, previousClose := high, low, close;
      count := count + 1;
    }

    method Advance(high: real, low: real, constrain: bool)
      modifies `uptrend, `sar, `ep, `acceleration
      ensures var t := old(Trail(uptrend, sar, ep, acceleration));
              Trail(uptrend, sar, ep, acceleration)
              == Turn(t, if !constrain then Glide(t)
                         else if t.up then Min(Min(Glide(t), previousLow), priorLow)
                         else Max(Max(Glide(t), previousHigh), priorHigh), high, low, step, maxStep)
    {
      hide Glide;
      sar := Glide(Trail(uptrend, sar, ep, acceleration));
      if uptrend {
        if constrain {
          sar := Min(Min(sar, previousLow), priorLow);
        }
        if low < sar {
          uptrend, sar, ep, acceleration := false, ep, low, step;
          return;
        }
        if high > ep {
          ep, acceleration := high, Min(acceleration + step, maxStep);
        }
        return;
      }
      if constrain {
        sar := Max(Max(sar, previousHigh), priorHigh);
      }
      if high > sar {
        uptrend, sar, ep, acceleration := true, ep, high, step;
        return;
      }
      if low < ep {
        ep, acceleration := low, Min(acceleration + step, maxStep);
      }
    }

    /** The stream publishes exactly what the batch loop computes on everything appended. */
    method Value() returns (r: Option<Reading>)
      requires Valid()
      ensures r == ReadingOf(highs, lows, closes, step, maxStep)
    {
      if count < 3 {
        return None;
      }
      r := Some(Reading(sar, uptrend));
    }
  }

  // ----- what the line guarantees -----

  /** The bar at which the trend in force after n bars began; bar 0 for the first trend. */
  function RunStart(highs: seq<real>, lows: seq<real>, closes: seq<real>, step: real, maxStep: real, n: nat): (r: nat)
    requires |highs| == |lows| == |closes| && 2 <= n <= |closes|
    ensures r < n
    decreases n
  {
    var now := TrailAfter(highs, lows, closes, step, maxStep, n).up;
    if n == 2 then if now == (closes[1] >= closes[0]) then 0 else 1
    else if now == TrailAfter(highs, lows, closes, step, maxStep, n - 1).up then RunStart(highs, lows, closes, step, maxStep, n - 1)
    else n - 1
  }

  /** How often a bar of xs[start..n] after the first exceeded everything before it in the run. */
  function Records(xs: seq<real>, start: nat, n: nat): nat
    requires start < n <= |xs|
    decreases n
  {
    if n == start + 1 then 0
    else Records(xs, start, n - 1) + if xs[n - 1] > RangeMax(xs, start, n - 1) then 1 else 0
  }

  function Lowest(xs: seq<real>, start: nat, n: nat): nat
    requires start < n <= |xs|
    decreases n
  {
    if n == start + 1 then 0
    else Lowest(xs, start, n - 1) + if xs[n - 1] < RangeMin(xs, start, n - 1) then 1 else 0
  }

  function Speed(step: real, maxStep: real, records: nat): real {
    Min(step * (records + 1) as real, maxStep)
  }

  lemma {:induction false} SpeedStep(step: real, maxStep: real, records: nat)
    requires Enabled(step, maxStep)
    ensures Speed(step, maxStep, 0) == step
    ensures Speed(step, maxStep, records + 1) == Min(Speed(step, maxStep, records) + step, maxStep)
    ensures 0.0 < Speed(step, maxStep, records) <= maxStep
  {
  }

  /**
   * The extreme point is the extreme of the whole run, and the acceleration counts the
   * records the run has set.
   */
  lemma {:induction false} ExtremeAndSpeedOfRun(highs: seq<real>, lows: seq<real>, closes: seq<real>, step: real, maxStep: real, n: nat)
    requires |highs| == |lows| == |closes| && 2 <= n <= |closes| && Enabled(step, maxStep)
    ensures var t, start := TrailAfter(highs, lows, closes, step, maxStep, n), RunStart(highs, lows, closes, step, maxStep, n);
            OfRun(t, highs, lows, start, n, step, maxStep)
    decreases n
  {
    hide Speed, TrailAfter, RunStart, RangeMax, RangeMin, Records, Lowest, Glide, Held, Turn;
    TrailUnfold(highs, lows, closes, step, maxStep, n);
    if n == 2 {
      var t := Begin(highs, lows, closes, step);
      RunKept(t, Glide(t), highs, lows, 0, 1, step, maxStep);
      RunTurned(t, Glide(t), highs, lows, 1, step, maxStep);
    } else {
      ExtremeAndSpeedOfRun(highs, lows, closes, step, maxStep, n - 1);
      var start := RunStart(highs, lows, closes, step, maxStep, n - 1);
      var t := TrailAfter(highs, lows, closes, step, maxStep, n - 1);
      RunKept(t, Held(t, highs, lows, n - 1), highs, lows, start, n - 1, step, maxStep);
      RunTurned(t, Held(t, highs, lows, n - 1), highs, lows, n - 1, step, maxStep);
    }
  }

  /** TrailAfter and RunStart, one bar at a time. */
  lemma {:induction false} TrailUnfold(highs: seq<real>, lows: seq<real>, closes: seq<real>, step: real, maxStep: real, n: nat)
    requires |highs| == |lows| == |closes| && 2 <= n <= |closes|
    ensures var t, start := TrailAfter(highs, lows, closes, step, maxStep, n), RunStart(highs, lows, closes, step, maxStep, n);
            if n == 2 then
              var b := Begin(highs, lows, closes, step);
              t == Turn(b, Glide(b), highs[1], lows[1], step, maxStep) && start == if t.up == b.up then 0 else 1
            else
              var b := TrailAfter(highs, lows, closes, step, maxStep, n - 1);
              && t == Turn(b, Held(b, highs, lows, n - 1), highs[n - 1], lows[n - 1], step, maxStep)
              && start == if t.up == b.up then RunStart(highs, lows, closes, step, maxStep, n - 1) else n - 1
  {
  }

  /** The run that began at bar `start` and now stands at bar i - 1. */
  ghost predicate OfRun(t: Trail, highs: seq<real>, lows: seq<real>, start: nat, n: nat, step: real, maxStep: real)
    requires start < n <= |highs| == |lows|
  {
    if t.up then t.ep == RangeMax(highs, start, n) && t.acceleration == Speed(step, maxStep, Records(highs, start, n))
    else t.ep == RangeMin(lows, start, n) && t.acceleration == Speed(step, maxStep, Lowest(lows, start, n))
  }

  lemma {:induction false} RunKept(t: Trail, line: real, highs: seq<real>, lows: seq<real>, start: nat, i: nat, step: real, maxStep: real)
    requires start < i < |highs| == |lows| && Enabled(step, maxStep)
    requires OfRun(t, highs, lows, start, i, step, maxStep)
         || (start == 0 && i == 1 && t.acceleration == step && t.ep == if t.up then highs[0] else lows[0])
    ensures var next := Turn(t, line, highs[i], lows[i], step, maxStep);
            next.up == t.up ==> OfRun(next, highs, lows, start, i + 1, step, maxStep)
  {
    hide Speed;
    SpeedStep(step, maxStep, Records(highs, start, i));
    SpeedStep(step, maxStep, Lowest(lows, start, i));
  }

  lemma {:induction false} RunTurned(t: Trail, line: real, highs: seq<real>, lows: seq<real>, i: nat, step: real, maxStep: real)
    requires i < |highs| == |lows| && Enabled(step, maxStep)
    ensures var next := Turn(t, line, highs[i], lows[i], step, maxStep);
            next.up != t.up ==> OfRun(next, highs, lows, i, i + 1, step, maxStep)
  {
  }

  ghost predicate SaneBars(highs: seq<real>, lows: seq<real>) {
    |highs| == |lows| && forall i :: 0 <= i < |highs| ==> lows[i] <= highs[i]
  }

  /** From the third bar on the line is on the trend's side of the extreme point, and a kept trend never lets it enter the last three bars. */
  lemma {:induction false} LineStaysOutside(highs: seq<real>, lows: seq<real>, closes: seq<real>, step: real, maxStep: real, n: nat)
    requires SaneBars(highs, lows) && |closes| == |lows| && 3 <= n <= |closes| && Enabled(step, maxStep)
    ensures var t := TrailAfter(highs, lows, closes, step, maxStep, n);
            && (if t.up then t.sar <= t.ep && highs[n - 1] <= t.ep else t.ep <= t.sar && t.ep <= lows[n - 1])
            && (t.up == TrailAfter(highs, lows, closes, step, maxStep, n - 1).up ==>
                  forall i :: n - 3 <= i < n ==> if t.up then t.sar <= lows[i] else highs[i] <= t.sar)
  {
    hide Glide;
    assert lows[n - 1] <= highs[n - 1] && lows[n - 2] <= highs[n - 2] && lows[n - 3] <= highs[n - 3];
    ExtremeCoversLast(highs, lows, closes, step, maxStep, n - 1);
  }

  lemma {:induction false} ExtremeCoversLast(highs: seq<real>, lows: seq<real>, closes: seq<real>, step: real, maxStep: real, n: nat)
    requires |highs| == |lows| == |closes| && 2 <= n <= |closes| && Enabled(step, maxStep)
    ensures var t := TrailAfter(highs, lows, closes, step, maxStep, n);
            && (if t.up then highs[n - 1] <= t.ep else t.ep <= lows[n - 1])
            && t.acceleration > 0.0
  {
    hide Glide, TrailAfter;
    ExtremeAndSpeedOfRun(highs, lows, closes, step, maxStep, n);
    var start := RunStart(highs, lows, closes, step, maxStep, n);
    SpeedStep(step, maxStep, Records(highs, start, n));
    SpeedStep(step, maxStep, Lowest(lows, start, n));
  }

  lemma {:induction false} GlideMovesTowardExtreme(t: Trail)
    requires t.acceleration > 0.0
    ensures t.sar <= t.ep ==> t.sar <= Glide(t)
    ensures t.ep <= t.sar ==> Glide(t) <= t.sar
  {
  }

  /**
   * While a trend is kept the line retreats exactly when the bar before had already pierced
   * it, which only a reversal bar can do.
   */
  lemma {:induction false} RetreatsOnlyAfterPiercing(highs: seq<real>, lows: seq<real>, closes: seq<real>, step: real, maxStep: real, n: nat)
    requires SaneBars(highs, lows) && |closes| == |lows| && 4 <= n <= |closes| && Enabled(step, maxStep)
    ensures var t, before := TrailAfter(highs, lows, closes, step, maxStep, n), TrailAfter(highs, lows, closes, step, maxStep, n - 1);
            t.up == before.up ==>
              if t.up then before.sar <= t.sar <==> before.sar <= lows[n - 2]
              else t.sar <= before.sar <==> highs[n - 2] <= before.sar
  {
    hide Glide;
    var before, earlier := TrailAfter(highs, lows, closes, step, maxStep, n - 1), TrailAfter(highs, lows, closes, step, maxStep, n - 2);
    LineStaysOutside(highs, lows, closes, step, maxStep, n - 1);
    ExtremeCoversLast(highs, lows, closes, step, maxStep, n - 1);
    ExtremeCoversLast(highs, lows, closes, step, maxStep, n - 2);
    GlideMovesTowardExtreme(before);
  }

  /** Two kept bars in a row from the third bar on: the line moves only with the trend. */
  lemma {:induction false} NeverRetreatsInsideTrend(highs: seq<real>, lows: seq<real>, closes: seq<real>, step: real, maxStep: real, n: nat)
    requires SaneBars(highs, lows) && |closes| == |lows| && 4 <= n <= |closes| && Enabled(step, maxStep)
    requires TrailAfter(highs, lows, closes, step, maxStep, n).up == TrailAfter(highs, lows, closes, step, maxStep, n - 1).up
          == TrailAfter(highs, lows, closes, step, maxStep, n - 2).up
    ensures var t, before := TrailAfter(highs, lows, closes, step, maxStep, n), TrailAfter(highs, lows, closes, step, maxStep, n - 1);
            && (if t.up then before.sar <= t.sar else t.sar <= before.sar)
            && forall i :: n - 3 <= i < n ==> if t.up then t.sar <= lows[i] else highs[i] <= t.sar
  {
    hide TrailAfter;
    LineStaysOutside(highs, lows, closes, step, maxStep, n - 1);
    LineStaysOutside(highs, lows, closes, step, maxStep, n);
    RetreatsOnlyAfterPiercing(highs, lows, closes, step, maxStep, n);
  }

  // ----- the line in prices -----

  /** Where the line gets from `line` toward the best price of its run, held outside the two bars before: below both when rising, above both when falling. */
  ghost predicate LineIs(line: real, before: real, up: bool, best: real, speed: real, highs: seq<real>, lows: seq<real>, i: nat)
    requires 2 <= i <= |highs| == |lows|
  {
    var glide := before + speed * (best - before);
    if up then line <= glide && line <= lows[i - 1] && line <= lows[i - 2] && (line == glide || line == lows[i - 1] || line == lows[i - 2])
    else line >= glide && line >= highs[i - 1] && line >= highs[i - 2] && (line == glide || line == highs[i - 1] || line == highs[i - 2])
  }

  /** The best price of the run in force after i bars, and the speed of its line: one step, and one more for each record of the run up to maxStep. */
  ghost predicate RunIs(best: real, speed: real, up: bool, highs: seq<real>, lows: seq<real>, start: nat, i: nat, step: real, maxStep: real)
    requires start < i <= |highs| == |lows|
  {
    if up then best == RangeMax(highs, start, i) && speed == Min(step * (Records(highs, start, i) + 1) as real, maxStep)
    else best == RangeMin(lows, start, i) && speed == Min(step * (Lowest(lows, start, i) + 1) as real, maxStep)
  }

  /**
   * From the third bar on: the line moves from where it was toward the best price of the run,
   * held outside the last two bars; the trend turns exactly when the new bar pierces it there,
   * and the line then jumps to the best price of the run that ended.
   */
  lemma {:induction false} LineInPrices(highs: seq<real>, lows: seq<real>, closes: seq<real>, step: real, maxStep: real, n: nat)
      returns (line: real, best: real, speed: real)
    requires |highs| == |lows| == |closes| && 3 <= n <= |closes| && Enabled(step, maxStep)
    ensures var t, before := TrailAfter(highs, lows, closes, step, maxStep, n), TrailAfter(highs, lows, closes, step, maxStep, n - 1);
            && RunIs(best, speed, before.up, highs, lows, RunStart(highs, lows, closes, step, maxStep, n - 1), n - 1, step, maxStep)
            && LineIs(line, before.sar, before.up, best, speed, highs, lows, n - 1)
            && (t.up != before.up <==> if before.up then lows[n - 1] < line else highs[n - 1] > line)
            && t.sar == (if t.up == before.up then line else best)
  {
    hide RangeMax, RangeMin, Records, Lowest, RunStart, TrailAfter, Turn, Held, OfRun, RunIs, LineIs;
    ExtremeAndSpeedOfRun(highs, lows, closes, step, maxStep, n - 1);
    TrailUnfold(highs, lows, closes, step, maxStep, n);
    var before := TrailAfter(highs, lows, closes, step, maxStep, n - 1);
    line, best, speed := Held(before, highs, lows, n - 1), before.ep, before.acceleration;
    OfRunIs(before, highs, lows, RunStart(highs, lows, closes, step, maxStep, n - 1), n - 1, step, maxStep);
    HeldIs(before, highs, lows, n - 1);
    TurnSays(before, line, highs[n - 1], lows[n - 1], step, maxStep);
  }

  lemma {:induction false} OfRunIs(t: Trail, highs: seq<real>, lows: seq<real>, start: nat, n: nat, step: real, maxStep: real)
    requires start < n <= |highs| == |lows| && OfRun(t, highs, lows, start, n, step, maxStep)
    ensures RunIs(t.ep, t.acceleration, t.up, highs, lows, start, n, step, maxStep)
  {
    hide RangeMax, RangeMin, Records, Lowest;
  }

  lemma {:induction false} HeldIs(t: Trail, highs: seq<real>, lows: seq<real>, i: nat)
    requires 2 <= i <= |highs| == |lows|
    ensures LineIs(Held(t, highs, lows, i), t.sar, t.up, t.ep, t.acceleration, highs, lows, i)
  {
  }

  lemma {:induction false} TurnSays(t: Trail, line: real, high: real, low: real, step: real, maxStep: real)
    ensures var next := Turn(t, line, high, low, step, maxStep);
            && (next.up != t.up <==> if t.up then low < line else high > line)
            && next.sar == (if next.up == t.up then line else t.ep)
  {
  }

  /**
   * The second bar: the trend starts up when the second close is not below the first, with
   * the line one step from the far end of the first bar toward the near one.
   */
  lemma {:induction false} SecondBarInPrices(highs: seq<real>, lows: seq<real>, closes: seq<real>, step: real, maxStep: real)
    requires |highs| == |lows| == |closes| >= 2
    ensures var t, rising := TrailAfter(highs, lows, closes, step, maxStep, 2), closes[1] >= closes[0];
            var near, far := if rising then highs[0] else lows[0], if rising then lows[0] else highs[0];
            var line := far + step * (near - far);
            && (t.up != rising <==> if rising then lows[1] < line else highs[1] > line)
            && t.sar == (if t.up == rising then line else near)
  {
  }
}
