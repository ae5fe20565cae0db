/**
 * Protective exits of an open position: the trailing trigger with its profit guard and
 * adaptive runner, the running extremes that feed it, and the order in which a bar's
 * touched rules are taken.
 */
module TrailingExit {
  import opened Numeric

  datatype Side = Long | Short | Flat

  datatype ExitType = StopLoss | TrailingStop | TakeProfit | OtherExit

  /** A rule with its texts parsed; None where a text is missing or not a number. */
  datatype ExitRule = ExitRule(
    kind: ExitType, reason: string, triggerPrice: Option<real>, sizePct: real,
    trailPct: Option<real>, referencePrice: Option<real>, guardActivationBps: Option<real>, guardFloorBps: Option<real>,
    adaptive: bool, runnerActivationBps: Option<real>, runnerTrailPct: Option<real>)

  // ----- the trailing trigger -----

  predicate Positive(x: Option<real>) {
    x.Some? && x.value > 0.0
  }

  function TrailingTriggerPrice(side: Side, reference: real, trailPct: real): real {
    if side == Long then reference * (1.0 - trailPct / 100.0) else reference * (1.0 + trailPct / 100.0)
  }

  /** The price a gain of `bps` away from the entry. */
  function GainPrice(side: Side, entry: real, bps: real): real {
    if side == Long then entry * (1.0 + bps / 10000.0) else entry * (1.0 - bps / 10000.0)
  }

  predicate Guarded(rule: ExitRule) {
    Positive(rule.guardActivationBps) && Positive(rule.guardFloorBps)
  }

  predicate HasRunner(rule: ExitRule, trailPct: real) {
    rule.adaptive && Positive(rule.runnerActivationBps) && rule.runnerTrailPct.Some? && rule.runnerTrailPct.value > trailPct
  }

  /** Whether a reference has reached a price in the position's favour. */
  predicate Reached(side: Side, reference: real, price: real) {
    if side == Long then reference >= price else reference <= price
  }

  /** The better of two protective prices for the position. */
  function Tighter(side: Side, a: real, b: real): real {
    if side == Long then Max(a, b) else Min(a, b)
  }

  function ProtectedTrailPrice(side: Side, rule: ExitRule, entry: real, reference: real, trailPct: real): real {
    if side == Flat || !HasRunner(rule, trailPct) then TrailingTriggerPrice(side, reference, trailPct)
    else
      var runner := GainPrice(side, entry, rule.runnerActivationBps.value);
      if !Reached(side, reference, runner) then TrailingTriggerPrice(side, reference, trailPct)
      else Tighter(side, TrailingTriggerPrice(side, runner, trailPct), TrailingTriggerPrice(side, reference, rule.runnerTrailPct.value))
  }

  /** The trigger a reference earns; None while the guard has not been activated. */
  function ProtectedTriggerPrice(side: Side, entry: Option<real>, rule: ExitRule, reference: real, trailPct: real): Option<real> {
    if !Guarded(rule) then Some(TrailingTriggerPrice(side, reference, trailPct))
    else if !Positive(entry) || side == Flat || !Reached(side, reference, GainPrice(side, entry.value, rule.guardActivationBps.value)) then None
    else Some(Tighter(side, GainPrice(side, entry.value, rule.guardFloorBps.value),
         ProtectedTrailPrice(side, rule, entry.value, reference, trailPct)))
  }

  /** The trigger a trailing rule stands at, None while it cannot fire. */
  function TriggerOf(side: Side, entry: Option<real>, rule: ExitRule): Option<real> {
    if !Positive(rule.trailPct) || !Positive(rule.referencePrice) then None
    else ProtectedTriggerPrice(side, entry, rule, rule.referencePrice.value, rule.trailPct.value)
  }

  /** b protects at least as well as a. */
  ghost predicate NoLooser(side: Side, a: Option<real>, b: Option<real>) {
    a.Some? ==> b.Some? && (if side == Long then a.value <= b.value else b.value <= a.value)
  }

  // ----- monotone in the reference -----

  lemma {:induction false} ScaledOrder(a: real, b: real, factor: real)
    requires a <= b && factor >= 0.0
    ensures a * factor <= b * factor
  {
  }

  lemma {:induction false} TrailFollows(side: Side, reference: real, better: real, trailPct: real)
    requires side != Flat && trailPct >= 0.0 && Reached(side, better, reference) && (side == Long ==> trailPct <= 100.0)
    ensures if side == Long then TrailingTriggerPrice(side, reference, trailPct) <= TrailingTriggerPrice(side, better, trailPct)
            else TrailingTriggerPrice(side, better, trailPct) <= TrailingTriggerPrice(side, reference, trailPct)
  {
    if side == Long {
      ScaledOrder(reference, better, 1.0 - trailPct / 100.0);
    } else {
      ScaledOrder(better, reference, 1.0 + trailPct / 100.0);
    }
  }

  /** Even across the switch to the wider runner the protected price follows the reference. */
  lemma {:induction false} ProtectedTrailFollows(side: Side, rule: ExitRule, entry: real, reference: real, better: real, trailPct: real)
    requires side != Flat && entry > 0.0 && trailPct > 0.0 && reference > 0.0 && Reached(side, better, reference)
         && (side == Long ==> trailPct <= 100.0)
    ensures var a, b := ProtectedTrailPrice(side, rule, entry, reference, trailPct), ProtectedTrailPrice(side, rule, entry, better, trailPct);
            if side == Long then a <= b else b <= a
  {
    hide TrailingTriggerPrice, GainPrice;
    TrailFollows(side, reference, better, trailPct);
    if HasRunner(rule, trailPct) {
      GainIsPositive(entry, rule.runnerActivationBps.value);
      var runner := GainPrice(side, entry, rule.runnerActivationBps.value);
      if Reached(side, better, runner) {
        if Reached(side, reference, runner) {
          RunnerFollows(side, rule.runnerTrailPct.value, reference, better, TrailingTriggerPrice(side, runner, trailPct), runner, trailPct);
        } else {
          TrailFollows(side, reference, runner, trailPct);
        }
      }
    }
  }

  /** Past the switch: the wide runner trail, or the anchor when the runner trail is wider than the price itself. */
  lemma {:induction false} RunnerFollows(side: Side, runnerPct: real, reference: real, better: real, anchor: real, runner: real, trailPct: real)
    requires side != Flat && runnerPct > trailPct > 0.0 && Reached(side, better, reference)
         && (side == Long ==> trailPct <= 100.0 && reference > 0.0)
    requires anchor == TrailingTriggerPrice(side, runner, trailPct) && (side == Long ==> runner > 0.0)
    ensures var a, b := Tighter(side, anchor, TrailingTriggerPrice(side, reference, runnerPct)),
         Tighter(side, anchor, TrailingTriggerPrice(side, better, runnerPct));
            if side == Long then a <= b else b <= a
  {
    hide TrailingTriggerPrice;
    if side == Short || runnerPct <= 100.0 {
      TrailFollows(side, reference, better, runnerPct);
    } else {
      WideTrailIsBelowZero(reference, runnerPct);
      WideTrailIsBelowZero(better, runnerPct);
      AnchorIsNotNegative(runner, trailPct);
    }
  }

  lemma {:induction false} WideTrailIsBelowZero(reference: real, trailPct: real)
    requires reference > 0.0 && trailPct > 100.0
    ensures TrailingTriggerPrice(Long, reference, trailPct) < 0.0
  {
  }

  lemma {:induction false} AnchorIsNotNegative(reference: real, trailPct: real)
    requires reference > 0.0 && trailPct <= 100.0
    ensures TrailingTriggerPrice(Long, reference, trailPct) >= 0.0
  {
  }

  lemma {:induction false} GainIsPositive(entry: real, bps: real)
    requires entry > 0.0 && bps > 0.0
    ensures GainPrice(Long, entry, bps) > entry && GainPrice(Short, entry, bps) < entry
  {
  }

  // ----- never loosens, and when exactly -----

  /** A better reference never loosens the trigger and never switches it off. */
  ghost predicate NeverLoosens(side: Side, entry: Option<real>, rule: ExitRule) {
    forall reference, better ::
      reference > 0.0 && better > 0.0 && Reached(side, better, reference) ==>
        NoLooser(side, TriggerAt(side, entry, rule, reference), TriggerAt(side, entry, rule, better))
  }

  function TriggerAt(side: Side, entry: Option<real>, rule: ExitRule, reference: real): Option<real> {
    TriggerOf(side, entry, rule.(referencePrice := Some(reference)))
  }

  lemma {:induction false} TriggerFollows(side: Side, entry: Option<real>, rule: ExitRule, reference: real, better: real)
    requires side != Flat && reference > 0.0 && better > 0.0 && Reached(side, better, reference)
    requires side == Long && Positive(rule.trailPct) && rule.trailPct.value > 100.0 ==> Guarded(rule)
    ensures NoLooser(side, TriggerAt(side, entry, rule, reference), TriggerAt(side, entry, rule, better))
  {
    hide TrailingTriggerPrice, GainPrice, ProtectedTrailPrice;
    if Positive(rule.trailPct) && Positive(entry) {
      var trailPct := rule.trailPct.value;
      if side == Long && trailPct > 100.0 {
        WideGuardHoldsFloor(rule, entry.value, reference, trailPct);
        WideGuardHoldsFloor(rule, entry.value, better, trailPct);
      } else {
        if Guarded(rule) {
          GainIsPositive(entry.value, rule.guardActivationBps.value);
        }
        TrailFollows(side, reference, better, trailPct);
        SameTrail(side, rule, entry.value, reference, trailPct);
        SameTrail(side, rule, entry.value, better, trailPct);
        ProtectedTrailFollows(side, rule, entry.value, reference, better, trailPct);
      }
    } else if Positive(rule.trailPct) && !Guarded(rule) {
      TrailFollows(side, reference, better, rule.trailPct.value);
    }
  }

  /** The protected price does not look at the reference stored in the rule. */
  lemma {:induction false} SameTrail(side: Side, rule: ExitRule, entry: real, reference: real, trailPct: real)
    ensures ProtectedTrailPrice(side, rule.(referencePrice := Some(reference)), entry, reference, trailPct)
         == ProtectedTrailPrice(side, rule, entry, reference, trailPct)
  {
  }

  /** A trail wider than the price leaves a guarded long at its profit floor. */
  lemma {:induction false} WideGuardHoldsFloor(rule: ExitRule, entry: real, reference: real, trailPct: real)
    requires entry > 0.0 && reference > 0.0 && trailPct > 100.0 && Guarded(rule)
    ensures ProtectedTriggerPrice(Long, Some(entry), rule.(referencePrice := Some(reference)), reference, trailPct)
         == if Reached(Long, reference, GainPrice(Long, entry, rule.guardActivationBps.value)) then Some(GainPrice(Long,
              entry, rule.guardFloorBps.value)) else None
  {
    hide TrailingTriggerPrice, GainPrice;
    GainIsPositive(entry, rule.guardFloorBps.value);
    WideTrailIsBelowZero(reference, trailPct);
    if HasRunner(rule, trailPct) {
      var runner := GainPrice(Long, entry, rule.runnerActivationBps.value);
      GainIsPositive(entry, rule.runnerActivationBps.value);
      WideTrailIsBelowZero(runner, trailPct);
      WideTrailIsBelowZero(reference, rule.runnerTrailPct.value);
    }
  }

  /** For a short the trigger never loosens; for a long exactly when the trail is within the price or a guard holds the floor. */
  lemma {:induction false} NeverLoosensExactly(side: Side, entry: Option<real>, rule: ExitRule)
    requires side != Flat && Positive(rule.trailPct)
    ensures NeverLoosens(side, entry, rule) <==> (side == Long ==> rule.trailPct.value <= 100.0 || Guarded(rule))
  {
    hide TriggerAt;
    if side == Long && rule.trailPct.value > 100.0 && !Guarded(rule) {
      WideTrailLoosens(entry, rule);
      assert Reached(Long, 2.0, 1.0);
    } else {
      forall reference, better | reference > 0.0 && better > 0.0 && Reached(side, better, reference)
        ensures NoLooser(side, TriggerAt(side, entry, rule, reference), TriggerAt(side, entry, rule, better))
      {
        TriggerFollows(side, entry, rule, reference, better);
      }
    }
  }

  lemma {:induction false} WideTrailLoosens(entry: Option<real>, rule: ExitRule)
    requires Positive(rule.trailPct) && rule.trailPct.value > 100.0 && !Guarded(rule)
    ensures !NoLooser(Long, TriggerAt(Long, entry, rule, 1.0), TriggerAt(Long, entry, rule, 2.0))
  {
  }

  /** An active guard keeps the trigger at the floor gain or better. */
  lemma {:induction false} GuardKeepsFloor(side: Side, entry: Option<real>, rule: ExitRule)
    requires Guarded(rule) && TriggerOf(side, entry, rule).Some?
    ensures Positive(entry) && side != Flat
    ensures var floor := GainPrice(side, entry.value, rule.guardFloorBps.value);
            if side == Long then TriggerOf(side, entry, rule).value >= floor > entry.value
            else TriggerOf(side, entry, rule).value <= floor < entry.value
  {
  }

  // ----- running extremes -----

  datatype Extremes = Extremes(highest: Option<real>, lowest: Option<real>, highestTime: int, lowestTime: int)

  /** A price joins the extremes; a tie keeps a time that is already known. */
  function Widen(x: Extremes, value: real, time: int): Extremes {
    var keepHigh := x.highest.Some? && x.highest.value >= value;
    var keepLow := x.lowest.Some? && x.lowest.value <= value;
    Extremes(
      Some(if keepHigh then x.highest.value else value), Some(if keepLow then x.lowest.value else value),
      if keepHigh && (x.highest.value > value || x.highestTime > 0) then x.highestTime else time,
      if keepLow && (x.lowest.value < value || x.lowestTime > 0) then x.lowestTime else time)
  }

  function Refreshed(side: Side, rule: ExitRule, x: Extremes): ExitRule {
    if rule.kind != TrailingStop then rule else rule.(referencePrice := if side == Short then x.lowest else x.highest)
  }

  datatype Position = Position(side: Side, size: real, entryPrice: Option<real>, extremes: Extremes, rules: array<ExitRule>)

  /** Widens the extremes and overwrites every trailing rule's reference in place; a price that does not parse changes nothing. */
  method RefreshPositionExtremesAt(p: Position, price: Option<real>, time: int) returns (q: Position)
    modifies p.rules
    ensures q == p.(extremes := q.extremes)
    ensures q.extremes == if price.None? then p.extremes else Widen(p.extremes, price.value, time)
    ensures forall i :: 0 <= i < p.rules.Length ==>
              p.rules[i] == if price.None? then old(p.rules[i]) else Refreshed(p.side, old(p.rules[i]), q.extremes)
  {
    if price.None? {
      return p;
    }
    var value := price.value;
    var highest, highestTime := value, time;
    var x := p.extremes;
    if x.highest.Some? && x.highest.value >= highest {
      highest := x.highest.value;
      if x.highest.value > value || x.highestTime > 0 {
        highestTime := x.highestTime;
      }
    }
    var lowest, lowestTime := value, time;
    if x.lowest.Some? && x.lowest.value <= lowest {
      lowest := x.lowest.value;
      if x.lowest.value < value || x.lowestTime > 0 {
        lowestTime := x.lowestTime;
      }
    }
    var next := Extremes(Some(highest), Some(lowest), highestTime, lowestTime);
    for index := 0 to p.rules.Length
      invariant forall i :: 0 <= i < index ==> p.rules[i] == Refreshed(p.side, old(p.rules[i]), next)
      invariant forall i :: index <= i < p.rules.Length ==> p.rules[i] == old(p.rules[i])
    {
      p.rules[index] := Refreshed(p.side, p.rules[index], next);
    }
    q := p.(extremes := next);
  }

  /** A bar is a refresh with its high and then one with its low. */
  method RefreshPositionBarExtremesAt(p: Position, high: Option<real>, low: Option<real>, time: int) returns (q: Position)
    modifies p.rules
    ensures q == p.(extremes := AfterAll(p.extremes, [high, low], [time, time]))
    ensures forall i :: 0 <= i < p.rules.Length ==>
              p.rules[i] == if high.None? && low.None? then old(p.rules[i]) else Refreshed(p.side, old(p.rules[i]), q.extremes)
  {
    var r := RefreshPositionExtremesAt(p, high, time);
    q := RefreshPositionExtremesAt(r, low, time);
    TwoPrices(p.extremes, high, low, time);
  }

  // ----- runs of refreshes -----

  function AfterAll(x: Extremes, prices: seq<Option<real>>, times: seq<int>): Extremes
    requires |prices| == |times|
  {
    if prices == [] then x
    else
      var n := |prices| - 1;
      var before := AfterAll(x, prices[..n], times[..n]);
      if prices[n].None? then before else Widen(before, prices[n].value, times[n])
  }

  lemma {:induction false} TwoPrices(x: Extremes, high: Option<real>, low: Option<real>, time: int)
    ensures var y := if high.None? then x else Widen(x, high.value, time);
            AfterAll(x, [high, low], [time, time]) == if low.None? then y else Widen(y, low.value, time)
  {
    hide Widen;
    assert [high, low][..1] == [high] && [time, time][..1] == [time];
    assert [high][..0] == [] && [time][..0] == [];
    assert AfterAll(x, [high], [time]) == if high.None? then x else Widen(x, high.value, time);
  }

  /** The extremes are those of the starting values and every price that parsed. */
  lemma {:induction false} ExtremesOfRun(x: Extremes, prices: seq<Option<real>>, times: seq<int>)
    requires |prices| == |times|
    ensures var y := AfterAll(x, prices, times);
            && (forall i :: 0 <= i < |prices| && prices[i].Some? ==>
              y.highest.Some? && y.lowest.Some? && y.lowest.value <= prices[i].value <= y.highest.value)
            && (x.highest.Some? ==> y.highest.Some? && x.highest.value <= y.highest.value)
            && (x.lowest.Some? ==> y.lowest.Some? && y.lowest.value <= x.lowest.value)
            && (y.highest.Some? ==> y.highest == x.highest || y.highest in prices)
            && (y.lowest.Some? ==> y.lowest == x.lowest || y.lowest in prices)
    decreases |prices|
  {
    if prices != [] {
      var n := |prices| - 1;
      ExtremesOfRun(x, prices[..n], times[..n]);
      forall i | 0 <= i < n && prices[i].Some? ensures prices[..n][i] == prices[i] {
      }
    }
  }

  /** A price that ties with an extreme leaves a known time and fills in an unknown one. */
  lemma {:induction false} TieKeepsKnownTime(x: Extremes, value: real, time: int)
    ensures x.highest == Some(value) ==> Widen(x, value, time).highestTime == if x.highestTime > 0 then x.highestTime else time
    ensures x.lowest == Some(value) ==> Widen(x, value, time).lowestTime == if x.lowestTime > 0 then x.lowestTime else time
  {
  }

  /** The first price of a run at the given extreme: everything parsed before it lies short of it. */
  ghost predicate FirstReached(prices: seq<Option<real>>, times: seq<int>, extreme: real, time: int, above: bool, i: nat)
    requires |prices| == |times|
  {
    && i < |prices| && prices[i] == Some(extreme) && times[i] == time
    && forall j :: 0 <= j < i && prices[j].Some? ==> if above then prices[j].value < extreme else prices[j].value > extreme
  }

  /** With times that are known, the time of an extreme is that of the first price of the run that reached it, or the old one while nothing went beyond. */
  lemma {:induction false} HighTimeOfRun(x: Extremes, prices: seq<Option<real>>, times: seq<int>)
    requires |prices| == |times| && (forall i :: 0 <= i < |times| ==> times[i] > 0) && (x.highest.Some? ==> x.highestTime > 0)
    ensures var y := AfterAll(x, prices, times);
            y.highest.Some? ==>
              && y.highestTime > 0
              && ((y.highest == x.highest && y.highestTime == x.highestTime)
                  || ((x.highest.None? || x.highest.value < y.highest.value)
                      && exists i :: FirstReached(prices, times, y.highest.value, y.highestTime, true, i)))
    decreases |prices|
  {
    if prices != [] {
      var n := |prices| - 1;
      var before, y := AfterAll(x, prices[..n], times[..n]), AfterAll(x, prices, times);
      HighTimeOfRun(x, prices[..n], times[..n]);
      ExtremesOfRun(x, prices[..n], times[..n]);
      if prices[n].Some? && (before.highest.None? || before.highest.value < prices[n].value) {
        forall j | 0 <= j < n && prices[j].Some? ensures prices[j].value < prices[n].value {
          assert prices[..n][j] == prices[j];
        }
        assert FirstReached(prices, times, y.highest.value, y.highestTime, true, n);
      } else if y.highest.Some? && !(y.highest == x.highest && y.highestTime == x.highestTime) {
        var i :| FirstReached(prices[..n], times[..n], before.highest.value, before.highestTime, true, i);
        FirstReachedLater(prices, times, before.highest.value, before.highestTime, true, i, n);
      }
    }
  }

  lemma {:induction false} FirstReachedLater(prices: seq<Option<real>>, times: seq<int>, extreme: real, time: int, above: bool, i: nat, n: nat)
    requires |prices| == |times| && n <= |prices| && FirstReached(prices[..n], times[..n], extreme, time, above, i)
    ensures FirstReached(prices, times, extreme, time, above, i)
  {
    forall j | 0 <= j < i && prices[j].Some? ensures if above then prices[j].value < extreme else prices[j].value > extreme {
      assert prices[..n][j] == prices[j];
    }
  }

  lemma {:induction false} LowTimeOfRun(x: Extremes, prices: seq<Option<real>>, times: seq<int>)
    requires |prices| == |times| && (forall i :: 0 <= i < |times| ==> times[i] > 0) && (x.lowest.Some? ==> x.lowestTime > 0)
    ensures var y := AfterAll(x, prices, times);
            y.lowest.Some? ==>
              && y.lowestTime > 0
              && ((y.lowest == x.lowest && y.lowestTime == x.lowestTime)
                  || ((x.lowest.None? || y.lowest.value < x.lowest.value)
                      && exists i :: FirstReached(prices, times, y.lowest.value, y.lowestTime, false, i)))
    decreases |prices|
  {
    if prices != [] {
      var n := |prices| - 1;
      var before, y := AfterAll(x, prices[..n], times[..n]), AfterAll(x, prices, times);
      LowTimeOfRun(x, prices[..n], times[..n]);
      ExtremesOfRun(x, prices[..n], times[..n]);
      if prices[n].Some? && (before.lowest.None? || before.lowest.value > prices[n].value) {
        forall j | 0 <= j < n && prices[j].Some? ensures prices[j].value > prices[n].value {
          assert prices[..n][j] == prices[j];
        }
        assert FirstReached(prices, times, y.lowest.value, y.lowestTime, false, n);
      } else if y.lowest.Some? && !(y.lowest == x.lowest && y.lowestTime == x.lowestTime) {
        var i :| FirstReached(prices[..n], times[..n], before.lowest.value, before.lowestTime, false, i);
        FirstReachedLater(prices, times, before.lowest.value, before.lowestTime, false, i, n);
      }
    }
  }

  lemma {:induction false} RunOfPrefix(x: Extremes, prices: seq<Option<real>>, times: seq<int>, k: nat)
    requires |prices| == |times| && k <= |prices|
    ensures AfterAll(x, prices, times) == AfterAll(AfterAll(x, prices[..k], times[..k]), prices[k..], times[k..])
    decreases |prices|
  {
    hide Widen;
    if k < |prices| {
      var n := |prices| - 1;
      RunOfPrefix(x, prices[..n], times[..n], k);
      assert prices[..n][..k] == prices[..k] && times[..n][..k] == times[..k];
      assert prices[..n][k..] == prices[k..][..n - k] && times[..n][k..] == times[k..][..n - k];
    } else {
      assert prices[..k] == prices && times[..k] == times;
    }
  }

  /**
   * Over any run of refreshes, once a trailing rule's trigger is active it stays active and
   * never loosens, exactly when no later price drives the reference of a short to zero or below.
   */
  lemma {:induction false} TriggerNeverLoosensOverRun(side: Side, entry: Option<real>, rule: ExitRule, x: Extremes,
        prices: seq<Option<real>>, times: seq<int>, k: nat)
    requires side != Flat && rule.kind == TrailingStop && |prices| == |times| && k <= |prices|
    requires side == Long && Positive(rule.trailPct) ==> rule.trailPct.value <= 100.0 || Guarded(rule)
    requires TriggerOf(side, entry, Refreshed(side, rule, AfterAll(x, prices[..k], times[..k]))).Some?
    ensures var early, late := AfterAll(x, prices[..k], times[..k]), AfterAll(x, prices, times);
            NoLooser(side, TriggerOf(side, entry, Refreshed(side, rule, early)), TriggerOf(side, entry, Refreshed(side, rule, late)))
            <==> (side == Short ==> StayPositive(prices[k..]))
  {
    hide ProtectedTriggerPrice, AfterAll, StayPositive;
    var early, late := AfterAll(x, prices[..k], times[..k]), AfterAll(x, prices, times);
    RunOfPrefix(x, prices, times, k);
    ExtremesOfRun(early, prices[k..], times[k..]);
    var a, b := if side == Short then early.lowest else early.highest, if side == Short then late.lowest else late.highest;
    assert Positive(a) && b.Some? && Reached(side, b.value, a.value);
    if side == Short {
      LowestIsPositive(early, prices[k..], late);
    }
    if Positive(b) {
      TriggerFollows(side, entry, rule, a.value, b.value);
      SameRule(rule, a);
      SameRule(rule, b);
    }
  }

  ghost predicate StayPositive(prices: seq<Option<real>>) {
    forall i :: 0 <= i < |prices| && prices[i].Some? ==> prices[i].value > 0.0
  }

  lemma {:induction false} LowestIsPositive(x: Extremes, prices: seq<Option<real>>, y: Extremes)
    requires Positive(x.lowest) && y.lowest.Some? && (y.lowest == x.lowest || y.lowest in prices)
    requires forall i :: 0 <= i < |prices| && prices[i].Some? ==> y.lowest.value <= prices[i].value
    ensures Positive(y.lowest) <==> StayPositive(prices)
  {
  }

  lemma {:induction false} SameRule(rule: ExitRule, reference: Option<real>)
    requires reference.Some?
    ensures rule.(referencePrice := Some(reference.value)) == rule.(referencePrice := reference)
  {
  }

  // ----- a bar against the rules -----

  predicate IsAdverse(kind: ExitType) {
    kind == StopLoss || kind == TrailingStop
  }

  predicate BarTouches(side: Side, kind: ExitType, high: real, low: real, trigger: real) {
    match side
    case Long => if IsAdverse(kind) then low <= trigger else kind == TakeProfit && high >= trigger
    case Short => if IsAdverse(kind) then high >= trigger else kind == TakeProfit && low <= trigger
    case Flat => false
  }

  /** The price a rule stands at: its own trigger price, or the trailing trigger of the references of the bars before. */
  function StandsAt(side: Side, entry: Option<real>, rule: ExitRule): Option<real> {
    if rule.kind == TrailingStop then TriggerOf(side, entry, rule)
    else if Positive(rule.triggerPrice) then rule.triggerPrice else None
  }

  predicate Fires(side: Side, entry: Option<real>, rule: ExitRule, high: real, low: real) {
    StandsAt(side, entry, rule).Some? && BarTouches(side, rule.kind, high, low, StandsAt(side, entry, rule).value)
  }

  /** Stops are filled at the open when the bar gaps through them; take profits never are. */
  function FillPrice(side: Side, kind: ExitType, trigger: real, open: Option<real>): real {
    if open.None? || !IsAdverse(kind) then trigger
    else if side == Long then Min(open.value, trigger)
    else if side == Short then Max(open.value, trigger)
    else trigger
  }

  /** A stop is filled no better than its trigger, and inside the bar when the open is. */
  lemma {:induction false} StopFillIsInsideBar(side: Side, kind: ExitType, trigger: real, open: real, high: real, low: real)
    requires IsAdverse(kind) && BarTouches(side, kind, high, low, trigger)
    ensures low <= open <= high ==> low <= FillPrice(side, kind, trigger, Some(open)) <= high
    ensures if side == Long then FillPrice(side, kind, trigger, Some(open)) <= trigger else FillPrice(side, kind, trigger, Some(open)) >= trigger
  {
  }

  datatype Plan = Plan(reduce: bool, exitSize: real, exitReason: ExitType, rule: ExitRule)

  function ExitSize(size: real, pct: real): real {
    size * (if pct <= 0.0 || pct > 1.0 then 1.0 else pct)
  }

  /** Rank of an exit type when several rules are touched in one bar; other types are never looked at. */
  function Priority(kind: ExitType): nat {
    match kind case StopLoss => 0 case TrailingStop => 1 case TakeProfit => 2 case OtherExit => 3
  }

  predicate Eligible(p: Position, rule: ExitRule, high: real, low: real) {
    Priority(rule.kind) < 3 && Fires(p.side, p.entryPrice, rule, high, low)
  }

  /** i is the rule a bar exits by: no eligible rule has a better type, or the same type and a lower index. */
  ghost predicate Chosen(p: Position, high: real, low: real, i: nat)
    reads p.rules
  {
    && i < p.rules.Length && Eligible(p, p.rules[i], high, low)
    && forall k :: 0 <= k < p.rules.Length && Eligible(p, p.rules[k], high, low) ==>
         Priority(p.rules[i].kind) < Priority(p.rules[k].kind) || (Priority(p.rules[i].kind) == Priority(p.rules[k].kind) && i <= k)
  }

  function PlanFor(p: Position, rule: ExitRule): Plan {
    var fired := if rule.kind == TrailingStop then rule.(triggerPrice := StandsAt(p.side, p.entryPrice, rule)) else rule;
    Plan(ExitSize(p.size, rule.sizePct) < p.size, ExitSize(p.size, rule.sizePct), rule.kind, fired)
  }

  /** The first touched rule in the conservative order stop loss, trailing stop, take profit; none when the bar is unusable or touches none. */
  method RiskExitBar(p: Position, open: Option<real>, high: Option<real>, low: Option<real>) returns (exit: Option<(Plan, real)>)
    ensures p.side == Flat || p.size <= 0.0 || !Positive(high) || !Positive(low) || high.value < low.value ==> exit.None?
    ensures exit.None? && p.side != Flat && p.size > 0.0 && Positive(high) && Positive(low) && high.value >= low.value ==>
              forall k :: 0 <= k < p.rules.Length ==> !Eligible(p, p.rules[k], high.value, low.value)
    ensures exit.Some? ==>
              && Positive(high) && Positive(low)
              && exists i: nat :: Chosen(p, high.value, low.value, i) && exit.value.0 == PlanFor(p, p.rules[i])
                   && exit.value.1 == FillPrice(p.side, p.rules[i].kind, StandsAt(p.side, p.entryPrice, p.rules[i]).value, open)
  {
    hide StandsAt, BarTouches, ExitSize;
    exit := None;
    if p.side == Flat || p.size <= 0.0 {
      return;
    }
    if high.None? || low.None? || high.value <= 0.0 || low.value <= 0.0 || high.value < low.value {
      return;
    }
    var order := [StopLoss, TrailingStop, TakeProfit];
    for rank := 0 to 3
      invariant forall k :: 0 <= k < p.rules.Length && Priority(p.rules[k].kind) < rank ==> !Eligible(p, p.rules[k], high.value, low.value)
    {
      for index := 0 to p.rules.Length
        invariant forall k :: 0 <= k < index && Priority(p.rules[k].kind) == rank ==> !Eligible(p, p.rules[k], high.value, low.value)
      {
        var rule := p.rules[index];
        if rule.kind == order[rank] && Fires(p.side, p.entryPrice, rule, high.value, low.value) {
          var trigger := StandsAt(p.side, p.entryPrice, rule).value;
          var fillPrice := trigger;
          if open.Some? && IsAdverse(rule.kind) {
            if p.side == Long && open.value < trigger {
              fillPrice := open.value;
            }
            if p.side == Short && open.value > trigger {
              fillPrice := open.value;
            }
          }
          assert Chosen(p, high.value, low.value, index);
          return Some((PlanFor(p, rule), fillPrice));
        }
      }
    }
  }

  // ----- what a rule does, in prices -----

  /** Where a trailing stop stands: the trail's percentage behind the reference. */
  lemma {:induction false} TrailIsBehind(side: Side, reference: real, trailPct: real)
    ensures side == Long ==> 100.0 * (reference - TrailingTriggerPrice(side, reference, trailPct)) == trailPct * reference
    ensures side != Long ==> 100.0 * (TrailingTriggerPrice(side, reference, trailPct) - reference) == trailPct * reference
  {
    assert reference * (trailPct / 100.0) * 100.0 == trailPct * reference;
  }

  /** The price of a gain, in the position's favour. */
  lemma {:induction false} GainIsAhead(side: Side, entry: real, bps: real)
    ensures side == Long ==> 10000.0 * (GainPrice(side, entry, bps) - entry) == bps * entry
    ensures side != Long ==> 10000.0 * (entry - GainPrice(side, entry, bps)) == bps * entry
  {
    assert entry * (bps / 10000.0) * 10000.0 == bps * entry;
  }

  /** The better of two protective prices. */
  ghost predicate BetterOf(side: Side, r: real, a: real, b: real) {
    && (r == a || r == b)
    && if side == Long then r >= a && r >= b else r <= a && r <= b
  }

  /**
   * Where an active trigger stands.  Without a guard it is the plain trail.  With one it needs
   * the reference to have reached the activation gain, and is the better of the floor and the
   * trail; past the runner's activation the trail is the better of the plain one anchored at
   * that gain and the runner's wider one.
   */
  lemma {:induction false} TriggerStands(side: Side, entry: Option<real>, rule: ExitRule, reference: real, trailPct: real)
    requires side != Flat
    ensures var t := ProtectedTriggerPrice(side, entry, rule, reference, trailPct);
            var plain := TrailingTriggerPrice(side, reference, trailPct);
            var guarded := rule.guardActivationBps.Some? && rule.guardActivationBps.value > 0.0 && rule.guardFloorBps.Some? && rule.guardFloorBps.value > 0.0;
            && (!guarded ==> t == Some(plain))
            && (guarded && (entry.None? || entry.value <= 0.0) ==> t == None)
            && (guarded && entry.Some? && entry.value > 0.0 ==>
                  var activation, floor := GainPrice(side, entry.value, rule.guardActivationBps.value), GainPrice(side, entry.value, rule.guardFloorBps.value);
                  var active := if side == Long then reference >= activation else reference <= activation;
                  && (t.Some? <==> active)
                  && (active ==> BetterOf(side, t.value, floor, ProtectedTrailPrice(side, rule, entry.value, reference, trailPct))))
  {
    hide TrailingTriggerPrice, GainPrice, ProtectedTrailPrice;
  }

  lemma {:induction false} TrailStands(side: Side, rule: ExitRule, entry: real, reference: real, trailPct: real)
    requires side != Flat
    ensures var t, plain := ProtectedTrailPrice(side, rule, entry, reference, trailPct), TrailingTriggerPrice(side, reference, trailPct);
            var runs := rule.adaptive && rule.runnerActivationBps.Some? && rule.runnerActivationBps.value > 0.0
                        && rule.runnerTrailPct.Some? && rule.runnerTrailPct.value > trailPct;
            && (!runs ==> t == plain)
            && (runs ==>
                  var runner := GainPrice(side, entry, rule.runnerActivationBps.value);
                  var passed := if side == Long then reference >= runner else reference <= runner;
                  if passed
                  then BetterOf(side, t, TrailingTriggerPrice(side, runner, trailPct), TrailingTriggerPrice(side, reference, rule.runnerTrailPct.value))
                  else t == plain)
  {
    hide TrailingTriggerPrice, GainPrice;
  }

  /** When a rule fires: a take profit when the bar reaches its price on the winning side, a stop on the losing side, anything else never. */
  lemma {:induction false} RuleFires(side: Side, entry: Option<real>, rule: ExitRule, high: real, low: real)
    ensures var fires, stands, t := Fires(side, entry, rule, high, low), StandsAt(side, entry, rule), rule.triggerPrice;
            && (side == Flat || rule.kind == OtherExit ==> !fires)
            && (rule.kind == TakeProfit && side == Long ==> (fires <==> t.Some? && t.value > 0.0 && high >= t.value))
            && (rule.kind == TakeProfit && side == Short ==> (fires <==> t.Some? && t.value > 0.0 && low <= t.value))
            && (rule.kind == StopLoss && side == Long ==> (fires <==> t.Some? && t.value > 0.0 && low <= t.value))
            && (rule.kind == StopLoss && side == Short ==> (fires <==> t.Some? && t.value > 0.0 && high >= t.value))
            && (rule.kind == TrailingStop && side == Long ==> (fires <==> stands.Some? && low <= stands.value))
            && (rule.kind == TrailingStop && side == Short ==> (fires <==> stands.Some? && high >= stands.value))
            && (rule.kind == TrailingStop ==> stands == TriggerOf(side, entry, rule)) && (rule.kind != TrailingStop && stands.Some? ==> stands == t)
  {
    hide TriggerOf;
  }

  /** What it is filled at: a take profit at its trigger, a stop at its trigger or at an open that lies beyond it. */
  lemma {:induction false} RuleFills(side: Side, kind: ExitType, trigger: real, open: Option<real>)
    requires side != Flat
    ensures var fill := FillPrice(side, kind, trigger, open);
            && (open.None? || (kind != StopLoss && kind != TrailingStop) ==> fill == trigger)
            && (open.Some? && (kind == StopLoss || kind == TrailingStop) ==>
                  fill == if side == Long && open.value < trigger then open.value else if side == Short && open.value > trigger then open.value else trigger)
  {
  }

  /** What it closes: its share of the position when that is a proper one, else all of it; a proper share only reduces. */
  lemma {:induction false} RuleCloses(p: Position, rule: ExitRule)
    requires p.size > 0.0
    ensures var plan, proper := PlanFor(p, rule), 0.0 < rule.sizePct <= 1.0;
            && plan.exitReason == rule.kind && plan.exitSize == (if proper then p.size * rule.sizePct else p.size)
            && (plan.reduce <==> 0.0 < rule.sizePct < 1.0)
            && plan.rule == (if rule.kind == TrailingStop then rule.(triggerPrice := StandsAt(p.side, p.entryPrice, rule)) else rule)
  {
    hide StandsAt;
    if 0.0 < rule.sizePct < 1.0 {
      assert p.size * (1.0 - rule.sizePct) > 0.0;
    }
  }

  /** Which rule a bar exits by: stop losses before trailing stops before take profits, and the first listed of a kind. */
  lemma {:induction false} ChosenIsConservative(p: Position, high: real, low: real, i: nat, k: nat)
    requires Chosen(p, high, low, i) && k < p.rules.Length && Fires(p.side, p.entryPrice, p.rules[k], high, low)
    ensures Fires(p.side, p.entryPrice, p.rules[i], high, low)
    ensures p.rules[i].kind == TakeProfit ==> p.rules[k].kind != StopLoss && p.rules[k].kind != TrailingStop
    ensures p.rules[i].kind == TrailingStop ==> p.rules[k].kind != StopLoss
    ensures p.rules[i].kind == p.rules[k].kind ==> i <= k
  {
    hide StandsAt;
    RuleFires(p.side, p.entryPrice, p.rules[k], high, low);
    RuleFires(p.side, p.entryPrice, p.rules[i], high, low);
  }
}
