/**
 * The brute-force meaning of a signal's outcomes: scan the bars after the signal for the
 * first expiry, the first touch of the stop and the first touch of each take-profit tier.
 */
module FirstTouch {
  import opened Excursion
  import opened Numeric

  datatype Bar = Bar(high: real, low: real, close: real, time: int)

  type Price = p: real | p > 0.0 witness 1.0

  datatype Signal = Signal(id: string, side: Side, time: int, entryPrice: Price, atr: real)

  datatype StopKind = FixedMargin | AtrMultiple

  datatype Result = TakeProfit | StopLoss | Expired

  datatype StopState = StopState(
    kind: StopKind, value: real, distanceBps: real, observedBars: nat,
    maxFavorableBps: real, maxAdverseBps: real, hitTimes: map<real, int>, hitBars: map<real, nat>)

  datatype Candidate = Candidate(signal: Signal, expires: int, lastClose: real, stops: seq<StopState>)

  datatype Outcome = Outcome(
    signalId: string, kind: StopKind, stopValue: real, stopDistanceBps: real, tier: real, tierBps: real,
    result: Result, exitTime: int, observedBars: nat, maxFavorableBps: real, maxAdverseBps: real,
    highestTier: real, expiryReturnBps: real)

  /** The tiers and the leverage that turns a margin percentage into basis points. */
  datatype Plan = Plan(tiers: seq<real>, leverage: Price)

  function MarginPctToBps(value: real, leverage: Price): real {
    value / leverage * 100.0
  }

  // ----- first touches -----

  datatype Touch = Expiry(expires: int) | Against(signal: Signal, distance: real) | For(signal: Signal, target: real)

  predicate Touches(t: Touch, b: Bar) {
    match t
    case Expiry(expires) => b.time > expires
    case Against(s, distance) => Adverse(s.side, s.entryPrice, b.high, b.low) >= distance
    case For(s, target) => Favorable(s.side, s.entryPrice, b.high, b.low) >= target
  }

  /** The index of the first bar that touches, or the number of bars. */
  function First(t: Touch, bars: seq<Bar>): (r: nat)
    ensures r <= |bars|
    ensures forall i :: 0 <= i < r ==> !Touches(t, bars[i])
    ensures r < |bars| ==> Touches(t, bars[r])
  {
    if bars == [] then 0
    else
      var r := First(t, bars[..|bars| - 1]);
      if r < |bars| - 1 then r
      else if Touches(t, bars[|bars| - 1]) then r else r + 1
  }

  lemma {:induction false} FirstSnoc(t: Touch, bars: seq<Bar>, b: Bar)
    ensures First(t, bars + [b]) == if First(t, bars) < |bars| then First(t, bars) else if Touches(t, b) then |bars| else |bars| + 1
    ensures First(t, bars) <= |bars|
  {
  }

  lemma {:induction false} FirstOfPrefix(t: Touch, bars: seq<Bar>, n: nat)
    requires n <= |bars|
    ensures First(t, bars[..n]) == if First(t, bars) < n then First(t, bars) else n
    decreases |bars|
  {
  }

  // ----- what a stop has seen -----

  function BestFavorable(s: Signal, bars: seq<Bar>): real {
    if bars == [] then 0.0
    else Max(BestFavorable(s, bars[..|bars| - 1]), Favorable(s.side, s.entryPrice, bars[|bars| - 1].high, bars[|bars| - 1].low))
  }

  function WorstAdverse(s: Signal, bars: seq<Bar>): real {
    if bars == [] then 0.0
    else Max(WorstAdverse(s, bars[..|bars| - 1]), Adverse(s.side, s.entryPrice, bars[|bars| - 1].high, bars[|bars| - 1].low))
  }

  function LastClose(s: Signal, bars: seq<Bar>): real {
    if bars == [] then s.entryPrice else bars[|bars| - 1].close
  }

  /** The bar that first touches a tier. */
  function TierHit(p: Plan, s: Signal, tier: real, bars: seq<Bar>): nat {
    First(For(s, MarginPctToBps(tier, p.leverage)), bars)
  }

  predicate Hit(p: Plan, s: Signal, tier: real, bars: seq<Bar>) {
    TierHit(p, s, tier, bars) < |bars|
  }

  function HitTimes(p: Plan, s: Signal, bars: seq<Bar>): map<real, int> {
    map t | t in p.tiers && Hit(p, s, t, bars) :: bars[TierHit(p, s, t, bars)].time
  }

  function HitBars(p: Plan, s: Signal, bars: seq<Bar>): map<real, nat> {
    map t | t in p.tiers && Hit(p, s, t, bars) :: TierHit(p, s, t, bars) + 1
  }

  /** The highest of the first n tiers that has been hit; zero when none has. */
  function HighestHit(p: Plan, s: Signal, bars: seq<Bar>, n: nat): real
    requires n <= |p.tiers|
  {
    if n == 0 then 0.0
    else if Hit(p, s, p.tiers[n - 1], bars) then Max(HighestHit(p, s, bars, n - 1), p.tiers[n - 1])
    else HighestHit(p, s, bars, n - 1)
  }

  // ----- the outcome of one stop and tier -----

  /** Up to and including which bar a stop observes, and whether it is stopped out there. */
  function StopBar(s: Signal, distance: real, bars: seq<Bar>): nat {
    First(Against(s, distance), bars)
  }

  predicate StoppedOut(s: Signal, expires: int, distance: real, bars: seq<Bar>) {
    StopBar(s, distance, bars) < First(Expiry(expires), bars)
  }

  predicate StopLives(s: Signal, expires: int, distance: real, bars: seq<Bar>) {
    StopBar(s, distance, bars) == |bars| && First(Expiry(expires), bars) == |bars|
  }

  /** The bars a stop observes: through the bar that stops it, or before the first bar past the expiry. */
  function Seen(s: Signal, expires: int, distance: real, bars: seq<Bar>): (r: seq<Bar>) {
    if StoppedOut(s, expires, distance, bars) then bars[..StopBar(s, distance, bars) + 1] else bars[..First(Expiry(expires), bars)]
  }

  /** The bars on which a tier can still be hit: within the stop bar the stop wins. */
  function Winning(s: Signal, expires: int, distance: real, bars: seq<Bar>): (r: seq<Bar>) {
    if StoppedOut(s, expires, distance, bars) then bars[..StopBar(s, distance, bars)] else bars[..First(Expiry(expires), bars)]
  }

  function Verdict(p: Plan, s: Signal, tier: real, winning: seq<Bar>, fallback: Result, at: int, observed: nat): (Result, int, nat) {
    var hit := TierHit(p, s, tier, winning);
    if hit < |winning| then (TakeProfit, winning[hit].time, hit + 1) else (fallback, at, observed)
  }

  function Report(p: Plan, s: Signal, st: StopState, tier: real, seen: seq<Bar>, winning: seq<Bar>, fallback: Result, at: int): Outcome {
    var (result, exitTime, observed) := Verdict(p, s, tier, winning, fallback, at, |seen|);
    Outcome(s.id, st.kind, st.value, st.distanceBps, tier, MarginPctToBps(tier, p.leverage), result, exitTime, observed,
            BestFavorable(s, seen), WorstAdverse(s, seen), HighestHit(p, s, winning, |p.tiers|),
            DirectionalReturn(s.side, s.entryPrice, LastClose(s, seen)))
  }

  /** The brute-force outcome of a stop and tier over all the bars after the signal. */
  function OutcomeOf(p: Plan, s: Signal, expires: int, st: StopState, tier: real, bars: seq<Bar>): Outcome {
    var d := st.distanceBps;
    var seen, winning := Seen(s, expires, d, bars), Winning(s, expires, d, bars);
    if StoppedOut(s, expires, d, bars) then Report(p, s, st, tier, seen, winning, StopLoss, bars[StopBar(s, d, bars)].time)
    else Report(p, s, st, tier, seen, winning, Expired, expires)
  }

  /** One outcome per tier, in tier order. */
  function StopOutcomes(p: Plan, s: Signal, expires: int, st: StopState, bars: seq<Bar>, n: nat): (r: seq<Outcome>)
    requires n <= |p.tiers|
    ensures |r| == n
  {
    if n == 0 then [] else StopOutcomes(p, s, expires, st, bars, n - 1) + [OutcomeOf(p, s, expires, st, p.tiers[n - 1], bars)]
  }

  /**
   * The outcome in words: take profit exactly when some bar touches the tier before any bar
   * touches the stop or passes the expiry; stop loss exactly when no bar does and some bar
   * touches the stop before any passes the expiry; the exit is the first such bar.
   */
  lemma {:induction false} OutcomeIsFirstTouch(p: Plan, s: Signal, expires: int, st: StopState, tier: real, bars: seq<Bar>)
    ensures var o, hit, against, late := OutcomeOf(p, s, expires, st, tier, bars), For(s, MarginPctToBps(tier, p.leverage)),
         Against(s, st.distanceBps), Expiry(expires);
            && (o.result == TakeProfit ==>
                  var k := o.observedBars - 1;
                  && 0 <= k < |bars| && o.exitTime == bars[k].time && Touches(hit, bars[k])
                  && forall i :: 0 <= i <= k ==> !Touches(against, bars[i]) && !Touches(late, bars[i]) && (i < k ==> !Touches(hit, bars[i])))
            && (o.result == StopLoss ==>
                  var k := o.observedBars - 1;
                  && 0 <= k < |bars| && o.exitTime == bars[k].time && Touches(against, bars[k])
                  && (forall i :: 0 <= i <= k ==> !Touches(late, bars[i]))
                  && forall i :: 0 <= i < k ==> !Touches(against, bars[i]) && !Touches(hit, bars[i]))
            && (o.result == Expired ==>
                  var k := o.observedBars;
                  && k <= |bars| && o.exitTime == expires && (k < |bars| ==> Touches(late, bars[k]))
                  && forall i :: 0 <= i < k ==> !Touches(late, bars[i]) && !Touches(against, bars[i]) && !Touches(hit, bars[i]))
  {
    hide Touches, BestFavorable, WorstAdverse, HighestHit, DirectionalReturn;
    var hit, against, late := For(s, MarginPctToBps(tier, p.leverage)), Against(s, st.distanceBps), Expiry(expires);
    var n := |Winning(s, expires, st.distanceBps, bars)|;
    assert Winning(s, expires, st.distanceBps, bars) == bars[..n];
    FirstOfPrefix(hit, bars, n);
    FirstFacts(hit, bars);
    FirstFacts(against, bars);
    FirstFacts(late, bars);
  }

  lemma {:induction false} FirstFacts(t: Touch, bars: seq<Bar>)
    ensures First(t, bars) <= |bars|
    ensures forall i :: 0 <= i < First(t, bars) ==> !Touches(t, bars[i])
    ensures First(t, bars) < |bars| ==> Touches(t, bars[First(t, bars)])
  {
  }

  // ----- the same in prices -----

  /** The bar trades at the tier's price or better for the position; a tier of zero or less is there from the start. */
  predicate Wins(side: Side, entry: real, leverage: Price, tier: real, b: Bar) {
    || tier <= 0.0
    || if side == Sell then b.low <= entry * (1.0 - tier / (100.0 * leverage)) else b.high >= entry * (1.0 + tier / (100.0 * leverage))
  }

  /** The bar trades at the stop's price or worse. */
  predicate Loses(side: Side, entry: real, distanceBps: real, b: Bar) {
    || distanceBps <= 0.0
    || if side == Sell then b.high >= entry * (1.0 + distanceBps / 10000.0) else b.low <= entry * (1.0 - distanceBps / 10000.0)
  }

  lemma {:induction false} TouchesInPrices(s: Signal, p: Plan, tier: real, distanceBps: real, b: Bar)
    ensures Touches(For(s, MarginPctToBps(tier, p.leverage)), b) <==> Wins(s.side, s.entryPrice, p.leverage, tier, b)
    ensures Touches(Against(s, distanceBps), b) <==> Loses(s.side, s.entryPrice, distanceBps, b)
  {
    hide Bps;
    var entry, target := s.entryPrice, tier / p.leverage * 100.0;
    TargetSign(tier, p.leverage);
    MarginAsFraction(tier, p.leverage);
    MoveReaches(entry, b.high, target);
    MoveReaches(entry, b.low, -target);
    MoveReaches(entry, b.high, distanceBps);
    MoveReaches(entry, b.low, -distanceBps);
    MoveBack(entry, b.low);
  }

  lemma {:induction false} TargetSign(tier: real, leverage: Price)
    ensures tier / leverage * 100.0 <= 0.0 <==> tier <= 0.0
  {
    var q := tier / leverage;
    assert q * leverage == tier;
    if q > 0.0 {
      assert q * leverage > 0.0;
    } else {
      assert -q * leverage >= 0.0;
    }
  }

  lemma {:induction false} MarginAsFraction(tier: real, leverage: Price)
    ensures tier / leverage * 100.0 / 10000.0 == tier / (100.0 * leverage)
  {
    var q, r := tier / leverage, tier / (100.0 * leverage);
    assert q * leverage == tier && r * (100.0 * leverage) == tier;
    assert r * (100.0 * leverage) == (100.0 * r) * leverage;
    assert (q - 100.0 * r) * leverage == 0.0;
  }

  /**
   * What a row says about the bars' prices.  Take profit: some bar traded at the tier's price
   * while the position was open, this is the first, and no bar up to it traded at the stop.
   * Stop loss: the first bar at the stop's price, with the tier not reached on any bar before.
   * Expired: neither was reached by the bars up to the expiry.
   */
  lemma {:induction false} OutcomeInPrices(p: Plan, s: Signal, expires: int, st: StopState, tier: real, bars: seq<Bar>)
    ensures var o, d := OutcomeOf(p, s, expires, st, tier, bars), st.distanceBps;
            && (o.result == TakeProfit ==>
                  var k := o.observedBars - 1;
                  && 0 <= k < |bars| && o.exitTime == bars[k].time && Wins(s.side, s.entryPrice, p.leverage, tier, bars[k])
                  && forall i :: 0 <= i <= k ==>
                       && bars[i].time <= expires && !Loses(s.side, s.entryPrice, d, bars[i])
                       && (i < k ==> !Wins(s.side, s.entryPrice, p.leverage, tier, bars[i])))
            && (o.result == StopLoss ==>
                  var k := o.observedBars - 1;
                  && 0 <= k < |bars| && o.exitTime == bars[k].time && Loses(s.side, s.entryPrice, d, bars[k])
                  && forall i :: 0 <= i <= k ==>
                       && bars[i].time <= expires
                       && (i < k ==> !Loses(s.side, s.entryPrice, d, bars[i]) && !Wins(s.side, s.entryPrice, p.leverage, tier, bars[i])))
            && (o.result == Expired ==>
                  var k := o.observedBars;
                  && k <= |bars| && o.exitTime == expires && (k < |bars| ==> bars[k].time > expires)
                  && forall i :: 0 <= i < k ==>
                       && bars[i].time <= expires
                       && !Loses(s.side, s.entryPrice, d, bars[i]) && !Wins(s.side, s.entryPrice, p.leverage, tier, bars[i]))
  {
    hide OutcomeOf, Touches, Wins, Loses;
    OutcomeIsFirstTouch(p, s, expires, st, tier, bars);
    forall b: Bar
      ensures Touches(For(s, MarginPctToBps(tier, p.leverage)), b) <==> Wins(s.side, s.entryPrice, p.leverage, tier, b)
      ensures Touches(Against(s, st.distanceBps), b) <==> Loses(s.side, s.entryPrice, st.distanceBps, b)
      ensures Touches(Expiry(expires), b) <==> b.time > expires
    {
      TouchesInPrices(s, p, tier, st.distanceBps, b);
      TouchesLate(expires, b);
    }
  }

  lemma {:induction false} TouchesLate(expires: int, b: Bar)
    ensures Touches(Expiry(expires), b) <==> b.time > expires
  {
  }

  /** No bar trades beyond a gain of `favorable` or a loss of `adverse`. */
  ghost predicate TradesWithin(side: Side, entry: real, bars: seq<Bar>, favorable: real, adverse: real) {
    forall i :: 0 <= i < |bars| ==>
      if side == Sell then bars[i].low >= PriceAt(side, entry, favorable) && bars[i].high <= PriceAt(side, entry, -adverse)
      else bars[i].high <= PriceAt(side, entry, favorable) && bars[i].low >= PriceAt(side, entry, -adverse)
  }

  /** Some bar trades at that gain. */
  ghost predicate GainTraded(side: Side, entry: real, bars: seq<Bar>, favorable: real) {
    exists i :: 0 <= i < |bars| && (if side == Sell then bars[i].low else bars[i].high) == PriceAt(side, entry, favorable)
  }

  ghost predicate LossTraded(side: Side, entry: real, bars: seq<Bar>, adverse: real) {
    exists i :: 0 <= i < |bars| && (if side == Sell then bars[i].high else bars[i].low) == PriceAt(side, entry, -adverse)
  }

  /** No bar trades beyond the two maxima, and each of them is zero or was traded. */
  ghost predicate MaximaOf(side: Side, entry: real, bars: seq<Bar>, favorable: real, adverse: real) {
    && favorable >= 0.0 && adverse >= 0.0 && TradesWithin(side, entry, bars, favorable, adverse)
    && (favorable == 0.0 || GainTraded(side, entry, bars, favorable)) && (adverse == 0.0 || LossTraded(side, entry, bars, adverse))
  }

  lemma {:induction false} BestsInPrices(s: Signal, bars: seq<Bar>)
    ensures MaximaOf(s.side, s.entryPrice, bars, BestFavorable(s, bars), WorstAdverse(s, bars))
    decreases |bars|
  {
    hide MaximaOf, Favorable, Adverse, PriceAt;
    if bars == [] {
      NoMaxima(s.side, s.entryPrice);
    } else {
      var rest, b := bars[..|bars| - 1], bars[|bars| - 1];
      BestsInPrices(s, rest);
      assert bars == rest + [b];
      MaximaSnoc(s.side, s.entryPrice, rest, b, BestFavorable(s, rest), WorstAdverse(s, rest));
    }
  }

  lemma {:induction false} NoMaxima(side: Side, entry: real)
    ensures MaximaOf(side, entry, [], 0.0, 0.0)
  {
  }

  lemma {:induction false} MaximaSnoc(side: Side, entry: real, bars: seq<Bar>, b: Bar, favorable: real, adverse: real)
    requires entry > 0.0 && MaximaOf(side, entry, bars, favorable, adverse)
    ensures MaximaOf(side, entry, bars + [b], Max(favorable, Favorable(side, entry, b.high, b.low)),
                     Max(adverse, Adverse(side, entry, b.high, b.low)))
  {
    hide PriceAt, Favorable, Adverse, TradesWithin, GainTraded, LossTraded;
    var f, a := Favorable(side, entry, b.high, b.low), Adverse(side, entry, b.high, b.low);
    NotNegative(side, entry, b.high, b.low);
    WithinSnoc(side, entry, bars, b, favorable, adverse, Max(favorable, f), Max(adverse, a));
    if f > favorable {
      GainSnoc(side, entry, bars, b, f);
    } else if favorable != 0.0 {
      StillTraded(side, entry, bars, b, favorable, adverse);
    }
    if a > adverse {
      LossSnoc(side, entry, bars, b, a);
    } else if adverse != 0.0 {
      StillTraded(side, entry, bars, b, favorable, adverse);
    }
  }

  lemma {:induction false} NotNegative(side: Side, entry: real, high: real, low: real)
    requires entry > 0.0
    ensures Favorable(side, entry, high, low) >= 0.0 && Adverse(side, entry, high, low) >= 0.0
  {
  }

  lemma {:induction false} WithinSnoc(side: Side, entry: real, bars: seq<Bar>, b: Bar, favorable: real, adverse: real, f: real, a: real)
    requires entry > 0.0 && TradesWithin(side, entry, bars, favorable, adverse) && favorable <= f && adverse <= a
    requires Favorable(side, entry, b.high, b.low) <= f && Adverse(side, entry, b.high, b.low) <= a
    ensures TradesWithin(side, entry, bars + [b], f, a)
  {
    hide PriceAt, Favorable, Adverse;
    PriceOrder(side, entry, favorable, f);
    PriceOrder(side, entry, -a, -adverse);
    ExcursionWithin(side, entry, b.high, b.low, f, a);
  }

  lemma {:induction false} GainSnoc(side: Side, entry: real, bars: seq<Bar>, b: Bar, f: real)
    requires entry > 0.0 && f == Favorable(side, entry, b.high, b.low) > 0.0
    ensures GainTraded(side, entry, bars + [b], f)
  {
    hide PriceAt, Favorable;
    FavorableIsTraded(side, entry, b.high, b.low, f);
    assert (bars + [b])[|bars|] == b;
  }

  lemma {:induction false} LossSnoc(side: Side, entry: real, bars: seq<Bar>, b: Bar, a: real)
    requires entry > 0.0 && a == Adverse(side, entry, b.high, b.low) > 0.0
    ensures LossTraded(side, entry, bars + [b], a)
  {
    hide PriceAt, Adverse;
    AdverseIsTraded(side, entry, b.high, b.low, a);
    assert (bars + [b])[|bars|] == b;
  }

  lemma {:induction false} StillTraded(side: Side, entry: real, bars: seq<Bar>, b: Bar, favorable: real, adverse: real)
    ensures GainTraded(side, entry, bars, favorable) ==> GainTraded(side, entry, bars + [b], favorable)
    ensures LossTraded(side, entry, bars, adverse) ==> LossTraded(side, entry, bars + [b], adverse)
  {
    hide PriceAt;
    if GainTraded(side, entry, bars, favorable) {
      var i :| 0 <= i < |bars| && (if side == Sell then bars[i].low else bars[i].high) == PriceAt(side, entry, favorable);
      assert (bars + [b])[i] == bars[i];
    }
    if LossTraded(side, entry, bars, adverse) {
      var i :| 0 <= i < |bars| && (if side == Sell then bars[i].high else bars[i].low) == PriceAt(side, entry, -adverse);
      assert (bars + [b])[i] == bars[i];
    }
  }

  /** The bars a stop observes end with the first at its price or before the first past the expiry. */
  ghost predicate Observes(s: Signal, expires: int, distanceBps: real, bars: seq<Bar>, n: nat) {
    && n <= |bars| && (forall i :: 0 <= i < n ==> bars[i].time <= expires)
    && (forall i :: 0 <= i < n - 1 ==> !Loses(s.side, s.entryPrice, distanceBps, bars[i]))
    && (n == |bars| || bars[n].time > expires || (n > 0 && Loses(s.side, s.entryPrice, distanceBps, bars[n - 1])))
  }

  /** The figures of a row: extremes over the bars observed, the last close of them, and the best tier reached in time. */
  lemma {:induction false} FiguresInPrices(p: Plan, s: Signal, expires: int, st: StopState, tier: real, bars: seq<Bar>) returns (n: nat)
    ensures Observes(s, expires, st.distanceBps, bars, n)
    ensures var o := OutcomeOf(p, s, expires, st, tier, bars);
            && MaximaOf(s.side, s.entryPrice, bars[..n], o.maxFavorableBps, o.maxAdverseBps)
            && PriceAt(s.side, s.entryPrice, o.expiryReturnBps) == (if n == 0 then s.entryPrice else bars[n - 1].close)
            && o.tier == tier && o.tierBps * p.leverage == tier * 100.0 && o.signalId == s.id
            && (o.kind, o.stopValue, o.stopDistanceBps) == (st.kind, st.value, st.distanceBps)
            && o.highestTier >= 0.0 && (o.highestTier == 0.0 || o.highestTier in p.tiers)
  {
    hide Touches, Loses, MaximaOf, BestFavorable, WorstAdverse, Wins, HighestHit, PriceAt, MarginPctToBps, Bps;
    var seen := Seen(s, expires, st.distanceBps, bars);
    n := |seen|;
    forall b: Bar
      ensures Touches(Against(s, st.distanceBps), b) <==> Loses(s.side, s.entryPrice, st.distanceBps, b)
      ensures Touches(Expiry(expires), b) <==> b.time > expires
    {
      TouchesInPrices(s, p, tier, st.distanceBps, b);
      TouchesLate(expires, b);
    }
    FirstFacts(Against(s, st.distanceBps), bars);
    FirstFacts(Expiry(expires), bars);
    assert seen == bars[..n];
    BestsInPrices(s, seen);
    ReturnInPrices(s.side, s.entryPrice, LastClose(s, seen));
    MarginTimesLeverage(tier, p.leverage);
    HighestIsTier(p, s, Winning(s, expires, st.distanceBps, bars), |p.tiers|);
  }

  lemma {:induction false} MarginTimesLeverage(tier: real, leverage: Price)
    ensures MarginPctToBps(tier, leverage) * leverage == tier * 100.0
  {
    assert tier / leverage * leverage == tier;
  }

  lemma {:induction false} HighestIsTier(p: Plan, s: Signal, bars: seq<Bar>, n: nat)
    requires n <= |p.tiers|
    ensures HighestHit(p, s, bars, n) >= 0.0 && (HighestHit(p, s, bars, n) == 0.0 || HighestHit(p, s, bars, n) in p.tiers)
    decreases n
  {
    hide Hit;
    if n > 0 {
      HighestIsTier(p, s, bars, n - 1);
    }
  }

  /** The reported best tier is the largest whose own row is a take profit. */
  lemma {:induction false} HighestTierIsBestWinner(p: Plan, s: Signal, expires: int, st: StopState, tier: real, bars: seq<Bar>)
    ensures var h := OutcomeOf(p, s, expires, st, tier, bars).highestTier;
            && (h == 0.0 || OutcomeOf(p, s, expires, st, h, bars).result == TakeProfit)
            && forall t :: t in p.tiers && OutcomeOf(p, s, expires, st, t, bars).result == TakeProfit ==> t <= h
  {
    hide First, BestFavorable, WorstAdverse, LastClose;
    HighestOfHits(p, s, Winning(s, expires, st.distanceBps, bars), |p.tiers|);
  }

  lemma {:induction false} HighestOfHits(p: Plan, s: Signal, bars: seq<Bar>, n: nat)
    requires n <= |p.tiers|
    ensures var h := HighestHit(p, s, bars, n);
            h >= 0.0 && (h == 0.0 || Hit(p, s, h, bars)) && forall i :: 0 <= i < n && Hit(p, s, p.tiers[i], bars) ==> p.tiers[i] <= h
    decreases n
  {
    hide Hit;
    if n > 0 {
      HighestOfHits(p, s, bars, n - 1);
    }
  }
}
