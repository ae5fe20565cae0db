/**
 * One candidate from its signal to its last outcome: what the incremental state of every
 * stop is after any bars, and which outcomes have been written by then.
 */
module CandidateLife {
  import opened Excursion
  import opened FirstTouch
  import opened Numeric

  // ----- one stop, incrementally -----

  /** What a stop keeps while it lives, as a function of the bars since the signal. */
  function StateAfter(p: Plan, s: Signal, st: StopState, bars: seq<Bar>): StopState {
    st.(observedBars := |bars|, maxFavorableBps := BestFavorable(s, bars), maxAdverseBps := WorstAdverse(s, bars),
        hitTimes := HitTimes(p, s, bars), hitBars := HitBars(p, s, bars))
  }

  /** Counting a bar in, before looking at the stop. */
  function Counted(s: Signal, st: StopState, b: Bar): StopState {
    st.(observedBars := st.observedBars + 1,
        maxFavorableBps := Max(st.maxFavorableBps, Favorable(s.side, s.entryPrice, b.high, b.low)),
        maxAdverseBps := Max(st.maxAdverseBps, Adverse(s.side, s.entryPrice, b.high, b.low)))
  }

  /** The tiers a bar touches first are stamped with it. */
  function Stamped(p: Plan, s: Signal, st: StopState, b: Bar): StopState {
    st.(hitTimes := map t | t in st.hitTimes.Keys + NewHits(p, s, b) :: if t in st.hitTimes then st.hitTimes[t] else b.time,
        hitBars := map t | t in st.hitBars.Keys + NewHits(p, s, b) :: if t in st.hitBars then st.hitBars[t] else st.observedBars)
  }

  function NewHits(p: Plan, s: Signal, b: Bar): set<real> {
    set t | t in p.tiers && Touches(For(s, MarginPctToBps(t, p.leverage)), b)
  }

  function Struck(s: Signal, st: StopState, b: Bar): bool {
    Touches(Against(s, st.distanceBps), b)
  }

  lemma {:induction false} TierHitSnoc(p: Plan, s: Signal, t: real, bars: seq<Bar>, b: Bar)
    ensures Hit(p, s, t, bars) ==> Hit(p, s, t, bars + [b]) && TierHit(p, s, t, bars + [b]) == TierHit(p, s, t, bars)
    ensures !Hit(p, s, t, bars) ==> (Hit(p, s, t, bars + [b]) <==> Touches(For(s, MarginPctToBps(t, p.leverage)), b))
    ensures !Hit(p, s, t, bars) && Hit(p, s, t, bars + [b]) ==> TierHit(p, s, t, bars + [b]) == |bars|
  {
  }

  lemma {:induction false} HitsSnoc(p: Plan, s: Signal, bars: seq<Bar>, b: Bar)
    ensures HitTimes(p, s, bars + [b])
         == map t | t in HitTimes(p, s, bars).Keys + NewHits(p, s, b) :: if t in HitTimes(p, s, bars) then HitTimes(p, s, bars)[t] else b.time
    ensures HitBars(p, s, bars + [b])
         == map t | t in HitBars(p, s, bars).Keys + NewHits(p, s, b) :: if t in HitBars(p, s, bars) then HitBars(p, s, bars)[t] else |bars| + 1
  {
    hide Touches, Hit, TierHit;
    forall t | t in p.tiers
      ensures Hit(p, s, t, bars) ==> Hit(p, s, t, bars + [b]) && TierHit(p, s, t, bars + [b]) == TierHit(p, s, t, bars) < |bars|
      ensures !Hit(p, s, t, bars) ==> (Hit(p, s, t, bars + [b]) <==> t in NewHits(p, s, b))
      ensures !Hit(p, s, t, bars) && Hit(p, s, t, bars + [b]) ==> TierHit(p, s, t, bars + [b]) == |bars|
    {
      TierHitSnoc(p, s, t, bars, b);
      HitMeans(p, s, t, bars);
    }
  }

  lemma {:induction false} HitMeans(p: Plan, s: Signal, t: real, bars: seq<Bar>)
    ensures Hit(p, s, t, bars) <==> TierHit(p, s, t, bars) < |bars|
  {
  }

  lemma {:induction false} BestsSnoc(s: Signal, bars: seq<Bar>, b: Bar)
    ensures BestFavorable(s, bars + [b]) == Max(BestFavorable(s, bars), Favorable(s.side, s.entryPrice, b.high, b.low))
    ensures WorstAdverse(s, bars + [b]) == Max(WorstAdverse(s, bars), Adverse(s.side, s.entryPrice, b.high, b.low))
    ensures LastClose(s, bars + [b]) == b.close
  {
  }

  /** Counting a bar in and stamping its hits is the closed form of one more bar. */
  lemma {:induction false} StateSnoc(p: Plan, s: Signal, st: StopState, bars: seq<Bar>, b: Bar)
    ensures Stamped(p, s, Counted(s, StateAfter(p, s, st, bars), b), b) == StateAfter(p, s, st, bars + [b])
  {
    hide HitTimes, HitBars, NewHits, BestFavorable, WorstAdverse, Favorable, Adverse;
    HitsSnoc(p, s, bars, b);
    BestsSnoc(s, bars, b);
  }

  // ----- the rows a finished stop writes -----

  predicate IsHighest(keys: set<real>, h: real) {
    h >= 0.0 && (forall k :: k in keys ==> k <= h) && (h == 0.0 || h in keys)
  }

  function Highest(p: Plan, hitTimes: map<real, int>, n: nat): real
    requires n <= |p.tiers|
  {
    if n == 0 then 0.0
    else if p.tiers[n - 1] in hitTimes then Max(Highest(p, hitTimes, n - 1), p.tiers[n - 1])
    else Highest(p, hitTimes, n - 1)
  }

  function Row(p: Plan, s: Signal, lastClose: real, st: StopState, fallback: Result, at: int, tier: real): Outcome {
    var hit := tier in st.hitTimes && tier in st.hitBars;
    Outcome(s.id, st.kind, st.value, st.distanceBps, tier, MarginPctToBps(tier, p.leverage),
            if hit then TakeProfit else fallback, if hit then st.hitTimes[tier] else at, if hit then st.hitBars[tier] else st.observedBars,
            st.maxFavorableBps, st.maxAdverseBps, Highest(p, st.hitTimes, |p.tiers|), DirectionalReturn(s.side, s.entryPrice, lastClose))
  }

  function Rows(p: Plan, s: Signal, lastClose: real, st: StopState, fallback: Result, at: int, n: nat): seq<Outcome>
    requires n <= |p.tiers|
  {
    if n == 0 then [] else Rows(p, s, lastClose, st, fallback, at, n - 1) + [Row(p, s, lastClose, st, fallback, at, p.tiers[n - 1])]
  }

  lemma {:induction false} HighestIsHighestHit(p: Plan, s: Signal, bars: seq<Bar>, n: nat)
    requires n <= |p.tiers|
    ensures Highest(p, HitTimes(p, s, bars), n) == HighestHit(p, s, bars, n)
    decreases n
  {
    hide Hit, TierHit;
    if n > 0 {
      HighestIsHighestHit(p, s, bars, n - 1);
      HitMeans(p, s, p.tiers[n - 1], bars);
    }
  }

  /** A stop that ends with the hits of `winning` and the bars `seen` writes exactly the report. */
  lemma {:induction false} RowIsReport(p: Plan, s: Signal, st: StopState, ended: StopState, lastClose: real, seen: seq<Bar>,
        winning: seq<Bar>, fallback: Result, at: int, tier: real)
    requires tier in p.tiers && lastClose == LastClose(s, seen)
    requires ended == st.(observedBars := |seen|, maxFavorableBps := BestFavorable(s, seen), maxAdverseBps := WorstAdverse(s, seen),
                          hitTimes := HitTimes(p, s, winning), hitBars := HitBars(p, s, winning))
    ensures Row(p, s, lastClose, ended, fallback, at, tier) == Report(p, s, st, tier, seen, winning, fallback, at)
  {
    hide BestFavorable, WorstAdverse, DirectionalReturn, LastClose, TierHit, Highest, HighestHit;
    HighestIsHighestHit(p, s, winning, |p.tiers|);
  }

  // ----- when a stop ends -----

  lemma {:induction false} ExpiryTouches(expires: int, b: Bar)
    ensures Touches(Expiry(expires), b) <==> b.time > expires
  {
  }

  lemma {:induction false} NothingYet(t: Touch)
    ensures First(t, []) == 0
  {
  }

  lemma {:induction false} LivesSnoc(s: Signal, expires: int, d: real, bars: seq<Bar>, b: Bar)
    ensures StopLives(s, expires, d, bars + [b]) <==> StopLives(s, expires, d, bars) && b.time <= expires && !Touches(Against(s, d), b)
    ensures StopLives(s, expires, d, [])
    ensures First(Expiry(expires), bars + [b]) == |bars| + 1 ==> First(Expiry(expires), bars) == |bars| && b.time <= expires
  {
  }

  lemma {:induction false} LiveSeesAll(s: Signal, expires: int, d: real, bars: seq<Bar>)
    requires StopLives(s, expires, d, bars)
    ensures Seen(s, expires, d, bars) == bars && Winning(s, expires, d, bars) == bars && !StoppedOut(s, expires, d, bars)
  {
  }

  /** A live stop that is flushed at the end of the data. */
  lemma {:induction false} FlushedRow(p: Plan, s: Signal, expires: int, st: StopState, bars: seq<Bar>, tier: real)
    requires StopLives(s, expires, st.distanceBps, bars) && tier in p.tiers
    ensures Row(p, s, LastClose(s, bars), StateAfter(p, s, st, bars), Expired, expires, tier) == OutcomeOf(p, s, expires, st, tier, bars)
  {
    hide Seen, Winning, StoppedOut, StopLives, BestFavorable, WorstAdverse, HitTimes, HitBars, LastClose, Row, Report;
    LiveSeesAll(s, expires, st.distanceBps, bars);
    RowIsReport(p, s, st, StateAfter(p, s, st, bars), LastClose(s, bars), bars, bars, Expired, expires, tier);
  }

  lemma {:induction false} ExpirySeesBefore(s: Signal, expires: int, d: real, bars: seq<Bar>, b: Bar)
    requires StopLives(s, expires, d, bars) && b.time > expires
    ensures Seen(s, expires, d, bars + [b]) == bars && Winning(s, expires, d, bars + [b]) == bars && !StoppedOut(s, expires, d, bars + [b])
  {
  }

  /** A live stop whose candidate is past its expiry: the bar itself is not observed. */
  lemma {:induction false} ExpiredRow(p: Plan, s: Signal, expires: int, st: StopState, bars: seq<Bar>, b: Bar, tier: real)
    requires StopLives(s, expires, st.distanceBps, bars) && b.time > expires && tier in p.tiers
    ensures Row(p, s, LastClose(s, bars), StateAfter(p, s, st, bars), Expired, expires, tier) == OutcomeOf(p, s, expires, st, tier, bars + [b])
  {
    hide Seen, Winning, StoppedOut, StopLives, BestFavorable, WorstAdverse, HitTimes, HitBars, LastClose, Row, Report;
    ExpirySeesBefore(s, expires, st.distanceBps, bars, b);
    RowIsReport(p, s, st, StateAfter(p, s, st, bars), LastClose(s, bars), bars, bars, Expired, expires, tier);
  }

  lemma {:induction false} StopSeesLast(s: Signal, expires: int, d: real, bars: seq<Bar>, b: Bar)
    requires StopLives(s, expires, d, bars) && b.time <= expires && Touches(Against(s, d), b)
    ensures StoppedOut(s, expires, d, bars + [b]) && StopBar(s, d, bars + [b]) == |bars|
    ensures Seen(s, expires, d, bars + [b]) == bars + [b] && Winning(s, expires, d, bars + [b]) == bars
  {
  }

  /** A live stop that this bar touches: its hits are those of the bars before. */
  lemma {:induction false} StoppedRow(p: Plan, s: Signal, expires: int, st: StopState, bars: seq<Bar>, b: Bar, tier: real)
    requires StopLives(s, expires, st.distanceBps, bars) && b.time <= expires && Touches(Against(s, st.distanceBps), b) && tier in p.tiers
    ensures Row(p, s, b.close, Counted(s, StateAfter(p, s, st, bars), b), StopLoss, b.time, tier)
         == OutcomeOf(p, s, expires, st, tier, bars + [b])
  {
    hide Seen, Winning, StoppedOut, StopBar, StopLives, BestFavorable, WorstAdverse, HitTimes, HitBars, LastClose, Row,
         Report, Favorable, Adverse, Touches;
    StopSeesLast(s, expires, st.distanceBps, bars, b);
    BestsSnoc(s, bars, b);
    RowIsReport(p, s, st, Counted(s, StateAfter(p, s, st, bars), b), b.close, bars + [b], bars, StopLoss, b.time, tier);
  }

  lemma {:induction false} EndedStays(s: Signal, expires: int, d: real, bars: seq<Bar>, b: Bar)
    requires !StopLives(s, expires, d, bars)
    ensures !StopLives(s, expires, d, bars + [b])
    ensures StoppedOut(s, expires, d, bars + [b]) == StoppedOut(s, expires, d, bars)
    ensures Seen(s, expires, d, bars + [b]) == Seen(s, expires, d, bars) && Winning(s, expires, d, bars + [b]) == Winning(s, expires, d, bars)
    ensures StoppedOut(s, expires, d, bars) ==> StopBar(s, d, bars) < |bars| && StopBar(s, d, bars + [b]) == StopBar(s, d, bars)
                                                && (bars + [b])[StopBar(s, d, bars)] == bars[StopBar(s, d, bars)]
  {
    hide Touches, First;
    ExpiryTouches(expires, b);
    FirstSnoc(Expiry(expires), bars, b);
    FirstSnoc(Against(s, d), bars, b);
    var e, k := First(Expiry(expires), bars), StopBar(s, d, bars);
    if k < e {
      assert (bars + [b])[..k + 1] == bars[..k + 1] && (bars + [b])[..k] == bars[..k];
    } else {
      assert (bars + [b])[..e] == bars[..e];
    }
  }

  /** Later bars do not change the outcome of a stop that has ended. */
  lemma {:induction false} OutcomeIsFinal(p: Plan, s: Signal, expires: int, st: StopState, bars: seq<Bar>, b: Bar, tier: real)
    requires !StopLives(s, expires, st.distanceBps, bars)
    ensures OutcomeOf(p, s, expires, st, tier, bars + [b]) == OutcomeOf(p, s, expires, st, tier, bars)
  {
    hide Seen, Winning, StoppedOut, StopBar, StopLives, Report;
    EndedStays(s, expires, st.distanceBps, bars, b);
  }

  // ----- all the tiers of a stop -----

  lemma {:induction false} FlushedRows(p: Plan, s: Signal, expires: int, st: StopState, bars: seq<Bar>, n: nat)
    requires StopLives(s, expires, st.distanceBps, bars) && n <= |p.tiers|
    ensures Rows(p, s, LastClose(s, bars), StateAfter(p, s, st, bars), Expired, expires, n) == StopOutcomes(p, s, expires, st, bars, n)
    decreases n
  {
    hide StopLives, Row, StateAfter, OutcomeOf, LastClose;
    if n > 0 {
      FlushedRows(p, s, expires, st, bars, n - 1);
      FlushedRow(p, s, expires, st, bars, p.tiers[n - 1]);
    }
  }

  lemma {:induction false} ExpiredRows(p: Plan, s: Signal, expires: int, st: StopState, bars: seq<Bar>, b: Bar, n: nat)
    requires StopLives(s, expires, st.distanceBps, bars) && b.time > expires && n <= |p.tiers|
    ensures Rows(p, s, LastClose(s, bars), StateAfter(p, s, st, bars), Expired, expires, n) == StopOutcomes(p, s, expires, st, bars + [b], n)
    decreases n
  {
    hide StopLives, Row, StateAfter, OutcomeOf, LastClose;
    if n > 0 {
      ExpiredRows(p, s, expires, st, bars, b, n - 1);
      ExpiredRow(p, s, expires, st, bars, b, p.tiers[n - 1]);
    }
  }

  lemma {:induction false} StoppedRows(p: Plan, s: Signal, expires: int, st: StopState, bars: seq<Bar>, b: Bar, n: nat)
    requires StopLives(s, expires, st.distanceBps, bars) && b.time <= expires && Touches(Against(s, st.distanceBps), b) && n <= |p.tiers|
    ensures Rows(p, s, b.close, Counted(s, StateAfter(p, s, st, bars), b), StopLoss, b.time, n) == StopOutcomes(p, s, expires, st, bars + [b], n)
    decreases n
  {
    hide StopLives, Row, StateAfter, OutcomeOf, Touches, Counted;
    if n > 0 {
      StoppedRows(p, s, expires, st, bars, b, n - 1);
      StoppedRow(p, s, expires, st, bars, b, p.tiers[n - 1]);
    }
  }

  lemma {:induction false} FinalOutcomes(p: Plan, s: Signal, expires: int, st: StopState, bars: seq<Bar>, b: Bar, n: nat)
    requires !StopLives(s, expires, st.distanceBps, bars) && n <= |p.tiers|
    ensures StopOutcomes(p, s, expires, st, bars + [b], n) == StopOutcomes(p, s, expires, st, bars, n)
    decreases n
  {
    hide StopLives, OutcomeOf;
    if n > 0 {
      FinalOutcomes(p, s, expires, st, bars, b, n - 1);
      OutcomeIsFinal(p, s, expires, st, bars, b, p.tiers[n - 1]);
    }
  }
}
