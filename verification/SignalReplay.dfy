/**
 * The signal replay: every accepted signal opens a candidate with one state per stop model,
 * every bar filters the active lists, and each stop writes one row per take-profit tier
 * when it ends.
 */
module SignalReplay {
  import opened Excursion
  import opened Numeric
  import opened FirstTouch
  import opened CandidateLife
  import opened ReplayRun

  datatype Config = Config(
    runId: string, leverage: real, horizonNs: int,
    fixedStopMargin: seq<real>, atrStopMultipliers: seq<real>, takeProfitMargin: seq<real>)

  /** A parsed bar: None where the text is not a number. */
  datatype Kline = Kline(high: Option<real>, low: Option<real>, close: Option<real>, closeTime: int)

  /** What a signal reads from its snapshot; `encodes` says whether the feature payload can be encoded. */
  datatype Snapshot = Snapshot(close: Option<real>, closeTime: int, indicatorAtr: Option<real>, windowAtr: Option<real>, encodes: bool)

  predicate Positive(price: Option<real>) {
    price.Some? && price.value > 0.0
  }

  predicate IsSpace(c: char) {
    var code := c as int;
    || 9 <= code <= 13 || code == 32 || code == 0x85 || code == 0xA0 || code == 0x1680 || 0x2000 <= code <= 0x200A
    || code == 0x2028 || code == 0x2029 || code == 0x202F || code == 0x205F || code == 0x3000
  }

  predicate Blank(s: string) {
    forall i :: 0 <= i < |s| ==> IsSpace(s[i])
  }

  ghost predicate Accepted(c: Config) {
    && !Blank(c.runId) && c.leverage > 0.0 && c.horizonNs > 0
    && (c.fixedStopMargin != [] || c.atrStopMultipliers != []) && c.takeProfitMargin != []
  }

  // ----- normalised lists -----

  ghost predicate StrictlyIncreasing(xs: seq<real>) {
    forall i, j :: 0 <= i < j < |xs| ==> xs[i] < xs[j]
  }

  /** The distinct positive inputs in increasing order: this determines the list. */
  ghost predicate NormalOf(xs: seq<real>, values: seq<real>) {
    StrictlyIncreasing(xs) && forall x :: x in xs <==> x in values && x > 0.0
  }

  /** Puts x into an increasing list that does not hold it. */
  method Insert(xs: seq<real>, x: real) returns (r: seq<real>)
    requires StrictlyIncreasing(xs) && x !in xs
    ensures StrictlyIncreasing(r) && forall y :: y in r <==> y in xs || y == x
  {
    var k := 0;
    while k < |xs| && xs[k] < x
      invariant k <= |xs| && forall i :: 0 <= i < k ==> xs[i] < x
    {
      k := k + 1;
    }
    r := xs[..k] + [x] + xs[k..];
    InsertedAt(xs, x, k);
  }

  lemma {:induction false} InsertedAt(xs: seq<real>, x: real, k: nat)
    requires StrictlyIncreasing(xs) && x !in xs && k <= |xs|
    requires (forall i :: 0 <= i < k ==> xs[i] < x) && (k < |xs| ==> xs[k] >= x)
    ensures StrictlyIncreasing(xs[..k] + [x] + xs[k..])
    ensures forall y :: y in xs[..k] + [x] + xs[k..] <==> y in xs || y == x
  {
  }

  /** Non-positive values and duplicates are dropped, the rest is sorted. */
  method NormalizedPositive(values: seq<real>) returns (result: seq<real>)
    ensures NormalOf(result, values)
  {
    result := [];
    var seen: set<real> := {};
    for i := 0 to |values|
      invariant NormalOf(result, values[..i])
      invariant forall x :: x in seen <==> x in result
    {
      var value := values[i];
      assert values[..i + 1] == values[..i] + [value];
      if value > 0.0 && value !in seen {
        seen := seen + {value};
        result := Insert(result, value);
      }
    }
    assert values[..|values|] == values;
  }

  // ----- the stops a signal opens with -----

  function FreshStop(kind: StopKind, value: real, distanceBps: real): StopState {
    StopState(kind, value, distanceBps, 0, 0.0, 0.0, map[], map[])
  }

  function FixedStops(values: seq<real>, leverage: Price): (r: seq<StopState>)
    ensures |r| == |values| && forall i :: 0 <= i < |r| ==> r[i] == FreshStop(FixedMargin, values[i], MarginPctToBps(values[i], leverage))
  {
    if values == [] then []
    else FixedStops(values[..|values| - 1], leverage)
         + [FreshStop(FixedMargin, values[|values| - 1], MarginPctToBps(values[|values| - 1], leverage))]
  }

  function AtrDistance(atrBps: real, multiplier: real): real {
    atrBps * multiplier
  }

  function AtrStops(values: seq<real>, atrBps: real): (r: seq<StopState>)
    ensures |r| == |values| && forall i :: 0 <= i < |r| ==> r[i] == FreshStop(AtrMultiple, values[i], AtrDistance(atrBps, values[i]))
  {
    if values == [] then []
    else AtrStops(values[..|values| - 1], atrBps) + [FreshStop(AtrMultiple, values[|values| - 1], AtrDistance(atrBps, values[|values| - 1]))]
  }

  lemma {:induction false} AtrStopsSnoc(values: seq<real>, i: nat, atrBps: real)
    requires i < |values|
    ensures AtrStops(values[..i + 1], atrBps) == AtrStops(values[..i], atrBps)
         + [FreshStop(AtrMultiple, values[i], AtrDistance(atrBps, values[i]))]
  {
  }

  lemma {:induction false} FixedStopsSnoc(values: seq<real>, i: nat, leverage: Price)
    requires i < |values|
    ensures FixedStops(values[..i + 1], leverage) == FixedStops(values[..i], leverage)
         + [FreshStop(FixedMargin, values[i], MarginPctToBps(values[i], leverage))]
  {
  }

  lemma {:induction false} NoOpeningStops(leverage: Price, atrBps: real)
    ensures FixedStops([], leverage) == [] && AtrStops([], atrBps) == []
  {
  }

  /** ATR stops need a positive ATR. */
  function OpeningStops(c: Config, s: Signal): seq<StopState>
    requires c.leverage > 0.0
  {
    FixedStops(c.fixedStopMargin, c.leverage) + if s.atr > 0.0 then AtrStops(c.atrStopMultipliers, s.atr / s.entryPrice * 10000.0) else []
  }

  /** A fixed stop lies its margin over the leverage away from the entry, an ATR stop its multiple of the ATR. */
  lemma {:induction false} StopDistances(c: Config, s: Signal)
    requires c.leverage > 0.0
    ensures var stops, fixed := OpeningStops(c, s), |c.fixedStopMargin|;
            && |stops| == fixed + (if s.atr > 0.0 then |c.atrStopMultipliers| else 0)
            && (forall i :: 0 <= i < fixed ==>
                  && stops[i].kind == FixedMargin && stops[i].value == c.fixedStopMargin[i]
                  && stops[i].distanceBps / 10000.0 * c.leverage == c.fixedStopMargin[i] / 100.0)
            && (forall i :: 0 <= i < |stops| - fixed ==>
                  && stops[fixed + i].kind == AtrMultiple && stops[fixed + i].value == c.atrStopMultipliers[i]
                  && stops[fixed + i].distanceBps / 10000.0 * s.entryPrice == s.atr * c.atrStopMultipliers[i])
  {
    hide MarginPctToBps, AtrDistance;
    forall i | 0 <= i < |c.fixedStopMargin|
      ensures MarginPctToBps(c.fixedStopMargin[i], c.leverage) / 10000.0 * c.leverage == c.fixedStopMargin[i] / 100.0
    {
      MarginDistance(c.fixedStopMargin[i], c.leverage);
    }
    forall i | 0 <= i < |c.atrStopMultipliers|
      ensures AtrDistance(s.atr / s.entryPrice * 10000.0, c.atrStopMultipliers[i]) / 10000.0 * s.entryPrice == s.atr * c.atrStopMultipliers[i]
    {
      MultipleDistance(s.atr, s.entryPrice, c.atrStopMultipliers[i]);
    }
  }

  lemma {:induction false} MarginDistance(margin: real, leverage: Price)
    ensures MarginPctToBps(margin, leverage) / 10000.0 * leverage == margin / 100.0
  {
    assert margin / leverage * leverage == margin;
  }

  lemma {:induction false} MultipleDistance(atr: real, entry: Price, multiplier: real)
    ensures AtrDistance(atr / entry * 10000.0, multiplier) / 10000.0 * entry == atr * multiplier
  {
    var q := atr / entry;
    assert q * entry == atr;
    assert q * 10000.0 * multiplier / 10000.0 == q * multiplier;
    assert q * multiplier * entry == (q * entry) * multiplier;
  }

  /** A candidate expires after the whole milliseconds of its horizon. */
  lemma {:induction false} ExpiresAfterHorizon(c: Config, s: Signal)
    requires c.leverage > 0.0 && c.horizonNs > 0
    ensures var ms := Born(c, s).expires - s.time; ms * 1000000 <= c.horizonNs < (ms + 1) * 1000000
    ensures Born(c, s).signal == s && Born(c, s).lastClose == s.entryPrice
  {
  }

  function HorizonMs(c: Config): int {
    c.horizonNs / 1000000
  }

  function Born(c: Config, s: Signal): Candidate
    requires c.leverage > 0.0
  {
    Candidate(s, s.time + HorizonMs(c), s.entryPrice, OpeningStops(c, s))
  }

  lemma {:induction false} OpeningStopsUntouched(c: Config, s: Signal)
    requires c.leverage > 0.0
    ensures forall i :: 0 <= i < |OpeningStops(c, s)| ==> Untouched(OpeningStops(c, s)[i])
    ensures OpeningStops(c, s) == [] <==> c.fixedStopMargin == [] && (s.atr <= 0.0 || c.atrStopMultipliers == [])
  {
  }

  // ----- hit tiers as map keys -----

  /** Both maps of a stop are keyed by tiers. */
  ghost predicate Keyed(p: Plan, st: StopState) {
    st.hitTimes.Keys == st.hitBars.Keys && forall t :: t in st.hitTimes ==> t in p.tiers
  }

  ghost predicate AllKeyed(p: Plan, stops: seq<StopState>) {
    forall i :: 0 <= i < |stops| ==> Keyed(p, stops[i])
  }

  lemma {:induction false} LiveStopsKeyed(p: Plan, h: History, n: nat)
    requires n <= |h.born.stops|
    ensures AllKeyed(p, LiveStops(p, h, n))
    decreases n
  {
    hide LivesIn;
    if n > 0 {
      LiveStopsKeyed(p, h, n - 1);
      assert HitTimes(p, h.born.signal, h.bars).Keys == HitBars(p, h.born.signal, h.bars).Keys;
    }
  }

  lemma {:induction false} LiveCandidatesKeyed(p: Plan, hs: seq<History>)
    ensures forall i :: 0 <= i < |LiveCandidates(p, hs)| ==> AllKeyed(p, LiveCandidates(p, hs)[i].stops)
    decreases |hs|
  {
    hide AllKeyed, LiveStops;
    if hs != [] {
      LiveCandidatesKeyed(p, hs[..|hs| - 1]);
      LiveStopsKeyed(p, hs[|hs| - 1], |hs[|hs| - 1].born.stops|);
    }
  }

  lemma {:induction false} HighestBounds(p: Plan, hitTimes: map<real, int>, n: nat)
    requires n <= |p.tiers|
    ensures Highest(p, hitTimes, n) >= 0.0 && (Highest(p, hitTimes, n) == 0.0 || Highest(p, hitTimes, n) in hitTimes)
    ensures forall i :: 0 <= i < n && p.tiers[i] in hitTimes ==> p.tiers[i] <= Highest(p, hitTimes, n)
    decreases n
  {
    if n > 0 {
      HighestBounds(p, hitTimes, n - 1);
    }
  }

  /** Whatever order the map is walked in, the highest key is the highest hit tier. */
  lemma {:induction false} HighestIsUnique(p: Plan, st: StopState, h: real)
    requires Keyed(p, st) && IsHighest(st.hitTimes.Keys, h)
    ensures Highest(p, st.hitTimes, |p.tiers|) == h
  {
    hide Highest;
    HighestBounds(p, st.hitTimes, |p.tiers|);
    var g := Highest(p, st.hitTimes, |p.tiers|);
    assert g <= h;
    if h != 0.0 {
      assert h in p.tiers;
    }
  }

  method HighestKey(hitTimes: map<real, int>) returns (highest: real)
    ensures IsHighest(hitTimes.Keys, highest)
  {
    var left := hitTimes.Items;
    highest := 0.0;
    while left != {}
      invariant left <= hitTimes.Items
      invariant highest >= 0.0 && (highest == 0.0 || highest in hitTimes)
      invariant forall k :: k in hitTimes ==> (k, hitTimes[k]) in left || k <= highest
      decreases |left|
    {
      var hit :| hit in left;
      highest := Max(highest, hit.0);
      left := left - {hit};
    }
  }

  /** A stop stamped with a bar, read off its two maps. */
  lemma {:induction false} StampedIs(p: Plan, s: Signal, st: StopState, b: Bar, hitTimes: map<real, int>, hitBars: map<real, nat>)
    requires Keyed(p, st) && hitBars.Keys == hitTimes.Keys
    requires forall t :: t in hitTimes <==>
               || t in st.hitTimes
               || (t in p.tiers && Favorable(s.side, s.entryPrice, b.high, b.low) >= MarginPctToBps(t, p.leverage))
    requires forall t :: t in hitTimes ==> hitTimes[t] == if t in st.hitTimes then st.hitTimes[t] else b.time
    requires forall t :: t in hitBars ==> hitBars[t] == if t in st.hitBars then st.hitBars[t] else st.observedBars
    ensures st.(hitTimes := hitTimes, hitBars := hitBars) == Stamped(p, s, st, b)
  {
    hide Favorable, MarginPctToBps;
    SameMap(hitTimes, Stamped(p, s, st, b).hitTimes);
    SameMap(hitBars, Stamped(p, s, st, b).hitBars);
  }

  lemma {:induction false} SameMap<V>(m: map<real, V>, n: map<real, V>)
    requires forall t :: t in m <==> t in n
    requires forall t :: t in m ==> m[t] == n[t]
    ensures m == n
  {
    var a, b := map t | t in m :: m[t], map t | t in n :: n[t];
    assert m == a && n == b;
    assert forall t :: t in a <==> t in b;
    assert forall t :: t in a ==> a[t] == b[t];
    assert a.Keys == b.Keys;
  }

  // ----- the replay -----

  class Replay {
    const config: Config
    var active: seq<Candidate>
    var signals: seq<Signal>
    var outcomes: seq<Outcome>
    ghost var histories: seq<History>

    ghost predicate ConfigOk() {
      config.leverage > 0.0 && config.horizonNs > 0
    }

    function Tiers(): Plan
      requires config.leverage > 0.0
    {
      Plan(config.takeProfitMargin, config.leverage)
    }

    /** The active list and the written rows are the closed form of every signal's history. */
    ghost predicate Valid()
      reads this
    {
      && ConfigOk()
      && active == LiveCandidates(Tiers(), histories)
      && multiset(outcomes) == EndedIn(Tiers(), histories)
      && |signals| == |histories| && forall i :: 0 <= i < |signals| ==> histories[i].born == Born(config, signals[i])
    }

    constructor (config: Config)
      requires config.leverage > 0.0 && config.horizonNs > 0
      ensures Valid() && this.config == config && signals == [] && outcomes == [] && histories == []
    {
      this.config := config;
      active, signals, outcomes, histories := [], [], [], [];
    }

    static method New(config: Config) returns (r: Option<Replay>)
      ensures r.Some? <==> Accepted(config)
      ensures r.Some? ==>
                && fresh(r.value) && r.value.Valid() && r.value.histories == []
                && NormalOf(r.value.config.fixedStopMargin, config.fixedStopMargin)
                && NormalOf(r.value.config.atrStopMultipliers, config.atrStopMultipliers)
                && NormalOf(r.value.config.takeProfitMargin, config.takeProfitMargin)
                && r.value.config.leverage == config.leverage && r.value.config.horizonNs == config.horizonNs
    {
      if Blank(config.runId) || config.leverage <= 0.0 || config.horizonNs <= 0 {
        return None;
      }
      if |config.fixedStopMargin| == 0 && |config.atrStopMultipliers| == 0 {
        return None;
      }
      if |config.takeProfitMargin| == 0 {
        return None;
      }
      var fixed := NormalizedPositive(config.fixedStopMargin);
      var multipliers := NormalizedPositive(config.atrStopMultipliers);
      var tiers := NormalizedPositive(config.takeProfitMargin);
      var replay := new Replay(config.(fixedStopMargin := fixed, atrStopMultipliers := multipliers, takeProfitMargin := tiers));
      r := Some(replay);
    }

    /** A signal is accepted unless its price, its payload or its stops are unusable; a refusal changes nothing. */
    method AddSignal(id: string, snapshot: Snapshot, side: Side) returns (failed: bool)
      requires Valid()
      modifies this
      ensures Valid()
      ensures failed <==> snapshot.close.None? || snapshot.close.value <= 0.0 || !snapshot.encodes
                          || OpeningStops(config, Signal(id, side, snapshot.closeTime, snapshot.close.value, AtrOf(snapshot))) == []
      ensures failed ==> unchanged(this)
      ensures !failed ==>
                var signal := Signal(id, side, snapshot.closeTime, snapshot.close.value, AtrOf(snapshot));
                && signals == old(signals) + [signal] && histories == old(histories) + [History(Born(config, signal), [])]
                && outcomes == old(outcomes)
    {
      hide LiveCandidates, EndedIn, OpeningStops, HorizonMs;
      if !Positive(snapshot.close) {
        return true;
      }
      var atr := if snapshot.indicatorAtr.Some? then snapshot.indicatorAtr.value else 0.0;
      if atr <= 0.0 && snapshot.windowAtr.Some? {
        atr := snapshot.windowAtr.value;
      }
      if !snapshot.encodes {
        return true;
      }
      var signal := Signal(id, side, snapshot.closeTime, snapshot.close.value, atr);
      var stops := OpenStops(signal);
      if |stops| == 0 {
        return true;
      }
      failed := false;
      OpeningStopsUntouched(config, signal);
      ListAdd(Tiers(), histories, Born(config, signal));
      signals, active, histories := signals + [signal], active + [Candidate(signal, signal.time + HorizonMs(config), signal.entryPrice, stops)],
      histories + [History(Born(config, signal), [])];
    }

    method OpenStops(signal: Signal) returns (stops: seq<StopState>)
      requires config.leverage > 0.0
      ensures stops == OpeningStops(config, signal)
    {
      hide MarginPctToBps, FreshStop, FixedStops, AtrStops;
      NoOpeningStops(config.leverage, signal.atr / signal.entryPrice * 10000.0);
      stops := [];
      for i := 0 to |config.fixedStopMargin|
        invariant stops == FixedStops(config.fixedStopMargin[..i], config.leverage)
      {
        var value := config.fixedStopMargin[i];
        FixedStopsSnoc(config.fixedStopMargin, i, config.leverage);
        stops := stops + [FreshStop(FixedMargin, value, MarginPctToBps(value, config.leverage))];
      }
      assert config.fixedStopMargin[..|config.fixedStopMargin|] == config.fixedStopMargin;
      if signal.atr > 0.0 {
        var atrBps := signal.atr / signal.entryPrice * 10000.0;
        var fixed := stops;
        for i := 0 to |config.atrStopMultipliers|
          invariant stops == fixed + AtrStops(config.atrStopMultipliers[..i], atrBps)
        {
          var value := config.atrStopMultipliers[i];
          var stop := FreshStop(AtrMultiple, value, AtrDistance(atrBps, value));
          AtrStopsSnoc(config.atrStopMultipliers, i, atrBps);
          assert fixed + (AtrStops(config.atrStopMultipliers[..i], atrBps) + [stop]) == stops + [stop];
          stops := stops + [stop];
        }
        assert config.atrStopMultipliers[..|config.atrStopMultipliers|] == config.atrStopMultipliers;
      }
    }

    /** One bar: a bar that does not parse changes nothing, any other extends every history by it. */
    method Advance(kline: Kline) returns (failed: bool)
      requires Valid()
      modifies this
      ensures Valid()
      ensures failed <==> !Positive(kline.high) || !Positive(kline.low) || !Positive(kline.close)
      ensures failed ==> unchanged(this)
      ensures !failed ==>
                var bar := Bar(kline.high.value, kline.low.value, kline.close.value, kline.closeTime);
                && histories == LaterAll(old(histories), bar) && signals == old(signals)
                && outcomes == old(outcomes) + WrittenBy(Tiers(), old(active), bar)
    {
      hide LiveCandidates, EndedIn, Born, StepAll, WrittenBy, AllKeyed;
      if !Positive(kline.high) || !Positive(kline.low) || !Positive(kline.close) {
        return true;
      }
      failed := false;
      var bar := Bar(kline.high.value, kline.low.value, kline.close.value, kline.closeTime);
      ListStep(Tiers(), histories, bar);
      LiveCandidatesKeyed(Tiers(), histories);
      Sweep(bar);
      histories := LaterAll(histories, bar);
    }

    /**
     * The loop over the active list.  What stays is written back into the list being read,
     * at an index that never passes the reading one, and the rest is cut off at the end.
     */
    method Sweep(bar: Bar)
      requires config.leverage > 0.0 && forall i :: 0 <= i < |active| ==> AllKeyed(Tiers(), active[i].stops)
      modifies `active, `outcomes
      ensures active == StepAll(Tiers(), old(active), bar) && outcomes == old(outcomes) + WrittenBy(Tiers(), old(active), bar)
    {
      hide StepStops, StruckRows, FlushRows, StepAll, WrittenBy, AllKeyed;
      NoCandidates(Tiers(), bar);
      ghost var items := active;
      var kept := 0;
      for i := 0 to |active|
        invariant kept <= i && |active| == |items|
        invariant active[..kept] == StepAll(Tiers(), items[..i], bar)
        invariant forall j :: i <= j < |items| ==> active[j] == items[j]
        invariant outcomes == old(outcomes) + WrittenBy(Tiers(), items[..i], bar)
      {
        var item := active[i];
        assert items[..i + 1] == items[..i] + [item];
        AllSnoc(Tiers(), items[..i], item, bar);
        if bar.time > item.expires {
          FinalizeCandidate(item, item.expires);
        } else {
          var liveStops := AdvanceStops(item, bar);
          if |liveStops| > 0 {
            PrefixGrows(active, kept, item.(lastClose := bar.close, stops := liveStops));
            active := active[kept := item.(lastClose := bar.close, stops := liveStops)];
            kept := kept + 1;
          }
        }
      }
      assert items[..|items|] == items;
      active := active[..kept];
    }

    /** The same filtering of one candidate's stops, within the list it reads. */
    method AdvanceStops(item: Candidate, bar: Bar) returns (live: seq<StopState>)
      requires config.leverage > 0.0 && AllKeyed(Tiers(), item.stops)
      modifies `outcomes
      ensures live == StepStops(Tiers(), item.signal, item.stops, bar)
      ensures outcomes == old(outcomes) + StruckRows(Tiers(), item.signal, item.stops, bar)
    {
      hide Favorable, Adverse, Rows, StepStops, StruckRows, Stamped;
      var stops, kept := item.stops, 0;
      var signal := item.signal;
      NoStops(Tiers(), signal, bar);
      for i := 0 to |stops|
        invariant kept <= i && |stops| == |item.stops|
        invariant stops[..kept] == StepStops(Tiers(), signal, item.stops[..i], bar)
        invariant stops[i..] == item.stops[i..]
        invariant outcomes == old(outcomes) + StruckRows(Tiers(), signal, item.stops[..i], bar)
      {
        assert stops[i] == stops[i..][0] == item.stops[i..][0] == item.stops[i];
        assert item.stops[..i + 1] == item.stops[..i] + [item.stops[i]];
        StopsSnoc(Tiers(), signal, item.stops[..i], item.stops[i], bar);
        var favorable := Favorable(signal.side, signal.entryPrice, bar.high, bar.low);
        var adverse := Adverse(signal.side, signal.entryPrice, bar.high, bar.low);
        var state := stops[i];
        state := state.(observedBars := state.observedBars + 1, maxFavorableBps := Max(state.maxFavorableBps, favorable),
                        maxAdverseBps := Max(state.maxAdverseBps, adverse));
        if adverse >= state.distanceBps {
          FinalizeStop(signal, bar.close, state, StopLoss, bar.time);
        } else {
          state := MarkHits(signal, state, bar, favorable);
          ghost var before := stops;
          stops := stops[kept := state];
          kept := kept + 1;
          assert stops[..kept] == before[..kept - 1] + [state];
          assert stops[i + 1..] == before[i + 1..] == before[i..][1..];
        }
        assert stops[i + 1..] == item.stops[i + 1..];
      }
      assert item.stops[..|item.stops|] == item.stops;
      live := stops[..kept];
    }

    method MarkHits(signal: Signal, state: StopState, bar: Bar, favorable: real) returns (marked: StopState)
      requires config.leverage > 0.0 && Keyed(Tiers(), state)
      requires favorable == Favorable(signal.side, signal.entryPrice, bar.high, bar.low)
      ensures marked == Stamped(Tiers(), signal, state, bar)
    {
      hide Favorable, MarginPctToBps, Stamped;
      var hitTimes, hitBars := state.hitTimes, state.hitBars;
      var tiers := config.takeProfitMargin;
      for i := 0 to |tiers|
        invariant forall t :: t in hitTimes <==> t in state.hitTimes || (t in tiers[..i] && favorable >= MarginPctToBps(t, config.leverage))
        invariant hitBars.Keys == hitTimes.Keys
        invariant forall t :: t in hitTimes ==> hitTimes[t] == if t in state.hitTimes then state.hitTimes[t] else bar.time
        invariant forall t :: t in hitBars ==> hitBars[t] == if t in state.hitBars then state.hitBars[t] else state.observedBars
      {
        assert tiers[..i + 1] == tiers[..i] + [tiers[i]];
        if tiers[i] !in hitTimes && favorable >= MarginPctToBps(tiers[i], config.leverage) {
          hitTimes := hitTimes[tiers[i] := bar.time];
          hitBars := hitBars[tiers[i] := state.observedBars];
        }
      }
      assert tiers[..|tiers|] == tiers;
      StampedIs(Tiers(), signal, state, bar, hitTimes, hitBars);
      marked := state.(hitTimes := hitTimes, hitBars := hitBars);
    }

    /** One row per tier. */
    method FinalizeStop(signal: Signal, lastClose: real, state: StopState, fallback: Result, at: int)
      requires config.leverage > 0.0 && Keyed(Tiers(), state)
      modifies `outcomes
      ensures outcomes == old(outcomes) + Rows(Tiers(), signal, lastClose, state, fallback, at, |config.takeProfitMargin|)
    {
      hide Highest, MarginPctToBps, DirectionalReturn;
      var highest := HighestKey(state.hitTimes);
      HighestIsUnique(Tiers(), state, highest);
      var expiryReturn := DirectionalReturn(signal.side, signal.entryPrice, lastClose);
      var written := outcomes;
      for i := 0 to |config.takeProfitMargin|
        invariant written == outcomes + Rows(Tiers(), signal, lastClose, state, fallback, at, i)
        invariant unchanged(`outcomes)
      {
        var tier := config.takeProfitMargin[i];
        var result, exitTime, observedBars := fallback, at, state.observedBars;
        if tier in state.hitTimes {
          result, exitTime, observedBars := TakeProfit, state.hitTimes[tier], state.hitBars[tier];
        }
        written := written + [Outcome(signal.id, state.kind, state.value, state.distanceBps, tier, MarginPctToBps(tier, config.leverage),
                                      result, exitTime, observedBars, state.maxFavorableBps, state.maxAdverseBps, highest, expiryReturn)];
      }
      outcomes := written;
    }

    method FinalizeCandidate(item: Candidate, at: int)
      requires config.leverage > 0.0 && AllKeyed(Tiers(), item.stops)
      modifies `outcomes
      ensures outcomes == old(outcomes) + FlushRows(Tiers(), item.signal, item.lastClose, item.stops, at)
    {
      hide Rows, Keyed;
      for i := 0 to |item.stops|
        invariant outcomes == old(outcomes) + FlushRows(Tiers(), item.signal, item.lastClose, item.stops[..i], at)
      {
        assert item.stops[..i + 1] == item.stops[..i] + [item.stops[i]];
        FlushSnoc(Tiers(), item.signal, item.lastClose, item.stops[..i], item.stops[i], at);
        FinalizeStop(item.signal, item.lastClose, item.stops[i], Expired, at);
      }
      assert item.stops[..|item.stops|] == item.stops;
    }

    /**
     * The end of the data: the rows written over the whole run are exactly one brute-force
     * outcome per signal, stop and tier.
     */
    method Finish()
      requires Valid()
      modifies this
      ensures active == [] && signals == old(signals) && histories == old(histories)
      ensures outcomes == old(outcomes) + FlushAll(Tiers(), old(active))
      ensures multiset(outcomes) == AllIn(Tiers(), histories)
    {
      hide LiveCandidates, EndedIn, AllIn, FlushRows, FlushAll, AllKeyed;
      ListFinish(Tiers(), histories);
      LiveCandidatesKeyed(Tiers(), histories);
      NoFlush(Tiers());
      var items := active;
      for i := 0 to |items|
        invariant outcomes == old(outcomes) + FlushAll(Tiers(), items[..i])
        invariant unchanged(`active) && unchanged(`signals) && unchanged(`histories)
      {
        assert items[..i + 1] == items[..i] + [items[i]];
        FlushAllSnoc(Tiers(), items[..i], items[i]);
        FinalizeCandidate(items[i], items[i].expires);
      }
      assert items[..|items|] == items;
      active := [];
    }

    method Results() returns (addedSignals: seq<Signal>, written: seq<Outcome>)
      ensures addedSignals == signals && written == outcomes
    {
      return signals, outcomes;
    }
  }

  lemma {:induction false} PrefixGrows<T>(a: seq<T>, k: nat, x: T)
    requires k < |a|
    ensures a[k := x][..k + 1] == a[..k] + [x]
  {
  }

  function AtrOf(snapshot: Snapshot): real {
    var atr := if snapshot.indicatorAtr.Some? then snapshot.indicatorAtr.value else 0.0;
    if atr <= 0.0 && snapshot.windowAtr.Some? then snapshot.windowAtr.value else atr
  }

  /** The indicator's ATR counts when it is positive, otherwise the window's where there is one. */
  lemma {:induction false} AtrSays(snapshot: Snapshot)
    ensures var here, window := snapshot.indicatorAtr, snapshot.windowAtr;
            && (here.Some? && here.value > 0.0 ==> AtrOf(snapshot) == here.value)
            && (here.None? || here.value <= 0.0 ==> AtrOf(snapshot) == if window.Some? then window.value else if here.Some? then here.value else 0.0)
  {
  }

  /** Tabs, line ends and blanks are space, printable ASCII characters are not. */
  lemma {:induction false} PlainSpace(c: char)
    ensures c in "\t\n\r " ==> IsSpace(c)
    ensures '!' <= c <= '~' ==> !IsSpace(c)
  {
  }
}
