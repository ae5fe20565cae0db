/**
 * The fifth regime model: the phase gate with a fast way out of a lock, taken only on a
 * close outside the bars before, with width, score, momentum and volume behind it.
 */
module RegimeV5 {
  import opened Numeric
  import opened TailBuffer
  import opened ConfirmationFilter
  import opened RegimeV2
  import opened RegimeV4
  import V1 = RegimeV1

  datatype FastConfig = FastConfig(v4: GateConfig, breakoutWindow: nat, minVolumeRatio: real, minDirectionScore: real)

  predicate ValidFastConfig(c: FastConfig) {
    ValidGateConfig(c.v4) && c.breakoutWindow >= 3 && c.minVolumeRatio > 0.0 && 0.0 < c.minDirectionScore <= 100.0
  }

  /** Long when the close is above every high, short when below every low, of at least n bars. */
  ghost predicate BreaksOut(bars: seq<V1.PriceBar>, n: nat, close: real, d: Bias) {
    && |bars| >= n
    && ((d == Long && forall i :: 0 <= i < n ==> close > Tail(bars, n)[i].high)
      || (d == Short && forall i :: 0 <= i < n ==> close < Tail(bars, n)[i].low))
  }

  /** d is the breakout direction of a close against the last n bars. */
  ghost predicate Breakout(bars: seq<V1.PriceBar>, n: nat, close: real, d: Bias) {
    if d == NoBias then !BreaksOut(bars, n, close, Long) && !BreaksOut(bars, n, close, Short) else BreaksOut(bars, n, close, d)
  }

  predicate DirectionAligned(d: Bias, score: real, minimum: real) {
    (d == Long && score >= minimum) || (d == Short && score <= -minimum)
  }

  predicate MomentumAligned(d: Bias, momentum: real, delta: real) {
    (d == Long && momentum > 0.0 && delta > 0.0) || (d == Short && momentum < 0.0 && delta < 0.0)
  }

  /** The event a bar sends to the gate. */
  function EventOf(c: FastConfig, gateState: State, breakout: Bias, base: Base, p: Phase, percentile: real, volumeRatio: Option<real>): Event {
    if (gateState != ChopLock && base.state != ChopLock) || breakout == NoBias then Target(GateTarget(c.v4, base, p, percentile))
    else if p.widthState != Expanding || !DirectionAligned(breakout, base.directionScore, c.minDirectionScore)
            || !MomentumAligned(breakout, p.momentum, p.momentumDelta) || volumeRatio.None?
              || volumeRatio.value < c.minVolumeRatio then Target(Pair(ChopLock, NoBias))
    else Fast(Pair(TrendArmed, breakout))
  }

  /** A fast release is armed in the breakout's own direction, out of a lock, with every alignment; a breakout that lacks one keeps the lock. */
  lemma {:induction false} FastReleaseIsBacked(c: FastConfig, gateState: State, breakout: Bias, base: Base, p: Phase,
        percentile: real, volumeRatio: Option<real>)
    ensures var e := EventOf(c, gateState, breakout, base, p, percentile, volumeRatio);
            e.Fast? <==>
              && (gateState == ChopLock || base.state == ChopLock) && (breakout == Long || breakout == Short)
              && p.widthState == Expanding && volumeRatio.Some? && volumeRatio.value >= c.minVolumeRatio
              && (if breakout == Long then base.directionScore >= c.minDirectionScore && p.momentum > 0.0 && p.momentumDelta > 0.0
                  else base.directionScore <= -c.minDirectionScore && p.momentum < 0.0 && p.momentumDelta < 0.0)
    ensures var e := EventOf(c, gateState, breakout, base, p, percentile, volumeRatio);
            && (e.Fast? ==> e.pair == Pair(TrendArmed, breakout))
            && (!e.Fast? && (gateState == ChopLock || base.state == ChopLock) && breakout != NoBias ==> e.pair == Pair(ChopLock, NoBias))
            && (breakout == NoBias || (gateState != ChopLock && base.state != ChopLock) ==> e.pair == GateTarget(c.v4, base, p, percentile))
  {
  }

  // ----- every run -----

  /** What an event was decided from: the bar it came with, its breakout, and the base reading after so many base events. */
  datatype Decision = Decision(at: nat, breakout: Bias, base: Base, baseEvents: nat, phase: Phase, percentile: real, volumeRatio: Option<real>)

  /** Everything a run of the analyzer has seen and done. */
  datatype Record = Record(bars: seq<V1.PriceBar>, baseStart: Pair, baseEvents: seq<Event>, start: Pair, events: seq<Event>, decisions: seq<Decision>)

  /** Event i was decided by its bar against the bars before it, by the base pair then committed, and by the gate then in force. */
  ghost predicate Decided(c: FastConfig, r: Record, i: nat)
    requires i < |r.events| == |r.decisions|
  {
    var d := r.decisions[i];
    && d.at < |r.bars| && Breakout(r.bars[..d.at], c.breakoutWindow, r.bars[d.at].close, d.breakout)
    && d.baseEvents <= |r.baseEvents|
    && Pair(d.base.state, d.base.direction) == After(r.baseStart, c.v4.v2.confirmBars, r.baseEvents[..d.baseEvents]).committed
    && r.events[i] == EventOf(c, Committed(c, r, i).state, d.breakout, d.base, d.phase, d.percentile, d.volumeRatio)
  }

  /** The pair in force after the first n events. */
  function Committed(c: FastConfig, r: Record, n: nat): Pair
    requires n <= |r.events|
  {
    After(r.start, c.v4.confirmBars, r.events[..n]).committed
  }

  ghost predicate AllDecided(c: FastConfig, r: Record) {
    |r.events| == |r.decisions| && forall i :: 0 <= i < |r.events| ==> Decided(c, r, i)
  }

  lemma {:induction false} SameLength(c: FastConfig, r: Record)
    requires AllDecided(c, r)
    ensures |r.events| == |r.decisions|
  {
  }

  lemma {:induction false} BaseGate(a: Analyzer)
    requires a.Valid()
    ensures a.gate.Valid() && a.gate.confirmBars == a.config.confirmBars
  {
  }

  /** Longer records decide the old events as before. */
  lemma {:induction false} RecordGrows(c: FastConfig, r: Record, bars: seq<V1.PriceBar>, baseEvents: seq<Event>, e: Event, d: Decision)
    requires AllDecided(c, r)
    ensures AllDecided(c, Record(r.bars + bars, r.baseStart, r.baseEvents + baseEvents, r.start, r.events, r.decisions))
    ensures var next := Record(r.bars + bars, r.baseStart, r.baseEvents + baseEvents, r.start, r.events + [e], r.decisions + [d]);
            Decided(c, next, |r.events|) ==> AllDecided(c, next)
  {
    hide Breakout, EventOf, After;
    var wider := Record(r.bars + bars, r.baseStart, r.baseEvents + baseEvents, r.start, r.events, r.decisions);
    var next := Record(r.bars + bars, r.baseStart, r.baseEvents + baseEvents, r.start, r.events + [e], r.decisions + [d]);
    forall i | 0 <= i < |r.events| ensures Decided(c, wider, i) && Decided(c, next, i) {
      assert Decided(c, r, i);
      SamePrefixes(r, wider, next, i);
    }
  }

  lemma {:induction false} SamePrefixes(r: Record, wider: Record, next: Record, i: nat)
    requires i < |r.events| == |r.decisions| && r.decisions[i].at < |r.bars| && r.decisions[i].baseEvents <= |r.baseEvents|
    requires r.bars <= wider.bars == next.bars && r.baseEvents <= wider.baseEvents == next.baseEvents
    requires r.events <= wider.events && r.events <= next.events && r.decisions <= next.decisions
    ensures var d := r.decisions[i];
            && next.decisions[i] == d && next.bars[..d.at] == r.bars[..d.at] && next.bars[d.at] == r.bars[d.at]
            && next.baseEvents[..d.baseEvents] == r.baseEvents[..d.baseEvents]
    ensures wider.events[..i] == r.events[..i] == next.events[..i] && next.events[i] == r.events[i] == wider.events[i]
  {
  }

  /**
   * In every run with at least two bars to confirm, the pair in force changes only to the
   * event's own pair, and only in one of two ways: the event is a target seen that many
   * times in a row, or it is a fast release on a bar that closed outside all of the last
   * `breakoutWindow` bars before it, in the released direction, while the gate or the
   * second model was locked.
   */
  lemma {:induction false} EveryChangeIsBacked(c: FastConfig, r: Record, i: nat)
    requires c.v4.confirmBars >= 2 && AllDecided(c, r) && i < |r.events|
    requires Committed(c, r, i + 1) != Committed(c, r, i)
    ensures var e, d := r.events[i], r.decisions[i];
            && Decided(c, r, i) && Committed(c, r, i + 1) == e.pair
            && (if e.Target? then Run(r.events[..i + 1]) >= c.v4.confirmBars
                else
                  && e.pair == Pair(TrendArmed, d.breakout) && BreaksOut(r.bars[..d.at], c.breakoutWindow, r.bars[d.at].close, d.breakout)
                  && (Committed(c, r, i).state == ChopLock
                      || After(r.baseStart, c.v4.v2.confirmBars, r.baseEvents[..d.baseEvents]).committed.state == ChopLock))
  {
    hide After, Run, BreaksOut, GateTarget;
    assert r.events[..i + 1] == r.events[..i] + [r.events[i]];
    assert Decided(c, r, i);
    var d := r.decisions[i];
    FilterTracksLaw(r.start, c.v4.confirmBars, r.events[..i]);
    FilterTracksLaw(r.start, c.v4.confirmBars, r.events[..i + 1]);
    LawSnoc(r.start, c.v4.confirmBars, r.events[..i], r.events[i]);
    FastReleaseIsBacked(c, Committed(c, r, i).state, d.breakout, d.base, d.phase, d.percentile, d.volumeRatio);
  }

  class FastAnalyzer {
    const config: FastConfig
    const gate: GateAnalyzer
    var bars: seq<V1.PriceBar>
    ghost var seen: seq<V1.PriceBar>
    ghost var decisions: seq<Decision>

    ghost function History(): Record
      reads this, gate, gate.base, gate.base.gate, gate.gate
    {
      Record(seen, gate.base.gate.initial, gate.base.gate.events, gate.gate.initial, gate.gate.events, decisions)
    }

    ghost predicate Valid()
      reads this, gate, gate.base, gate.base.gate, gate.gate
    {
      && ValidFastConfig(config) && gate.Valid() && gate.config == config.v4
      && bars == Tail(seen, config.breakoutWindow) && AllDecided(config, History())
    }

    constructor (config: FastConfig)
      requires ValidFastConfig(config)
      ensures Valid() && this.config == config && seen == [] && gate.gate.events == [] && decisions == []
    {
      this.config := config;
      gate := new GateAnalyzer(config.v4);
      bars, seen, decisions := [], [], [];
    }

    /** The side of the window the close lies on, if it is outside. */
    method BreakoutDirection(close: real) returns (d: Bias)
      requires Valid()
      ensures Breakout(seen, config.breakoutWindow, close, d)
    {
      hide GateAnalyzer.Valid, Tail;
      TailLength(seen, config.breakoutWindow);
      if |bars| < config.breakoutWindow {
        return NoBias;
      }
      var window := bars[|bars| - config.breakoutWindow..];
      assert window == Tail(seen, config.breakoutWindow);
      var high, low := V1.RangeOf(window);
      d := Side(window, high, low, close);
    }

    /** The bars of the window, oldest dropped first. */
    method AppendBar(bar: V1.PriceBar)
      requires bars == Tail(seen, config.breakoutWindow) && config.breakoutWindow >= 1
      modifies `bars, `seen
      ensures bars == Tail(seen, config.breakoutWindow) && seen == old(seen) + [bar]
    {
      TailSnoc(seen, config.breakoutWindow, bar);
      bars := bars + [bar];
      if |bars| > config.breakoutWindow {
        bars := bars[|bars| - config.breakoutWindow..];
      }
      seen := seen + [bar];
    }

    /**
     * One bar: either one target through the filter or one fast release, judged against the
     * bars before this one; the bar joins the window in every case.
     */
    method Analyze(snapshot: Snapshot) returns (result: Option<Gated>, failed: bool)
      requires Valid()
      modifies this, gate, gate.base, gate.base.gate, gate.gate
      ensures Valid()
      ensures seen == old(seen) + if snapshot.bar.Some? then [snapshot.bar.value] else []
      ensures failed <==> snapshot.bar.None? || (|old(gate.base.seen)| >= config.v4.v2.efficiencyWindow && !snapshot.hasTimeframe)
      ensures result.Some? <==> Readable(snapshot, |old(gate.base.seen)|, config.v4.v2.efficiencyWindow) && HasWidth(snapshot.phase)
                                && |gate.seenWidths| >= config.v4.widthWindow
      ensures gate.seenWidths == old(gate.seenWidths)
                                 + if Readable(snapshot, |old(gate.base.seen)|, config.v4.v2.efficiencyWindow) && HasWidth(snapshot.phase)
                                   then [snapshot.phase.value.width] else []
      ensures gate.base.seen == old(gate.base.seen) + if snapshot.bar.Some? then [snapshot.bar.value] else []
      ensures gate.base.gate.events == old(gate.base.gate.events)
                                       + if Readable(snapshot, |old(gate.base.seen)|, config.v4.v2.efficiencyWindow)
                                         then [Target(TargetFrom(config.v4.v2, snapshot.evidence.value, gate.BaseEfficiency()))] else []
      ensures result.None? ==> gate.gate.events == old(gate.gate.events) && decisions == old(decisions)
      ensures result.Some? ==>
                var r, close := result.value, snapshot.bar.value.close;
                var percentile := RankIn(gate.seenWidths, config.v4.widthWindow, snapshot.phase.value.width);
                && (r.base.state, r.base.direction) == (gate.base.gate.state, gate.base.gate.direction)
                && r.base.efficiency == gate.BaseEfficiency()
                && (r.base.trendability, r.base.directionScore) == Scores(snapshot.evidence.value, r.base.efficiency)
                && (exists breakout: Bias ::
                      && Breakout(old(seen), config.breakoutWindow, close, breakout)
                      && decisions == old(decisions) + [Decision(|old(seen)|, breakout, r.base, |gate.base.gate.events|,
                                                                 snapshot.phase.value, percentile, snapshot.volumeRatio)]
                      && gate.gate.events == old(gate.gate.events)
                                             + [EventOf(config, old(gate.gate.state), breakout, r.base, snapshot.phase.value,
                                                  percentile, snapshot.volumeRatio)])
                && (r.state, r.direction) == (gate.gate.state, gate.gate.direction)
                && (r.allowNew, r.allowLong, r.allowShort) == GatePermissions(r.state, r.direction)
    {
      hide Gate.Valid, Analyzer.Valid, ValidGateConfig, Tail, RankIn, GateTarget, GatePermissions, Scores, TargetOf, BreaksOut, AllDecided,
           V1.EfficiencyOf, Breakout;
      result, failed := None, true;
      if snapshot.bar.None? {
        return;
      }
      var bar := snapshot.bar.value;
      ghost var before := History();
      var breakout := BreakoutDirection(bar.close);
      var read, unusable := gate.base.Analyze(snapshot);
      failed := unusable;
      AppendBar(bar);
      Grown(before);
      if failed || read.None? {
        return;
      }
      var percentile, ready := gate.PhaseEvidence(snapshot.phase);
      if !ready {
        return;
      }
      var event := Decide(breakout, read.value, snapshot.phase.value, percentile, snapshot.volumeRatio);
      ghost var d := Decision(|old(seen)|, breakout, read.value, |gate.base.gate.events|, snapshot.phase.value, percentile, snapshot.volumeRatio);
      BaseGate(gate.base);
      NewlyDecided(before, event, d);
      Act(event, d);
      var permissions := GatePermissions(gate.gate.state, gate.gate.direction);
      result := Some(Gated(read.value, gate.gate.state, gate.gate.direction, permissions.0, permissions.1, permissions.2));
    }

    /** Sends the event through the gate. */
    method Act(e: Event, ghost d: Decision)
      requires gate.gate.Valid()
      modifies gate.gate, `decisions
      ensures gate.gate.Valid() && gate.gate.events == old(gate.gate.events) + [e] && decisions == old(decisions) + [d]
    {
      hide Gate.Valid;
      match e {
        case Fast(pair) => gate.gate.Release(pair.state, pair.direction);
        case Target(pair) => gate.gate.Transition(pair.state, pair.direction);
      }
      decisions := decisions + [d];
    }

    /** The record of more bars and base events. */
    lemma {:induction false} Grown(before: Record)
      requires AllDecided(config, before) && before.bars <= seen && before.baseEvents <= gate.base.gate.events
      requires before.baseStart == gate.base.gate.initial && before.start == gate.gate.initial
      requires before.events == gate.gate.events && before.decisions == decisions
      ensures AllDecided(config, History())
    {
      hide AllDecided;
      RecordGrows(config, before, seen[|before.bars|..], gate.base.gate.events[|before.baseEvents|..], Target(before.start),
                  Decision(0, NoBias, Base(Normal, Unset, 0.0, 0.0, 0.0), 0, Phase(0.0, OtherWidth, OtherSqueeze, OtherMomentum, 0.0, 0.0), 0.0, None));
      assert before.bars + seen[|before.bars|..] == seen;
      assert before.baseEvents + gate.base.gate.events[|before.baseEvents|..] == gate.base.gate.events;
    }

    /** One more event, decided by the bar that came last. */
    lemma {:induction false} NewlyDecided(before: Record, e: Event, d: Decision)
      requires AllDecided(config, before) && before.bars <= seen && before.baseEvents <= gate.base.gate.events
      requires before.baseStart == gate.base.gate.initial && before.start == gate.gate.initial
      requires before.events == gate.gate.events && before.decisions == decisions
      requires gate.gate.Valid() && gate.base.gate.Valid() && gate.gate.confirmBars == config.v4.confirmBars
      requires gate.base.gate.confirmBars == config.v4.v2.confirmBars
      requires d.at == |before.bars| < |seen| && d.baseEvents == |gate.base.gate.events|
      requires Breakout(before.bars, config.breakoutWindow, seen[d.at].close, d.breakout)
      requires (d.base.state, d.base.direction) == (gate.base.gate.state, gate.base.gate.direction)
      requires e == EventOf(config, gate.gate.state, d.breakout, d.base, d.phase, d.percentile, d.volumeRatio)
      ensures AllDecided(config, Record(seen, gate.base.gate.initial, gate.base.gate.events, gate.gate.initial, gate.gate.events + [e], decisions + [d]))
    {
      hide AllDecided, Breakout, EventOf, After;
      var next := Record(seen, gate.base.gate.initial, gate.base.gate.events, gate.gate.initial, gate.gate.events + [e], decisions + [d]);
      SameLength(config, before);
      RecordGrows(config, before, seen[|before.bars|..], gate.base.gate.events[|before.baseEvents|..], e, d);
      assert before.bars + seen[|before.bars|..] == seen;
      assert before.baseEvents + gate.base.gate.events[|before.baseEvents|..] == gate.base.gate.events;
      assert next.events[..|before.events|] == before.events && seen[..d.at] == before.bars;
      assert next.baseEvents[..d.baseEvents] == next.baseEvents;
      assert Decided(config, next, |before.events|);
    }

    method Decide(breakout: Bias, base: Base, phase: Phase, percentile: real, volumeRatio: Option<real>) returns (e: Event)
      ensures e == EventOf(config, gate.gate.state, breakout, base, phase, percentile, volumeRatio)
    {
      hide GateTarget;
      var locked := gate.gate.state == ChopLock || base.state == ChopLock;
      if !locked || breakout == NoBias {
        return Target(GateTarget(config.v4, base, phase, percentile));
      }
      if phase.widthState != Expanding {
        return Target(Pair(ChopLock, NoBias));
      }
      if !DirectionAligned(breakout, base.directionScore, config.minDirectionScore) {
        return Target(Pair(ChopLock, NoBias));
      }
      if !MomentumAligned(breakout, phase.momentum, phase.momentumDelta) {
        return Target(Pair(ChopLock, NoBias));
      }
      if volumeRatio.None? || volumeRatio.value < config.minVolumeRatio {
        return Target(Pair(ChopLock, NoBias));
      }
      e := Fast(Pair(TrendArmed, breakout));
    }
  }

  lemma {:induction false} TailLength(bars: seq<V1.PriceBar>, n: nat)
    ensures |Tail(bars, n)| == if |bars| <= n then |bars| else n
  {
  }

  method Side(window: seq<V1.PriceBar>, high: real, low: real, close: real) returns (d: Bias)
    requires V1.IsRange(window, high, low)
    ensures d == Long <==> forall i :: 0 <= i < |window| ==> close > window[i].high
    ensures d == Short ==> forall i :: 0 <= i < |window| ==> close < window[i].low
    ensures d == NoBias ==> exists i :: 0 <= i < |window| && close >= window[i].low
    ensures d == Long || d == Short || d == NoBias
  {
    if close > high {
      return Long;
    }
    if close < low {
      return Short;
    }
    d := NoBias;
  }
}
