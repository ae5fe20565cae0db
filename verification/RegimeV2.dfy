/**
 * The second regime model: a trendability score, a direction score, a target pair, and the
 * confirmation filter behind them.
 */
module RegimeV2 {
  import opened Numeric
  import opened TailBuffer
  import opened ConfirmationFilter
  import V1 = RegimeV1

  datatype Config = Config(
    efficiencyWindow: nat, rangeMaxTrendability: real, trendMinTrendability: real,
    minDirectionScore: real, minDirectionalRibbonAtr: real, confirmBars: nat)

  predicate ValidConfig(c: Config) {
    && c.efficiencyWindow >= 3 && 0.0 <= c.rangeMaxTrendability < c.trendMinTrendability <= 100.0
    && 0.0 < c.minDirectionScore <= 100.0 && c.minDirectionalRibbonAtr > 0.0 && c.confirmBars > 0
  }

  /** Classified evidence of the higher interval; a mixed ribbon leaves the alignment unset. */
  datatype Evidence = Evidence(
    adx: real, ribbonSpreadAtr: real, ribbonExpanding: bool, kamaSlopeAtr: real,
    noiseGateNeutral: bool, alignment: Bias, moneyFlow: Bias)

  function Clamp(value: real, minimum: real, maximum: real): real {
    Max(minimum, Min(maximum, value))
  }

  // ----- scores -----

  function RawTrendability(e: Evidence, efficiency: real): real {
    Clamp(efficiency / 0.60, 0.0, 1.0) * 40.0 + Clamp((e.adx - 15.0) / 25.0, 0.0, 1.0) * 30.0 + Clamp(e.ribbonSpreadAtr / 1.20, 0.0, 1.0) * 20.0
    + (if e.ribbonExpanding then 10.0 else 0.0) - (if e.noiseGateNeutral then 20.0 else 0.0)
  }

  function Signed(b: Bias, weight: real): real {
    if b == Long then weight else if b == Short then -weight else 0.0
  }

  function RawDirection(e: Evidence): real {
    Signed(e.alignment, 40.0) + Clamp(e.kamaSlopeAtr / 0.20, -1.0, 1.0) * 35.0 + Signed(e.moneyFlow, 15.0)
  }

  function Scores(e: Evidence, efficiency: real): (real, real) {
    (Clamp(RawTrendability(e, efficiency), 0.0, 100.0), Clamp(RawDirection(e), -100.0, 100.0))
  }

  /** The scores stay in range, and the direction score never reaches its clamp. */
  lemma {:induction false} ScoresInRange(e: Evidence, efficiency: real)
    ensures var (trend, direction) := Scores(e, efficiency); 0.0 <= trend <= 100.0 && -90.0 <= direction <= 90.0 && direction == RawDirection(e)
    ensures RawTrendability(e, efficiency) <= 100.0
  {
  }

  /** Points for an amount: none up to `low`, all of them from `high` on, in proportion between. */
  ghost predicate Graded(points: real, amount: real, low: real, high: real, all: real) {
    && 0.0 <= points <= all && (amount <= low ==> points == 0.0) && (amount >= high ==> points == all)
    && (low <= amount <= high ==> points * (high - low) == all * (amount - low))
  }

  lemma {:induction false} ClampGrades(amount: real, low: real, width: real, all: real)
    requires width > 0.0 && all > 0.0
    ensures Graded(Clamp((amount - low) / width, 0.0, 1.0) * all, amount, low, low + width, all)
  {
    var q := (amount - low) / width;
    assert q * width == amount - low;
    if amount < low {
      assert q < 0.0;
    } else if amount > low + width {
      assert q > 1.0;
    }
  }

  lemma {:induction false} SlopeGrades(slope: real)
    ensures Graded(Clamp(slope / 0.20, -1.0, 1.0) * 35.0 + 35.0, slope, -0.20, 0.20, 70.0)
  {
    assert slope / 0.20 == 5.0 * slope;
  }

  /**
   * The trend score grades the efficiency to 0.6 for 40 points, the ADX from 15 to 40 for 30
   * and the ribbon spread to 1.2 for 20, adds 10 while the ribbon expands and takes off 20 in
   * noise, but not below 0; the direction score is 40 for the ribbon's side, up to 35 either
   * way for the slope to 0.2, and 15 for the money flow.
   */
  lemma {:induction false} ScoresSay(e: Evidence, efficiency: real) returns (forEfficiency: real, forAdx: real, forSpread: real, forSlope: real)
    ensures Graded(forEfficiency, efficiency, 0.0, 0.60, 40.0) && Graded(forAdx, e.adx, 15.0, 40.0, 30.0)
    ensures Graded(forSpread, e.ribbonSpreadAtr, 0.0, 1.20, 20.0) && Graded(forSlope + 35.0, e.kamaSlopeAtr, -0.20, 0.20, 70.0)
    ensures var sum := forEfficiency + forAdx + forSpread + (if e.ribbonExpanding then 10.0 else 0.0) - (if e.noiseGateNeutral then 20.0 else 0.0);
            Scores(e, efficiency).0 == if sum < 0.0 then 0.0 else sum
    ensures Scores(e, efficiency).1
         == (match e.alignment case Long => 40.0 case Short => -40.0 case _ => 0.0) + forSlope
            + (match e.moneyFlow case Long => 15.0 case Short => -15.0 case _ => 0.0)
  {
    hide Graded;
    forEfficiency, forAdx := Clamp(efficiency / 0.60, 0.0, 1.0) * 40.0, Clamp((e.adx - 15.0) / 25.0, 0.0, 1.0) * 30.0;
    forSpread, forSlope := Clamp(e.ribbonSpreadAtr / 1.20, 0.0, 1.0) * 20.0, Clamp(e.kamaSlopeAtr / 0.20, -1.0, 1.0) * 35.0;
    ClampGrades(efficiency, 0.0, 0.60, 40.0);
    ClampGrades(e.adx, 15.0, 25.0, 30.0);
    ClampGrades(e.ribbonSpreadAtr, 0.0, 1.20, 20.0);
    SlopeGrades(e.kamaSlopeAtr);
    ScoresInRange(e, efficiency);
  }

  // ----- the target -----

  function ScoreBias(c: Config, direction: real): Bias {
    if Abs(direction) < c.minDirectionScore then NoBias else if direction > 0.0 then Long else Short
  }

  predicate DirectionalRibbon(c: Config, e: Evidence) {
    e.ribbonExpanding && e.ribbonSpreadAtr >= c.minDirectionalRibbonAtr && e.alignment != NoBias
  }

  function TargetOf(c: Config, trend: real, direction: real, e: Evidence): Pair {
    if trend <= c.rangeMaxTrendability then Pair(ChopLock, NoBias)
    else
      var bias := if DirectionalRibbon(c, e) then e.alignment else ScoreBias(c, direction);
      Pair(if trend >= c.trendMinTrendability && bias != NoBias then TrendActive else Normal, bias)
  }

  /** A mixed but wide and expanding ribbon is taken for a direction: the target's direction is unset exactly then. */
  lemma {:induction false} UnsetTargetExactly(c: Config, trend: real, direction: real, e: Evidence)
    ensures TargetOf(c, trend, direction, e).direction == Unset
       <==> trend > c.rangeMaxTrendability && e.ribbonExpanding && e.ribbonSpreadAtr >= c.minDirectionalRibbonAtr && e.alignment == Unset
    ensures TargetOf(c, trend, direction, e).direction == Unset && trend >= c.trendMinTrendability ==>
         TargetOf(c, trend, direction, e).state == TrendActive
  {
  }

  /** The target of a bar whose closes end in the given window. */
  function TargetFrom(c: Config, e: Evidence, efficiency: real): Pair {
    var scores := Scores(e, efficiency);
    TargetOf(c, scores.0, scores.1, e)
  }

  /**
   * The target in full: a lock up to the range's bound, an active trend from the trend's
   * bound on with a direction, normal otherwise; the direction is the ribbon's while it is
   * wide and expanding and not flat, and the score's where that is large enough.
   */
  lemma {:induction false} TargetSays(c: Config, e: Evidence, efficiency: real)
    requires ValidConfig(c)
    ensures var t, (trend, score) := TargetFrom(c, e, efficiency), Scores(e, efficiency);
            var ribbon := e.ribbonExpanding && e.ribbonSpreadAtr >= c.minDirectionalRibbonAtr && e.alignment != NoBias;
            && (t.state == ChopLock <==> trend <= c.rangeMaxTrendability)
            && (t.state == TrendActive <==> trend >= c.trendMinTrendability && t.direction != NoBias)
            && (t.state == Normal <==> trend > c.rangeMaxTrendability && (trend < c.trendMinTrendability || t.direction == NoBias))
            && (t.direction == Long <==> trend > c.rangeMaxTrendability && (if ribbon then e.alignment == Long else score >= c.minDirectionScore))
            && (t.direction == Short <==> trend > c.rangeMaxTrendability && (if ribbon then e.alignment == Short else score <= -c.minDirectionScore))
  {
    hide Scores;
  }

  // ----- symmetry -----

  function Flip(b: Bias): Bias {
    match b
    case Long => Short
    case Short => Long
    case other => other
  }

  function FlipPair(p: Pair): Pair {
    Pair(p.state, Flip(p.direction))
  }

  function FlipEvidence(e: Evidence): Evidence {
    e.(kamaSlopeAtr := -e.kamaSlopeAtr, alignment := Flip(e.alignment), moneyFlow := Flip(e.moneyFlow))
  }

  /** Turning the market upside down keeps the trendability, negates the direction and flips the target. */
  lemma {:induction false} TargetIsSymmetric(c: Config, e: Evidence, efficiency: real)
    requires ValidConfig(c)
    ensures var (trend, direction) := Scores(e, efficiency);
            && Scores(FlipEvidence(e), efficiency) == (trend, -direction)
            && TargetOf(c, trend, -direction, FlipEvidence(e)) == FlipPair(TargetOf(c, trend, direction, e))
  {
    assert (-e.kamaSlopeAtr) / 0.20 == -(e.kamaSlopeAtr / 0.20);
  }

  /** Any direction but a lock leaves entries open; an unset direction opens both sides. */
  function Permissions(s: State, d: Bias): (r: (bool, bool, bool))
    ensures r.0 <==> r.1 || r.2
    ensures r.0 <==> s != ChopLock
    ensures r.0 ==> (r.1 <==> d != Short) && (r.2 <==> d != Long)
  {
    if s == ChopLock then (false, false, false)
    else match d case Long => (true, true, false) case Short => (true, false, true) case _ => (true, true, true)
  }

  // ----- the analyzer -----

  /** What one closed bar carries; None where the source text or series is missing or unusable. */
  datatype Snapshot = Snapshot(
    bar: Option<V1.PriceBar>, hasTimeframe: bool, evidence: Option<Evidence>,
    phase: Option<Phase>, volumeRatio: Option<real>)

  datatype WidthState = Contracting | Expanding | OtherWidth

  datatype Squeeze = SqueezeOn | ReleaseUp | ReleaseDown | OtherSqueeze

  datatype Momentum = Bull | Bear | BullFading | BearFading | OtherMomentum

  /** The width and momentum readings of the current bar; the width is not negative. */
  datatype Phase = Phase(width: real, widthState: WidthState, squeeze: Squeeze, momentumState: Momentum, momentum: real, momentumDelta: real)

  datatype Base = Base(state: State, direction: Bias, trendability: real, directionScore: real, efficiency: real)

  /** Whether a bar after `seen` others is scored: the window is full and the higher timeframe is there and complete. */
  predicate Readable(snapshot: Snapshot, seen: nat, window: nat) {
    snapshot.bar.Some? && seen >= window && snapshot.hasTimeframe && snapshot.evidence.Some?
  }

  class Analyzer {
    const config: Config
    const gate: Gate
    var bars: seq<V1.PriceBar>
    ghost var seen: seq<V1.PriceBar>

    ghost predicate Valid()
      reads this, gate
    {
      && ValidConfig(config) && gate.Valid() && gate.confirmBars == config.confirmBars
      && bars == Tail(seen, config.efficiencyWindow + 1)
    }

    constructor (config: Config)
      requires ValidConfig(config)
      ensures Valid() && fresh(gate) && this.config == config && seen == [] && gate.events == []
    {
      this.config := config;
      gate := new Gate(config.confirmBars);
      bars, seen := [], [];
    }

    /** One bar: the target of the scores goes through the filter, once the window is full and the evidence is there. */
    method Analyze(snapshot: Snapshot) returns (result: Option<Base>, failed: bool)
      requires Valid()
      modifies this, gate
      ensures Valid()
      ensures snapshot.bar.None? ==> failed && seen == old(seen)
      ensures snapshot.bar.Some? ==> seen == old(seen) + [snapshot.bar.value]
      ensures failed <==> snapshot.bar.None? || (|old(seen)| >= config.efficiencyWindow && !snapshot.hasTimeframe)
      ensures result.Some? <==> Readable(snapshot, |old(seen)|, config.efficiencyWindow)
      ensures result.None? ==> gate.events == old(gate.events)
      ensures result.Some? ==>
                var base, e := result.value, snapshot.evidence.value;
                && base.efficiency == V1.EfficiencyOf(Tail(seen, config.efficiencyWindow + 1))
                && (base.trendability, base.directionScore) == Scores(e, base.efficiency)
                && gate.events == old(gate.events) + [Target(TargetFrom(config, e, base.efficiency))]
                && (base.state, base.direction) == (gate.state, gate.direction)
    {
      hide Scores, TargetOf, Tail, Gate.Valid, V1.EfficiencyOf;
      result, failed := None, true;
      if snapshot.bar.None? {
        return;
      }
      Join(snapshot.bar.value);
      failed := false;
      if |bars| < config.efficiencyWindow + 1 {
        return;
      }
      if !snapshot.hasTimeframe {
        failed := true;
        return;
      }
      if snapshot.evidence.None? {
        return;
      }
      var evidence := snapshot.evidence.value;
      var efficiency := V1.EfficiencyRatio(bars);
      var scores := Scores(evidence, efficiency);
      var target := TargetOf(config, scores.0, scores.1, evidence);
      gate.Transition(target.state, target.direction);
      result := Some(Base(gate.state, gate.direction, scores.0, scores.1, efficiency));
    }

    method Join(bar: V1.PriceBar)
      requires bars == Tail(seen, config.efficiencyWindow + 1)
      modifies `bars, `seen
      ensures bars == Tail(seen, config.efficiencyWindow + 1) && seen == old(seen) + [bar]
      ensures |bars| == if |seen| <= config.efficiencyWindow + 1 then |seen| else config.efficiencyWindow + 1
    {
      TailSnoc(seen, config.efficiencyWindow + 1, bar);
      bars := bars + [bar];
      if |bars| > config.efficiencyWindow + 1 {
        bars := bars[|bars| - config.efficiencyWindow - 1..];
      }
      seen := seen + [bar];
    }
  }
}
