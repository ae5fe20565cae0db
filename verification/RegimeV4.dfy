/**
 * The fourth regime model: an entry-phase gate over the second model, driven by the rank of
 * the band width, squeeze releases and momentum.
 */
module RegimeV4 {
  import opened Numeric
  import opened TailBuffer
  import opened ConfirmationFilter
  import opened RegimeV2
  import V1 = RegimeV1

  datatype GateConfig = GateConfig(v2: Config, widthWindow: nat, compressionPercentile: real, minCompressionVotes: nat, confirmBars: nat)

  predicate ValidGateConfig(c: GateConfig) {
    && ValidConfig(c.v2) && c.widthWindow >= 20 && 0.0 < c.compressionPercentile < 1.0
    && 1 <= c.minCompressionVotes <= 4 && c.confirmBars > 0
  }

  // ----- percentile rank -----

  function CountAtMost(values: seq<real>, x: real): (r: nat)
    ensures r <= |values|
  {
    if values == [] then 0 else CountAtMost(values[..|values| - 1], x) + if values[|values| - 1] <= x then 1 else 0
  }

  lemma {:induction false} CountSnoc(values: seq<real>, v: real, x: real)
    ensures CountAtMost(values + [v], x) == CountAtMost(values, x) + if v <= x then 1 else 0
  {
  }

  lemma {:induction false} CountConcat(a: seq<real>, b: seq<real>, x: real)
    ensures CountAtMost(a + b, x) == CountAtMost(a, x) + CountAtMost(b, x)
    decreases |b|
  {
    if b == [] {
      assert a + b == a;
    } else {
      CountConcat(a, b[..|b| - 1], x);
      assert a + b == (a + b[..|b| - 1]) + [b[|b| - 1]];
      CountSnoc(a + b[..|b| - 1], b[|b| - 1], x);
    }
  }

  ghost predicate Ordered(values: seq<real>) {
    forall i, j :: 0 <= i < j < |values| ==> values[i] <= values[j]
  }

  /** ordered holds the same values, as far as counting and membership can tell. */
  ghost predicate SameCounts(ordered: seq<real>, values: seq<real>) {
    |ordered| == |values| && (forall x :: CountAtMost(ordered, x) == CountAtMost(values, x)) && forall x :: x in ordered <==> x in values
  }

  method Insert(ordered: seq<real>, v: real) returns (r: seq<real>)
    requires Ordered(ordered)
    ensures Ordered(r) && SameCounts(r, ordered + [v])
  {
    hide CountAtMost;
    var k := 0;
    while k < |ordered| && ordered[k] <= v
      invariant k <= |ordered| && forall i :: 0 <= i < k ==> ordered[i] <= v
    {
      k := k + 1;
    }
    r := ordered[..k] + [v] + ordered[k..];
    InsertedCounts(ordered, v, k);
  }

  lemma {:induction false} InsertedCounts(ordered: seq<real>, v: real, k: nat)
    requires k <= |ordered|
    ensures SameCounts(ordered[..k] + [v] + ordered[k..], ordered + [v])
  {
    hide CountAtMost;
    var r := ordered[..k] + [v] + ordered[k..];
    assert ordered == ordered[..k] + ordered[k..];
    forall x ensures CountAtMost(r, x) == CountAtMost(ordered + [v], x) {
      CountConcat(ordered[..k] + [v], ordered[k..], x);
      CountSnoc(ordered[..k], v, x);
      CountConcat(ordered[..k], ordered[k..], x);
      CountSnoc(ordered, v, x);
    }
    forall x ensures x in r <==> x in ordered + [v] {
      assert x in ordered <==> x in ordered[..k] || x in ordered[k..];
    }
  }

  method SortFloats(values: seq<real>) returns (ordered: seq<real>)
    ensures Ordered(ordered) && SameCounts(ordered, values)
  {
    hide CountAtMost, Ordered, SameCounts;
    ordered := [];
    NothingToSort();
    assert values[..0] == [];
    for i := 0 to |values|
      invariant Ordered(ordered) && SameCounts(ordered, values[..i])
    {
      var grown := Insert(ordered, values[i]);
      assert values[..i + 1] == values[..i] + [values[i]];
      CountsCompose(grown, ordered, values[..i], values[i]);
      ordered := grown;
    }
    assert values[..|values|] == values;
  }

  lemma {:induction false} NothingToSort()
    ensures Ordered([]) && SameCounts([], [])
  {
  }

  lemma {:induction false} CountsCompose(grown: seq<real>, ordered: seq<real>, values: seq<real>, v: real)
    requires SameCounts(grown, ordered + [v]) && SameCounts(ordered, values)
    ensures SameCounts(grown, values + [v])
  {
  }

  /** In an ordered list exactly the first k values are at most x. */
  lemma {:induction false} CountIsBoundary(ordered: seq<real>, x: real, k: nat)
    requires k <= |ordered|
    requires (forall i :: 0 <= i < k ==> ordered[i] <= x) && forall i :: k <= i < |ordered| ==> ordered[i] > x
    ensures CountAtMost(ordered, x) == k
    decreases |ordered|
  {
    if ordered != [] {
      CountIsBoundary(ordered[..|ordered| - 1], x, if k == |ordered| then k - 1 else k);
    }
  }

  /** The first index whose value is at least x. */
  method SearchFloats(ordered: seq<real>, x: real) returns (index: nat)
    requires Ordered(ordered)
    ensures index <= |ordered|
    ensures (forall i :: 0 <= i < index ==> ordered[i] < x) && forall i :: index <= i < |ordered| ==> x <= ordered[i]
  {
    var low, high := 0, |ordered|;
    while low < high
      invariant low <= high <= |ordered|
      invariant (forall i :: 0 <= i < low ==> ordered[i] < x) && forall i :: high <= i < |ordered| ==> x <= ordered[i]
    {
      var mid := (low + high) / 2;
      if ordered[mid] < x {
        low := mid + 1;
      } else {
        high := mid;
      }
    }
    index := low;
  }

  /** The fraction of values at most the current one; a current value that is not among them counts as one more. */
  method PercentileRank(values: seq<real>, current: real) returns (rank: real)
    requires values != []
    ensures rank == (CountAtMost(values, current) + if current in values then 0 else 1) as real / |values| as real
    ensures current in values ==> 0.0 < rank <= 1.0
  {
    hide CountAtMost;
    var ordered := SortFloats(values);
    var index := SearchFloats(ordered, current);
    while index + 1 < |ordered| && ordered[index + 1] <= current
      invariant index <= |ordered|
      invariant forall i :: 0 <= i < index ==> ordered[i] <= current
      invariant index < |ordered| ==> (ordered[index] <= current <==> current in values)
      invariant index == |ordered| ==> current !in values
      invariant forall i :: index <= i < |ordered| ==> current <= ordered[i]
    {
      index := index + 1;
    }
    CountIsBoundary(ordered, current, if current in values then index + 1 else index);
    rank := (index + 1) as real / |ordered| as real;
    FractionWithinOne(index + 1, |ordered|);
  }

  lemma {:induction false} FractionWithinOne(a: nat, b: nat)
    requires b > 0
    ensures 1 <= a <= b ==> 0.0 < a as real / b as real <= 1.0
  {
  }

  // ----- the target -----

  function ReleaseDirection(p: Phase): Bias {
    if p.squeeze == ReleaseUp && p.momentum > 0.0 && p.momentumDelta > 0.0 && p.widthState == Expanding then Long
    else if p.squeeze == ReleaseDown && p.momentum < 0.0 && p.momentumDelta < 0.0 && p.widthState == Expanding then Short
    else NoBias
  }

  function CompressionVotes(c: GateConfig, base: Base, p: Phase, percentile: real): nat {
    (if percentile <= c.compressionPercentile then 1 else 0) + (if p.widthState == Contracting then 1 else 0)
    + (if p.squeeze == SqueezeOn then 1 else 0) + (if base.trendability <= c.v2.rangeMaxTrendability then 1 else 0)
  }

  predicate Fading(d: Bias, m: Momentum) {
    (d == Long && (m == Bear || m == BullFading)) || (d == Short && (m == Bull || m == BearFading))
  }

  function GateTarget(c: GateConfig, base: Base, p: Phase, percentile: real): Pair {
    var release := ReleaseDirection(p);
    if release != NoBias then (if base.direction == release then Pair(TrendArmed, release) else Pair(BreakoutPending, NoBias))
    else if base.state == ChopLock || CompressionVotes(c, base, p, percentile) >= c.minCompressionVotes then Pair(ChopLock, NoBias)
    else if base.direction == NoBias then Pair(Normal, NoBias)
    else if p.widthState == Contracting || Fading(base.direction, p.momentumState) then Pair(BreakoutPending, NoBias)
    else Pair(base.state, base.direction)
  }

  /** A target has a direction only when the second model has that direction. */
  lemma {:induction false} TargetNeverContradictsBase(c: GateConfig, base: Base, p: Phase, percentile: real)
    ensures var t := GateTarget(c, base, p, percentile);
            && (t.direction != NoBias ==> t.direction == base.direction && t.state != ChopLock)
            && (t.state == TrendArmed && base.state != TrendArmed ==> t.direction == ReleaseDirection(p) != NoBias)
            && (t.state == ChopLock || t.state == BreakoutPending ==> t.direction == NoBias || t == Pair(base.state, base.direction))
  {
  }

  /** A release: the squeeze let go in a direction, momentum lies and moves that way, and the bands widen. */
  ghost predicate Releases(p: Phase, d: Bias) {
    && p.widthState == Expanding
    && ((d == Long && p.squeeze == ReleaseUp && p.momentum > 0.0 && p.momentumDelta > 0.0)
        || (d == Short && p.squeeze == ReleaseDown && p.momentum < 0.0 && p.momentumDelta < 0.0))
  }

  /** The four signs of compression. */
  ghost predicate Compressed(c: GateConfig, base: Base, p: Phase, percentile: real, vote: nat) {
    match vote
    case 0 => percentile <= c.compressionPercentile
    case 1 => p.widthState == Contracting
    case 2 => p.squeeze == SqueezeOn
    case 3 => base.trendability <= c.v2.rangeMaxTrendability
    case _ => false
  }

  ghost function Votes(c: GateConfig, base: Base, p: Phase, percentile: real, n: nat): set<nat> {
    set vote | 0 <= vote < n && Compressed(c, base, p, percentile, vote)
  }

  lemma {:induction false} OneMoreVote(c: GateConfig, base: Base, p: Phase, percentile: real, n: nat)
    ensures Votes(c, base, p, percentile, n + 1)
         == if Compressed(c, base, p, percentile, n) then Votes(c, base, p, percentile, n) + {n}
            else Votes(c, base, p, percentile, n)
    ensures Votes(c, base, p, percentile, 0) == {}
  {
  }

  lemma {:induction false} VotesAreCounted(c: GateConfig, base: Base, p: Phase, percentile: real)
    ensures CompressionVotes(c, base, p, percentile) == |Votes(c, base, p, percentile, 4)|
  {
    hide Votes;
    OneMoreVote(c, base, p, percentile, 0);
    OneMoreVote(c, base, p, percentile, 1);
    OneMoreVote(c, base, p, percentile, 2);
    OneMoreVote(c, base, p, percentile, 3);
    NotYet(c, base, p, percentile, 1);
    NotYet(c, base, p, percentile, 2);
    NotYet(c, base, p, percentile, 3);
  }

  lemma {:induction false} NotYet(c: GateConfig, base: Base, p: Phase, percentile: real, n: nat)
    ensures n !in Votes(c, base, p, percentile, n)
  {
  }

  /** Momentum that turned against the base direction, or fades in it. */
  ghost predicate Fades(d: Bias, m: Momentum) {
    match d case Long => m == Bear || m == BullFading case Short => m == Bull || m == BearFading case _ => false
  }

  /**
   * The target in full: armed on a release the base agrees with, pending on one it does not;
   * without a release a lock when the base is locked or enough signs of compression are
   * there, normal without a direction, pending while the bands contract or momentum fades,
   * and what the base says otherwise.
   */
  lemma {:induction false} GateTargetSays(c: GateConfig, base: Base, p: Phase, percentile: real)
    ensures var t, d := GateTarget(c, base, p, percentile), base.direction;
            var releases := Releases(p, Long) || Releases(p, Short);
            var compressed := base.state == ChopLock || |Votes(c, base, p, percentile, 4)| >= c.minCompressionVotes;
            && (releases ==> t == if Releases(p, d) then Pair(TrendArmed, d) else Pair(BreakoutPending, NoBias))
            && (!releases && compressed ==> t == Pair(ChopLock, NoBias))
            && (!releases && !compressed && d == NoBias ==> t == Pair(Normal, NoBias))
            && (!releases && !compressed && d != NoBias ==>
                  t == if p.widthState == Contracting || Fades(d, p.momentumState) then Pair(BreakoutPending, NoBias) else Pair(base.state, d))
  {
    hide CompressionVotes, Votes;
    VotesAreCounted(c, base, p, percentile);
  }

  // ----- permissions and their asymmetry -----

  function GatePermissions(s: State, d: Bias): (bool, bool, bool) {
    if s == ChopLock || s == BreakoutPending || d == NoBias then (false, false, false)
    else if d == Long then (true, true, false)
    else (true, false, true)
  }

  function FlipPhase(p: Phase): Phase {
    p.(squeeze := match p.squeeze case ReleaseUp => ReleaseDown case ReleaseDown => ReleaseUp case other => other,
       momentumState := match p.momentumState case Bull => Bear case Bear => Bull case BullFading => BearFading case BearFading => BullFading case other => other,
       momentum := -p.momentum, momentumDelta := -p.momentumDelta)
  }

  function FlipBase(b: Base): Base {
    b.(direction := Flip(b.direction), directionScore := -b.directionScore)
  }

  /** The target is symmetric in long and short. */
  lemma {:induction false} GateTargetIsSymmetric(c: GateConfig, base: Base, p: Phase, percentile: real)
    ensures GateTarget(c, FlipBase(base), FlipPhase(p), percentile) == FlipPair(GateTarget(c, base, p, percentile))
  {
  }

  /** The permissions are symmetric exactly when the direction is set: an unset one counts as short. */
  lemma {:induction false} UnsetCountsAsShort(s: State, d: Bias)
    ensures var p, q := GatePermissions(s, d), GatePermissions(s, Flip(d));
            (q == (p.0, p.2, p.1)) <==> (d != Unset || s == ChopLock || s == BreakoutPending)
    ensures GatePermissions(s, d).2 <==> s != ChopLock && s != BreakoutPending && (d == Short || d == Unset)
    ensures GatePermissions(s, d).1 <==> s != ChopLock && s != BreakoutPending && d == Long
    ensures GatePermissions(s, d).0 <==> GatePermissions(s, d).1 || GatePermissions(s, d).2
  {
  }

  // ----- the analyzer -----

  datatype Gated = Gated(base: Base, state: State, direction: Bias, allowNew: bool, allowLong: bool, allowShort: bool)

  /** A missing or negative width gives no phase evidence. */
  predicate HasWidth(phase: Option<Phase>) {
    phase.Some? && phase.value.width >= 0.0
  }

  class GateAnalyzer {
    const config: GateConfig
    const base: Analyzer
    const gate: Gate
    var widths: seq<real>
    ghost var seenWidths: seq<real>

    ghost predicate Valid()
      reads this, base, base.gate, gate
    {
      && ValidGateConfig(config) && base.Valid() && base.config == config.v2
      && gate.Valid() && gate.confirmBars == config.confirmBars && gate != base.gate
      && widths == Tail(seenWidths, config.widthWindow)
    }

    /** The efficiency of the last full window of the second model. */
    ghost function BaseEfficiency(): real
      reads base
    {
      if base.seen == [] then 0.0 else V1.EfficiencyOf(Tail(base.seen, config.v2.efficiencyWindow + 1))
    }

    constructor (config: GateConfig)
      requires ValidGateConfig(config)
      ensures Valid() && fresh(base) && fresh(base.gate) && fresh(gate) && this.config == config
      ensures gate.events == [] && base.gate.events == [] && seenWidths == [] && base.seen == []
    {
      this.config := config;
      base := new Analyzer(config.v2);
      gate := new Gate(config.confirmBars);
      widths, seenWidths := [], [];
    }

    /** The rank of the current width among the last `widthWindow` widths, once there are that many. */
    method PhaseEvidence(phase: Option<Phase>) returns (percentile: real, ready: bool)
      requires Valid()
      modifies `widths, `seenWidths
      ensures Valid()
      ensures seenWidths == old(seenWidths) + if HasWidth(phase) then [phase.value.width] else []
      ensures ready <==> HasWidth(phase) && |seenWidths| >= config.widthWindow
      ensures ready ==> percentile == RankIn(seenWidths, config.widthWindow, phase.value.width) && 0.0 < percentile <= 1.0
    {
      hide CountAtMost, Gate.Valid, Analyzer.Valid, Tail, ValidGateConfig;
      percentile, ready := 0.0, false;
      if phase.None? || phase.value.width < 0.0 {
        return;
      }
      var width := phase.value.width;
      NonEmptyWindow(config);
      PushWidth(width);
      if |widths| < config.widthWindow {
        return;
      }
      assert widths[|widths| - 1] == width;
      percentile := PercentileRank(widths, width);
      ready := true;
    }

    method PushWidth(width: real)
      requires widths == Tail(seenWidths, config.widthWindow) && config.widthWindow >= 1
      modifies `widths, `seenWidths
      ensures widths == Tail(seenWidths, config.widthWindow) && seenWidths == old(seenWidths) + [width]
      ensures |widths| == (if |seenWidths| <= config.widthWindow then |seenWidths| else config.widthWindow) >= 1
      ensures widths[|widths| - 1] == width
    {
      TailSnoc(seenWidths, config.widthWindow, width);
      widths := widths + [width];
      if |widths| > config.widthWindow {
        widths := widths[|widths| - config.widthWindow..];
      }
      seenWidths := seenWidths + [width];
    }

    method Analyze(snapshot: Snapshot) returns (result: Option<Gated>, failed: bool)
      requires Valid()
      modifies this, base, base.gate, gate
      ensures Valid()
      ensures base.seen == old(base.seen) + if snapshot.bar.Some? then [snapshot.bar.value] else []
      ensures failed <==> snapshot.bar.None? || (|old(base.seen)| >= config.v2.efficiencyWindow && !snapshot.hasTimeframe)
      ensures seenWidths == old(seenWidths) + if Readable(snapshot, |old(base.seen)|, config.v2.efficiencyWindow) && HasWidth(snapshot.phase)
                                              then [snapshot.phase.value.width] else []
      ensures result.Some? <==> Readable(snapshot, |old(base.seen)|, config.v2.efficiencyWindow) && HasWidth(snapshot.phase)
                                && |seenWidths| >= config.widthWindow
      ensures base.gate.events == old(base.gate.events)
                                  + if Readable(snapshot, |old(base.seen)|, config.v2.efficiencyWindow)
                                    then [Target(TargetFrom(config.v2, snapshot.evidence.value, BaseEfficiency()))] else []
      ensures result.None? ==> gate.events == old(gate.events)
      ensures result.Some? ==>
                var r, percentile := result.value, RankIn(seenWidths, config.widthWindow, snapshot.phase.value.width);
                && (r.base.state, r.base.direction) == (base.gate.state, base.gate.direction)
                && r.base.efficiency == BaseEfficiency()
                && (r.base.trendability, r.base.directionScore) == Scores(snapshot.evidence.value, r.base.efficiency)
                && gate.events == old(gate.events) + [Target(GateTarget(config, r.base, snapshot.phase.value, percentile))]
                && (r.state, r.direction) == (gate.state, gate.direction)
                && (r.allowNew, r.allowLong, r.allowShort) == GatePermissions(r.state, r.direction)
    {
      hide Gate.Valid, Analyzer.Valid, ValidGateConfig, Tail, RankIn, GateTarget, GatePermissions, Scores, TargetOf;
      var read, unusable := base.Analyze(snapshot);
      failed, result := unusable, None;
      if failed || read.None? {
        return;
      }
      var percentile, ready := PhaseEvidence(snapshot.phase);
      if !ready {
        return;
      }
      var target := GateTarget(config, read.value, snapshot.phase.value, percentile);
      gate.Transition(target.state, target.direction);
      var permissions := GatePermissions(gate.state, gate.direction);
      result := Some(Gated(read.value, gate.state, gate.direction, permissions.0, permissions.1, permissions.2));
    }
  }

  lemma {:induction false} NonEmptyWindow(c: GateConfig)
    requires ValidGateConfig(c)
    ensures c.widthWindow >= 20
  {
  }

  /** The fraction of the last n widths that are at most x. */
  function RankIn(widths: seq<real>, n: nat, x: real): real {
    var window := Tail(widths, n);
    if window == [] then 0.0 else CountAtMost(window, x) as real / |window| as real
  }
}
