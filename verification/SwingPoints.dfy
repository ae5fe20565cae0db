/**
 * Zigzag detection: a first leg of at least the minimum move, then a new leg at every
 * reversal.  Directions are handled by one signed reading of prices.
 */
module SwingPoints {
  import opened Numeric
  import Supertrend

  /** A parsed bar: None where the text is not a number. */
  datatype Kline = Kline(high: Option<real>, low: Option<real>, close: Option<real>, closeTime: int)

  datatype Mode = PointsMode | AtrMode

  datatype Config = Config(mode: Mode, minimumMovePoints: real, reversalPoints: real, atrPeriod: int, minimumMoveAtr: real, reversalAtr: real)

  predicate ValidConfig(c: Config) {
    match c.mode
    case PointsMode => 0.0 < c.reversalPoints < c.minimumMovePoints
    case AtrMode => c.atrPeriod > 0 && 0.0 < c.reversalAtr < c.minimumMoveAtr
  }

  datatype SwingPoint = SwingPoint(timeMs: int, price: real, atr: real)

  function High(b: Kline): real {
    if b.high.Some? then b.high.value else 0.0
  }

  function Low(b: Kline): real {
    if b.low.Some? then b.low.value else 0.0
  }

  function MinimumMove(c: Config, atr: real): real {
    if c.mode == AtrMode then c.minimumMoveAtr * atr else c.minimumMovePoints
  }

  function Reversal(c: Config, atr: real): real {
    if c.mode == AtrMode then c.reversalAtr * atr else c.reversalPoints
  }

  // ----- signed readings: up is better when higher, down when lower -----

  function Signed(up: bool, price: real): real {
    if up then price else -price
  }

  /** The bar's extreme in the direction of the leg. */
  function Best(up: bool, b: Kline): real {
    if up then High(b) else Low(b)
  }

  /** The bar's extreme against the leg. */
  function Worst(up: bool, b: Kline): real {
    if up then Low(b) else High(b)
  }

  function LegUp(firstUp: bool, k: nat): bool {
    firstUp == (k % 2 == 1)
  }

  /** What the detector knows, with the bar index of every point and the bar at which every leg was opened. */
  datatype Track = Track(points: seq<SwingPoint>, ats: seq<nat>, opens: seq<nat>, firstUp: bool, extreme: SwingPoint, extremeAt: nat)

  function PointAt(up: bool, bars: seq<Kline>, atrs: seq<real>, i: nat): SwingPoint
    requires i < |bars| == |atrs|
  {
    SwingPoint(bars[i].closeTime, Best(up, bars[i]), atrs[i])
  }

  /** The first bar the point closing a leg is an extreme of: with fixed points, every bar since the point before. */
  function Since(c: Config, first: bool, start: nat, previousAt: nat, open: nat): nat {
    if c.mode == AtrMode then open else if first then start else previousAt + 1
  }

  /**
   * A leg from one point to another: large enough (the minimum move for the first leg, the
   * reversal that opened it for the others), ending in the first extreme of the bars through
   * a given one.
   */
  ghost predicate Leg(bars: seq<Kline>, c: Config, atrs: seq<real>, up: bool, first: bool, start: nat,
                      previous: SwingPoint, previousAt: nat, open: nat, p: SwingPoint, at: nat, through: nat)
    requires |bars| == |atrs|
  {
    && open <= at <= through < |bars| && (if first then start <= open else previousAt < open)
    && p == PointAt(up, bars, atrs, at)
    && Signed(up, p.price) - Signed(up, previous.price) >= (if first then MinimumMove(c, atrs[open]) else Reversal(c, atrs[open]))
    && (forall i :: Since(c, first, start, previousAt, open) <= i <= through ==> Signed(up, Best(up, bars[i])) <= Signed(up, p.price))
    && forall i :: open <= i < at ==> Signed(up, Best(up, bars[i])) < Signed(up, p.price)
  }

  /** The running extreme of a leg: the best reading of bars open..i, both included. */
  function Peak(bars: seq<Kline>, up: bool, open: nat, i: nat): real
    requires open <= i < |bars|
    decreases i
  {
    if i == open then Signed(up, Best(up, bars[i])) else Max(Peak(bars, up, open, i - 1), Signed(up, Best(up, bars[i])))
  }

  /** Bar i does not improve on the running extreme of its leg and falls back from it by the threshold. */
  ghost predicate Reverses(bars: seq<Kline>, up: bool, open: nat, i: nat, threshold: real)
    requires open < i < |bars|
  {
    && Signed(up, Best(up, bars[i])) <= Peak(bars, up, open, i - 1)
    && Peak(bars, up, open, i - 1) - Signed(up, Worst(up, bars[i])) >= threshold
  }

  /** No bar after the opening one and before bar n reverses the leg. */
  ghost predicate Unturned(bars: seq<Kline>, c: Config, atrs: seq<real>, up: bool, open: nat, n: nat)
    requires n <= |bars| == |atrs|
  {
    forall i :: open < i < n ==> !Reverses(bars, up, open, i, Reversal(c, atrs[i]))
  }

  /** A leg ends at the first bar that reverses it. */
  ghost predicate EndsAt(bars: seq<Kline>, c: Config, atrs: seq<real>, up: bool, open: nat, bar: nat)
    requires |bars| == |atrs|
  {
    open < bar < |bars| && Reverses(bars, up, open, bar, Reversal(c, atrs[bar])) && Unturned(bars, c, atrs, up, open, bar)
  }

  /** The first leg opens at the first bar a full move away from the start; a bar that is so on both sides opens it upward. */
  ghost predicate OpensAt(bars: seq<Kline>, c: Config, atrs: seq<real>, start: nat, pivot: real, up: bool, open: nat)
    requires |bars| == |atrs|
  {
    && start <= open < |bars| && Idle(bars, c, atrs, start, open, pivot)
    && Signed(up, Best(up, bars[open])) - Signed(up, pivot) >= MinimumMove(c, atrs[open])
    && (!up ==> High(bars[open]) - pivot < MinimumMove(c, atrs[open]))
  }

  /** A leg's extreme is its running extreme from its own bar on. */
  lemma {:induction false} PeakIs(bars: seq<Kline>, up: bool, open: nat, at: nat, i: nat)
    requires open <= at <= i < |bars|
    requires forall j :: open <= j <= i ==> Signed(up, Best(up, bars[j])) <= Signed(up, Best(up, bars[at]))
    ensures Peak(bars, up, open, i) == Signed(up, Best(up, bars[at]))
    decreases i
  {
    hide Signed, Best;
    if at < i {
      PeakIs(bars, up, open, at, i - 1);
    } else {
      PeakBelow(bars, up, open, i, Signed(up, Best(up, bars[at])));
    }
  }

  lemma {:induction false} PeakBelow(bars: seq<Kline>, up: bool, open: nat, i: nat, bound: real)
    requires open <= i < |bars| && forall j :: open <= j <= i ==> Signed(up, Best(up, bars[j])) <= bound
    ensures Peak(bars, up, open, i) <= bound
    decreases i
  {
    hide Signed, Best;
    if open < i {
      PeakBelow(bars, up, open, i - 1, bound);
    }
  }

  lemma {:induction false} LegPeak(bars: seq<Kline>, c: Config, atrs: seq<real>, up: bool, first: bool, start: nat,
                                   previous: SwingPoint, previousAt: nat, open: nat, p: SwingPoint, at: nat, through: nat)
    requires |bars| == |atrs| && Leg(bars, c, atrs, up, first, start, previous, previousAt, open, p, at, through)
    ensures open <= through && Peak(bars, up, open, through) == Signed(up, p.price)
  {
    hide Signed, Best;
    PeakIs(bars, up, open, at, through);
  }

  /** No bar after the extreme has reversed. */
  ghost predicate Unreversed(bars: seq<Kline>, c: Config, atrs: seq<real>, up: bool, extreme: real, at: nat, n: nat)
    requires |bars| == |atrs| && n <= |bars|
  {
    forall i :: at < i < n ==> Signed(up, extreme) - Signed(up, Worst(up, bars[i])) < Reversal(c, atrs[i])
  }

  /** A confirmed leg: it ended at its first reversal, in the extreme of the bars through that one. */
  ghost predicate Closed(bars: seq<Kline>, c: Config, atrs: seq<real>, up: bool, first: bool, start: nat,
                         previous: SwingPoint, previousAt: nat, open: nat, p: SwingPoint, at: nat, close: nat)
    requires |bars| == |atrs|
  {
    && at < close && Leg(bars, c, atrs, up, first, start, previous, previousAt, open, p, at, close)
    && EndsAt(bars, c, atrs, up, open, close)
  }

  /** Leg k of a track, from point k - 1 to point k. */
  ghost predicate ClosedLeg(bars: seq<Kline>, c: Config, atrs: seq<real>, start: nat, t: Track, k: nat)
    requires |bars| == |atrs| && 1 <= k < |t.points| == |t.ats| && k + 1 < |t.opens|
  {
    Closed(bars, c, atrs, LegUp(t.firstUp, k), k == 1, start, t.points[k - 1], t.ats[k - 1], t.opens[k], t.points[k], t.ats[k], t.opens[k + 1])
  }

  /** The leg that no bar before n has reversed. */
  ghost predicate Open(bars: seq<Kline>, c: Config, atrs: seq<real>, up: bool, first: bool, start: nat,
                       previous: SwingPoint, previousAt: nat, open: nat, p: SwingPoint, at: nat, n: nat)
    requires 1 <= n <= |bars| == |atrs|
  {
    && Leg(bars, c, atrs, up, first, start, previous, previousAt, open, p, at, n - 1)
    && Unreversed(bars, c, atrs, up, p.price, at, n) && Unturned(bars, c, atrs, up, open, n)
  }

  ghost predicate Shape(start: nat, n: nat, t: Track) {
    && 1 <= |t.points| == |t.ats| && |t.opens| == |t.points| + 1 && start < n && t.ats[0] == start == t.opens[0]
    && forall k :: 0 <= k < |t.opens| ==> t.opens[k] < n
  }

  /**
   * After bars start..n: the first leg opens at the first full move, every confirmed point
   * is the extreme of a leg that ended at its first reversal, and the open leg, which no bar
   * has reversed, runs to the extreme.
   */
  ghost predicate Tracked(bars: seq<Kline>, c: Config, atrs: seq<real>, start: nat, n: nat, t: Track)
    requires |bars| == |atrs|
  {
    && Shape(start, n, t) && n <= |bars|
    && OpensAt(bars, c, atrs, start, t.points[0].price, t.firstUp, t.opens[1])
    && (forall k :: 1 <= k < |t.points| ==> ClosedLeg(bars, c, atrs, start, t, k))
    && var m := |t.points|;
       Open(bars, c, atrs, LegUp(t.firstUp, m), m == 1, start, t.points[m - 1], t.ats[m - 1], t.opens[m], t.extreme, t.extremeAt, n)
  }

  /** Before any leg: no bar has moved far enough from the pivot. */
  ghost predicate Idle(bars: seq<Kline>, c: Config, atrs: seq<real>, start: nat, n: nat, pivot: real)
    requires |bars| == |atrs|
  {
    && start <= n <= |bars|
    && forall i :: start <= i < n ==> High(bars[i]) - pivot < MinimumMove(c, atrs[i]) && pivot - Low(bars[i]) < MinimumMove(c, atrs[i])
  }

  // ----- the four things a bar can do -----

  lemma {:induction false} OpenFirstLeg(bars: seq<Kline>, c: Config, atrs: seq<real>, start: nat, n: nat, pivot: SwingPoint,
        up: bool) returns (t: Track)
    requires |bars| == |atrs| && n < |bars| && Idle(bars, c, atrs, start, n, pivot.price)
    requires Signed(up, Best(up, bars[n])) - Signed(up, pivot.price) >= MinimumMove(c, atrs[n])
    requires !up ==> High(bars[n]) - pivot.price < MinimumMove(c, atrs[n])
    ensures t == Track([pivot], [start], [start, n], up, PointAt(up, bars, atrs, n), n) && Tracked(bars, c, atrs, start, n + 1, t)
  {
    t := Track([pivot], [start], [start, n], up, PointAt(up, bars, atrs, n), n);
    assert LegUp(up, 1) == up;
  }

  /** A better extreme, or a bar that neither improves nor reverses. */
  lemma {:induction false} KeepLeg(bars: seq<Kline>, c: Config, atrs: seq<real>, start: nat, n: nat, t: Track) returns (next: Track)
    requires |bars| == |atrs| && n < |bars| && Tracked(bars, c, atrs, start, n, t)
    requires var up := LegUp(t.firstUp, |t.points|);
             Signed(up, Best(up, bars[n])) > Signed(up, t.extreme.price)
             || Signed(up, t.extreme.price) - Signed(up, Worst(up, bars[n])) < Reversal(c, atrs[n])
    ensures var up := LegUp(t.firstUp, |t.points|);
            next == if Signed(up, Best(up, bars[n])) > Signed(up, t.extreme.price)
                    then t.(extreme := PointAt(up, bars, atrs, n), extremeAt := n) else t
    ensures Tracked(bars, c, atrs, start, n + 1, next)
  {
    hide Closed, Open, LegUp, PointAt, Reversal, Signed, Best, Worst, OpensAt;
    var m, up := |t.points|, LegUp(t.firstUp, |t.points|);
    next := if Signed(up, Best(up, bars[n])) > Signed(up, t.extreme.price) then t.(extreme := PointAt(up, bars, atrs, n), extremeAt := n) else t;
    LegGrows(bars, c, atrs, up, m == 1, start, t.points[m - 1], t.ats[m - 1], t.opens[m], t.extreme, t.extremeAt, n);
    forall k | 1 <= k < m ensures ClosedLeg(bars, c, atrs, start, next, k) {
      assert ClosedLeg(bars, c, atrs, start, t, k);
    }
  }

  lemma {:induction false} LegGrows(bars: seq<Kline>, c: Config, atrs: seq<real>, up: bool, first: bool, start: nat,
                                    previous: SwingPoint, previousAt: nat, open: nat, p: SwingPoint, at: nat, n: nat)
    requires |bars| == |atrs| && 1 <= n < |bars| && Open(bars, c, atrs, up, first, start, previous, previousAt, open, p, at, n)
    requires Signed(up, Best(up, bars[n])) > Signed(up, p.price) || Signed(up, p.price) - Signed(up, Worst(up, bars[n])) < Reversal(c, atrs[n])
    ensures if Signed(up, Best(up, bars[n])) > Signed(up, p.price)
            then Open(bars, c, atrs, up, first, start, previous, previousAt, open, PointAt(up, bars, atrs, n), n, n + 1)
            else Open(bars, c, atrs, up, first, start, previous, previousAt, open, p, at, n + 1)
  {
    hide Leg, Signed, Best, Worst, Reversal, Unturned;
    StaysUnturned(bars, c, atrs, up, first, start, previous, previousAt, open, p, at, n);
    if Signed(up, Best(up, bars[n])) > Signed(up, p.price) {
      LegImproves(bars, c, atrs, up, first, start, previous, previousAt, open, p, at, n);
    } else {
      LegLasts(bars, c, atrs, up, first, start, previous, previousAt, open, p, at, n);
    }
  }

  lemma {:induction false} LegImproves(bars: seq<Kline>, c: Config, atrs: seq<real>, up: bool, first: bool, start: nat,
                                       previous: SwingPoint, previousAt: nat, open: nat, p: SwingPoint, at: nat, n: nat)
    requires |bars| == |atrs| && 1 <= n < |bars| && Leg(bars, c, atrs, up, first, start, previous, previousAt, open, p, at, n - 1)
    requires Signed(up, Best(up, bars[n])) > Signed(up, p.price)
    ensures Leg(bars, c, atrs, up, first, start, previous, previousAt, open, PointAt(up, bars, atrs, n), n, n)
  {
    hide Signed, Best, MinimumMove, Reversal;
  }

  lemma {:induction false} LegLasts(bars: seq<Kline>, c: Config, atrs: seq<real>, up: bool, first: bool, start: nat,
                                    previous: SwingPoint, previousAt: nat, open: nat, p: SwingPoint, at: nat, n: nat)
    requires |bars| == |atrs| && 1 <= n < |bars| && Leg(bars, c, atrs, up, first, start, previous, previousAt, open, p, at, n - 1)
    requires Signed(up, Best(up, bars[n])) <= Signed(up, p.price)
    ensures Leg(bars, c, atrs, up, first, start, previous, previousAt, open, p, at, n)
  {
    hide Signed, Best, MinimumMove, Reversal;
  }

  lemma {:induction false} StaysUnturned(bars: seq<Kline>, c: Config, atrs: seq<real>, up: bool, first: bool, start: nat,
                                         previous: SwingPoint, previousAt: nat, open: nat, p: SwingPoint, at: nat, n: nat)
    requires |bars| == |atrs| && 1 <= n < |bars| && Leg(bars, c, atrs, up, first, start, previous, previousAt, open, p, at, n - 1)
    requires Unturned(bars, c, atrs, up, open, n)
    requires Signed(up, Best(up, bars[n])) > Signed(up, p.price) || Signed(up, p.price) - Signed(up, Worst(up, bars[n])) < Reversal(c, atrs[n])
    ensures Unturned(bars, c, atrs, up, open, n + 1)
  {
    hide Leg, Peak, Signed, Best, Worst, Reversal;
    LegPeak(bars, c, atrs, up, first, start, previous, previousAt, open, p, at, n - 1);
  }

  /** A reversal confirms the extreme and opens the next leg on the same bar. */
  lemma {:induction false} TurnLeg(bars: seq<Kline>, c: Config, atrs: seq<real>, start: nat, n: nat, t: Track) returns (next: Track)
    requires |bars| == |atrs| && n < |bars| && Tracked(bars, c, atrs, start, n, t)
    requires var up := LegUp(t.firstUp, |t.points|);
             Signed(up, Best(up, bars[n])) <= Signed(up, t.extreme.price)
             && Signed(up, t.extreme.price) - Signed(up, Worst(up, bars[n])) >= Reversal(c, atrs[n])
    ensures var up := LegUp(t.firstUp, |t.points|);
            next == Track(t.points + [t.extreme], t.ats + [t.extremeAt], t.opens + [n], t.firstUp, PointAt(!up, bars, atrs, n), n)
    ensures Tracked(bars, c, atrs, start, n + 1, next)
  {
    hide Closed, Open, LegUp, PointAt, Reversal, Signed, Best, Worst, OpensAt;
    var m, up := |t.points|, LegUp(t.firstUp, |t.points|);
    next := Track(t.points + [t.extreme], t.ats + [t.extremeAt], t.opens + [n], t.firstUp, PointAt(!up, bars, atrs, n), n);
    LegsAlternate(t.firstUp, m);
    LegCloses(bars, c, atrs, up, m == 1, start, t.points[m - 1], t.ats[m - 1], t.opens[m], t.extreme, t.extremeAt, n);
    forall k | 1 <= k <= m ensures ClosedLeg(bars, c, atrs, start, next, k) {
      if k < m {
        assert ClosedLeg(bars, c, atrs, start, t, k);
      }
    }
  }

  /** The reversing bar confirms the leg's extreme and starts a leg the other way. */
  lemma {:induction false} LegCloses(bars: seq<Kline>, c: Config, atrs: seq<real>, up: bool, first: bool, start: nat,
                                     previous: SwingPoint, previousAt: nat, open: nat, p: SwingPoint, at: nat, n: nat)
    requires |bars| == |atrs| && 1 <= n < |bars| && Open(bars, c, atrs, up, first, start, previous, previousAt, open, p, at, n)
    requires Signed(up, Best(up, bars[n])) <= Signed(up, p.price) && Signed(up, p.price) - Signed(up, Worst(up, bars[n])) >= Reversal(c, atrs[n])
    ensures Closed(bars, c, atrs, up, first, start, previous, previousAt, open, p, at, n)
    ensures Open(bars, c, atrs, !up, false, start, p, at, n, PointAt(!up, bars, atrs, n), n, n + 1)
  {
    hide MinimumMove, EndsAt, Unturned, Peak;
    LegLasts(bars, c, atrs, up, first, start, previous, previousAt, open, p, at, n);
    LegEnds(bars, c, atrs, up, first, start, previous, previousAt, open, p, at, n);
  }

  /** The reversing bar is the leg's first. */
  lemma {:induction false} LegEnds(bars: seq<Kline>, c: Config, atrs: seq<real>, up: bool, first: bool, start: nat,
                                   previous: SwingPoint, previousAt: nat, open: nat, p: SwingPoint, at: nat, n: nat)
    requires |bars| == |atrs| && 1 <= n < |bars| && Leg(bars, c, atrs, up, first, start, previous, previousAt, open, p, at, n - 1)
    requires Unturned(bars, c, atrs, up, open, n)
    requires Signed(up, Best(up, bars[n])) <= Signed(up, p.price) && Signed(up, p.price) - Signed(up, Worst(up, bars[n])) >= Reversal(c, atrs[n])
    ensures EndsAt(bars, c, atrs, up, open, n) && Unturned(bars, c, atrs, !up, n, n + 1)
  {
    hide Leg, Peak, Signed, Best, Worst, Reversal;
    LegPeak(bars, c, atrs, up, first, start, previous, previousAt, open, p, at, n - 1);
  }

  lemma {:induction false} LegsAlternate(firstUp: bool, k: nat)
    ensures LegUp(firstUp, k + 1) == !LegUp(firstUp, k)
  {
  }

  // ----- the loop -----

  datatype Swings = Failed | Swings(points: seq<SwingPoint>)

  predicate Parses(bars: seq<Kline>, from: nat) {
    forall i :: from <= i < |bars| ==> bars[i].high.Some? && bars[i].low.Some?
  }

  /** The detected points: nothing but the pivot, or confirmed legs with perhaps the open one when it is a full move. */
  ghost predicate Detected(bars: seq<Kline>, c: Config, atrs: seq<real>, start: nat, points: seq<SwingPoint>)
    requires |bars| == |atrs| && start < |bars| && bars[start].close.Some?
  {
    var pivot := SwingPoint(bars[start].closeTime, bars[start].close.value, atrs[start]);
    || (points == (if MinimumMove(c, pivot.atr) <= 0.0 then [pivot, pivot] else [pivot]) && Idle(bars, c, atrs, start, |bars|, pivot.price))
    || (exists t :: Tracked(bars, c, atrs, start, |bars|, t) && t.points != [] && t.points[0] == pivot && points == Published(c, t))
  }

  /** The open leg is published when it is a full move from the last confirmed point. */
  function Published(c: Config, t: Track): seq<SwingPoint>
    requires t.points != []
  {
    if Abs(t.extreme.price - t.points[|t.points| - 1].price) >= MinimumMove(c, t.extreme.atr) then t.points + [t.extreme] else t.points
  }

  /**
   * The running extreme is published as a last point exactly when it lies a full move from
   * the last confirmed one, either way: the fixed points, or the ATR multiple at its own bar.
   */
  lemma {:induction false} LastPointIsFullMove(c: Config, t: Track)
    requires t.points != []
    ensures var move := t.extreme.price - t.points[|t.points| - 1].price;
            var full := if c.mode == AtrMode then c.minimumMoveAtr * t.extreme.atr else c.minimumMovePoints;
            && (Published(c, t) == t.points + [t.extreme] <==> move >= full || -move >= full)
            && (Published(c, t) == t.points <==> -full < move < full)
  {
  }

  /** In ATR mode a leg takes its thresholds from the bar that opens it and a reversal from the bar that makes it. */
  lemma {:induction false} AtrThresholds(bars: seq<Kline>, c: Config, atrs: seq<real>, start: nat, pivot: real, up: bool, open: nat, bar: nat)
    requires c.mode == AtrMode && |bars| == |atrs|
    ensures OpensAt(bars, c, atrs, start, pivot, up, open) ==>
              && start <= open < |bars| && (if up then High(bars[open]) - pivot else pivot - Low(bars[open])) >= c.minimumMoveAtr * atrs[open]
              && forall i :: start <= i < open ==> High(bars[i]) - pivot < c.minimumMoveAtr * atrs[i] && pivot - Low(bars[i]) < c.minimumMoveAtr * atrs[i]
    ensures EndsAt(bars, c, atrs, up, open, bar) ==> open < bar < |bars| && Reverses(bars, up, open, bar, c.reversalAtr * atrs[bar])
  {
    hide Peak;
  }

  method Detect(bars: seq<Kline>, c: Config, atrs: seq<real>, start: nat) returns (r: Swings)
    requires |bars| == |atrs| && start < |bars|
    ensures r == Failed <==> bars[start].close.None? || !Parses(bars, start)
    ensures r.Swings? ==> Detected(bars, c, atrs, start, r.points)
  {
    hide Tracked, Idle, Signed, Best, Worst, LegUp, MinimumMove, Reversal;
    if bars[start].close.None? {
      return Failed;
    }
    var pivot := SwingPoint(bars[start].closeTime, bars[start].close.value, atrs[start]);
    var extreme, direction, points := pivot, 0, [pivot];
    ghost var t := Track([pivot], [start], [start, start], true, pivot, start);
    NothingYet(bars, c, atrs, start, pivot.price);
    for index := start to |bars|
      invariant forall i :: start <= i < index ==> bars[i].high.Some? && bars[i].low.Some?
      invariant direction == 0 || direction == 1 || direction == -1
      invariant direction == 0 ==> points == [pivot] && extreme == pivot && Idle(bars, c, atrs, start, index, pivot.price)
      invariant direction != 0 ==>
        && Tracked(bars, c, atrs, start, index, t) && points == t.points && points != [] && points[0] == pivot && extreme == t.extreme
        && (direction == 1) == LegUp(t.firstUp, |t.points|)
    {
      var bar := bars[index];
      if bar.high.None? || bar.low.None? {
        return Failed;
      }
      var high, low := bar.high.value, bar.low.value;
      Readings(bar, extreme.price, pivot.price, direction > 0);
      if direction == 0 {
        if high - pivot.price >= MinimumMove(c, atrs[index]) {
          t := OpenFirstLeg(bars, c, atrs, start, index, pivot, true);
          FirstLegUp(true);
          direction := 1;
          extreme := SwingPoint(bar.closeTime, high, atrs[index]);
        } else if pivot.price - low >= MinimumMove(c, atrs[index]) {
          t := OpenFirstLeg(bars, c, atrs, start, index, pivot, false);
          FirstLegUp(false);
          direction := -1;
          extreme := SwingPoint(bar.closeTime, low, atrs[index]);
        } else {
          StillIdle(bars, c, atrs, start, index, pivot.price);
        }
      } else {
        var up := direction > 0;
        if (up && high > extreme.price) || (!up && low < extreme.price) {
          t := KeepLeg(bars, c, atrs, start, index, t);
          extreme := SwingPoint(bar.closeTime, if up then high else low, atrs[index]);
        } else if (up && extreme.price - low >= Reversal(c, atrs[index])) || (!up && high - extreme.price >= Reversal(c, atrs[index])) {
          LegsAlternate(t.firstUp, |t.points|);
          t := TurnLeg(bars, c, atrs, start, index, t);
          points := points + [extreme];
          extreme := SwingPoint(bar.closeTime, if up then low else high, atrs[index]);
          direction := if up then -1 else 1;
        } else {
          t := KeepLeg(bars, c, atrs, start, index, t);
        }
      }
    }
    if Abs(extreme.price - points[|points| - 1].price) >= MinimumMove(c, extreme.atr) {
      points := points + [extreme];
    }
    r := Swings(points);
  }

  lemma {:induction false} NothingYet(bars: seq<Kline>, c: Config, atrs: seq<real>, start: nat, pivot: real)
    requires |bars| == |atrs| && start < |bars|
    ensures Idle(bars, c, atrs, start, start, pivot)
  {
  }

  lemma {:induction false} StillIdle(bars: seq<Kline>, c: Config, atrs: seq<real>, start: nat, n: nat, pivot: real)
    requires |bars| == |atrs| && n < |bars| && Idle(bars, c, atrs, start, n, pivot)
    requires High(bars[n]) - pivot < MinimumMove(c, atrs[n]) && pivot - Low(bars[n]) < MinimumMove(c, atrs[n])
    ensures Idle(bars, c, atrs, start, n + 1, pivot)
  {
  }

  lemma {:induction false} FirstLegUp(up: bool)
    ensures LegUp(up, 1) == up
  {
  }

  /** The signed readings, spelled out for a parsed bar. */
  lemma {:induction false} Readings(b: Kline, extreme: real, pivot: real, up: bool)
    requires b.high.Some? && b.low.Some?
    ensures Signed(up, Best(up, b)) > Signed(up, extreme) <==> if up then b.high.value > extreme else b.low.value < extreme
    ensures Signed(up, extreme) - Signed(up, Worst(up, b)) == if up then extreme - b.low.value else b.high.value - extreme
    ensures Signed(true, Best(true, b)) - Signed(true, pivot) == b.high.value - pivot
    ensures Signed(false, Best(false, b)) - Signed(false, pivot) == pivot - b.low.value
    ensures Best(true, b) == b.high.value && Best(false, b) == b.low.value && High(b) == b.high.value && Low(b) == b.low.value
  {
  }

  // ----- the bars determine the points -----

  lemma {:induction false} EndsOnce(bars: seq<Kline>, c: Config, atrs: seq<real>, up: bool, open: nat, a: nat, b: nat)
    requires |bars| == |atrs| && EndsAt(bars, c, atrs, up, open, a) && EndsAt(bars, c, atrs, up, open, b)
    ensures a == b
  {
    hide Reverses;
  }

  lemma {:induction false} OpensOnce(bars: seq<Kline>, c: Config, atrs: seq<real>, start: nat, pivot: real, upA: bool, a: nat, upB: bool, b: nat)
    requires |bars| == |atrs| && OpensAt(bars, c, atrs, start, pivot, upA, a) && OpensAt(bars, c, atrs, start, pivot, upB, b)
    ensures a == b && upA == upB
  {
  }

  /** A leg has one first extreme. */
  lemma {:induction false} OneExtreme(bars: seq<Kline>, c: Config, atrs: seq<real>, up: bool, first: bool, start: nat,
                                      previous: SwingPoint, previousAt: nat, open: nat, p: SwingPoint, at: nat, q: SwingPoint, bt: nat, through: nat)
    requires |bars| == |atrs| && Leg(bars, c, atrs, up, first, start, previous, previousAt, open, p, at, through)
    requires Leg(bars, c, atrs, up, first, start, previous, previousAt, open, q, bt, through)
    ensures p == q && at == bt
  {
    hide Signed, Best, MinimumMove, Reversal;
  }

  /** Two tracks of the same bars agree on every leg both have closed. */
  lemma {:induction false} SameLegs(bars: seq<Kline>, c: Config, atrs: seq<real>, start: nat, n: nat, t: Track, u: Track, k: nat)
    requires |bars| == |atrs| && Tracked(bars, c, atrs, start, n, t) && Tracked(bars, c, atrs, start, n, u)
    requires t.points[0] == u.points[0] && 1 <= k <= |t.points| && k <= |u.points|
    ensures t.firstUp == u.firstUp && t.points[..k] == u.points[..k] && t.ats[..k] == u.ats[..k] && t.opens[..k + 1] == u.opens[..k + 1]
    decreases k
  {
    hide Closed, Open, OpensAt, LegUp;
    if k == 1 {
      OpensOnce(bars, c, atrs, start, t.points[0].price, t.firstUp, t.opens[1], u.firstUp, u.opens[1]);
    } else {
      SameLegs(bars, c, atrs, start, n, t, u, k - 1);
      SameClosedLeg(bars, c, atrs, start, t, u, k - 1);
      Extends(t.points, u.points, k);
      Extends(t.ats, u.ats, k);
      Extends(t.opens, u.opens, k + 1);
    }
  }

  lemma {:induction false} Extends<T>(a: seq<T>, b: seq<T>, k: nat)
    requires 1 <= k <= |a| && k <= |b| && a[..k - 1] == b[..k - 1] && a[k - 1] == b[k - 1]
    ensures a[..k] == b[..k]
  {
    assert a[..k] == a[..k - 1] + [a[k - 1]] && b[..k] == b[..k - 1] + [b[k - 1]];
  }

  lemma {:induction false} SameClosedLeg(bars: seq<Kline>, c: Config, atrs: seq<real>, start: nat, t: Track, u: Track, k: nat)
    requires |bars| == |atrs| && t.firstUp == u.firstUp && 1 <= k
    requires k < |t.points| == |t.ats| && k + 1 < |t.opens| && ClosedLeg(bars, c, atrs, start, t, k)
    requires k < |u.points| == |u.ats| && k + 1 < |u.opens| && ClosedLeg(bars, c, atrs, start, u, k)
    requires t.points[..k] == u.points[..k] && t.ats[..k] == u.ats[..k] && t.opens[..k + 1] == u.opens[..k + 1]
    ensures t.points[k] == u.points[k] && t.ats[k] == u.ats[k] && t.opens[k + 1] == u.opens[k + 1]
  {
    hide Leg, EndsAt, LegUp;
    var up := LegUp(t.firstUp, k);
    assert t.points[..k][k - 1] == u.points[..k][k - 1] && t.ats[..k][k - 1] == u.ats[..k][k - 1] && t.opens[..k + 1][k] == u.opens[..k + 1][k];
    EndsOnce(bars, c, atrs, up, t.opens[k], t.opens[k + 1], u.opens[k + 1]);
    OneExtreme(bars, c, atrs, up, k == 1, start, t.points[k - 1], t.ats[k - 1], t.opens[k], t.points[k], t.ats[k], u.points[k], u.ats[k], t.opens[k + 1]);
  }

  /** A leg that no bar before n reverses does not end before n. */
  lemma {:induction false} OpenOutlasts(bars: seq<Kline>, c: Config, atrs: seq<real>, t: Track, u: Track, n: nat)
    requires n <= |bars| == |atrs| && 1 <= |t.points| < |u.points| == |u.ats| && |t.opens| == |t.points| + 1 && |u.opens| == |u.points| + 1
    requires t.firstUp == u.firstUp && t.opens == u.opens[..|t.opens|]
    requires Unturned(bars, c, atrs, LegUp(t.firstUp, |t.points|), t.opens[|t.points|], n)
    requires EndsAt(bars, c, atrs, LegUp(u.firstUp, |t.points|), u.opens[|t.points|], u.opens[|t.points| + 1])
    ensures u.opens[|t.points| + 1] >= n
  {
    hide Reverses;
  }

  lemma {:induction false} NoFewerLegs(bars: seq<Kline>, c: Config, atrs: seq<real>, start: nat, n: nat, t: Track, u: Track)
    requires |bars| == |atrs| && Tracked(bars, c, atrs, start, n, t) && Tracked(bars, c, atrs, start, n, u)
    requires t.points[0] == u.points[0]
    ensures |t.points| >= |u.points|
  {
    hide Leg, EndsAt, OpensAt, LegUp, Unreversed, Unturned;
    var m := |t.points|;
    if m < |u.points| {
      SameLegs(bars, c, atrs, start, n, t, u, m);
      assert t.opens == t.opens[..m + 1];
      assert ClosedLeg(bars, c, atrs, start, u, m);
      OpenOutlasts(bars, c, atrs, t, u, n);
    }
  }

  /** The bars determine the track. */
  lemma {:induction false} TrackIsUnique(bars: seq<Kline>, c: Config, atrs: seq<real>, start: nat, n: nat, t: Track, u: Track)
    requires |bars| == |atrs| && Tracked(bars, c, atrs, start, n, t) && Tracked(bars, c, atrs, start, n, u)
    requires t.points[0] == u.points[0]
    ensures t == u
  {
    hide ClosedLeg, Leg, Unturned, Unreversed, OpensAt, LegUp;
    NoFewerLegs(bars, c, atrs, start, n, t, u);
    NoFewerLegs(bars, c, atrs, start, n, u, t);
    var m := |t.points|;
    SameLegs(bars, c, atrs, start, n, t, u, m);
    Whole(t.points, u.points);
    Whole(t.ats, u.ats);
    Whole(t.opens, u.opens);
    OneExtreme(bars, c, atrs, LegUp(t.firstUp, m), m == 1, start, t.points[m - 1], t.ats[m - 1], t.opens[m],
               t.extreme, t.extremeAt, u.extreme, u.extremeAt, n - 1);
  }

  lemma {:induction false} Whole<T>(a: seq<T>, b: seq<T>)
    requires |a| == |b| && a[..|a|] == b[..|b|]
    ensures a == b
  {
    assert a == a[..|a|] && b == b[..|b|];
  }

  /** The bars determine the detected points: none too many, none too few. */
  lemma {:induction false} DetectedIsUnique(bars: seq<Kline>, c: Config, atrs: seq<real>, start: nat, a: seq<SwingPoint>, b: seq<SwingPoint>)
    requires |bars| == |atrs| && start < |bars| && bars[start].close.Some?
    requires Detected(bars, c, atrs, start, a) && Detected(bars, c, atrs, start, b)
    ensures a == b
  {
    hide Idle, Tracked, Published, MinimumMove;
    var pivot := SwingPoint(bars[start].closeTime, bars[start].close.value, atrs[start]);
    if Idle(bars, c, atrs, start, |bars|, pivot.price) {
      forall t | Tracked(bars, c, atrs, start, |bars|, t) && t.points != [] && t.points[0] == pivot ensures false {
        IdleHasNoTrack(bars, c, atrs, start, t);
      }
    } else {
      var t :| Tracked(bars, c, atrs, start, |bars|, t) && t.points != [] && t.points[0] == pivot && a == Published(c, t);
      var u :| Tracked(bars, c, atrs, start, |bars|, u) && u.points != [] && u.points[0] == pivot && b == Published(c, u);
      TrackIsUnique(bars, c, atrs, start, |bars|, t, u);
    }
  }

  lemma {:induction false} IdleHasNoTrack(bars: seq<Kline>, c: Config, atrs: seq<real>, start: nat, t: Track)
    requires |bars| == |atrs| && t.points != [] && Tracked(bars, c, atrs, start, |bars|, t)
    ensures !Idle(bars, c, atrs, start, |bars|, t.points[0].price)
  {
    hide ClosedLeg, Open, LegUp;
  }

  // ----- what the points of fixed thresholds guarantee -----

  /** The first bar after `open` that reverses the leg by fixed points. */
  ghost predicate Confirms(bars: seq<Kline>, c: Config, up: bool, open: nat, bar: nat) {
    open < bar < |bars| && Reverses(bars, up, open, bar, c.reversalPoints) && Unconfirmed(bars, c, up, open, bar)
  }

  /** No bar after `open` and before n reverses the leg. */
  ghost predicate Unconfirmed(bars: seq<Kline>, c: Config, up: bool, open: nat, n: nat) {
    n <= |bars| && forall i :: open < i < n ==> !Reverses(bars, up, open, i, c.reversalPoints)
  }

  /**
   * Points that zigzag: directions alternate, the first leg is a full move and every later
   * one at least a reversal, the bars of the points increase from the second on, and each
   * point is the extreme of all bars after the point before through its confirming bar: the
   * first one that reverses its leg, which opened on the confirming bar of the point before.
   * Only the last point may be unconfirmed, with no reversal to the end of the bars.
   */
  ghost predicate Zigzag(bars: seq<Kline>, c: Config, points: seq<SwingPoint>, ats: seq<nat>, through: seq<nat>, firstUp: bool) {
    && 1 <= |points| == |ats| == |through| && ats[0] == 0
    && (forall k :: 1 <= k < |points| ==> Turn(bars, c, LegUp(firstUp, k), k == 1, points[k - 1], ats[k - 1], points[k], ats[k], through[k]))
    && forall k :: 1 <= k < |points| ==>
         && through[k - 1] <= ats[k]
         && (|| Confirms(bars, c, LegUp(firstUp, k), through[k - 1], through[k])
             || (k == |points| - 1 && through[k] == |bars| - 1 && Unconfirmed(bars, c, LegUp(firstUp, k), through[k - 1], |bars|)))
  }

  ghost predicate Turn(bars: seq<Kline>, c: Config, up: bool, first: bool, previous: SwingPoint, previousAt: nat,
        p: SwingPoint, at: nat, through: nat) {
    && at <= through < |bars| && (!first ==> previousAt < at)
    && p.timeMs == bars[at].closeTime && p.price == Best(up, bars[at])
    && Signed(up, p.price) - Signed(up, previous.price) >= (if first then c.minimumMovePoints else c.reversalPoints)
    && forall i :: (if first then 0 else previousAt + 1) <= i <= through ==> Signed(up, Best(up, bars[i])) <= Signed(up, p.price)
  }

  lemma {:induction false} LegTurns(bars: seq<Kline>, c: Config, atrs: seq<real>, up: bool, first: bool,
                                    previous: SwingPoint, previousAt: nat, open: nat, p: SwingPoint, at: nat, through: nat)
    requires c.mode == PointsMode && |bars| == |atrs| && Leg(bars, c, atrs, up, first, 0, previous, previousAt, open, p, at, through)
    ensures Turn(bars, c, up, first, previous, previousAt, p, at, through) && open <= at
  {
  }

  lemma {:induction false} LegConfirmed(bars: seq<Kline>, c: Config, atrs: seq<real>, up: bool, open: nat, n: nat)
    requires c.mode == PointsMode && n <= |bars| == |atrs|
    ensures EndsAt(bars, c, atrs, up, open, n) ==> Confirms(bars, c, up, open, n)
    ensures Unturned(bars, c, atrs, up, open, n) ==> Unconfirmed(bars, c, up, open, n)
  {
    hide Reverses;
    assert forall i :: 0 <= i < |bars| ==> Reversal(c, atrs[i]) == c.reversalPoints;
    if Unturned(bars, c, atrs, up, open, n) {
      forall i | open < i < n ensures !Reverses(bars, up, open, i, c.reversalPoints) {
        assert Reversal(c, atrs[i]) == c.reversalPoints;
      }
    }
  }

  /** In points mode every detected list of points zigzags. */
  lemma {:induction false} DetectedPointsZigzag(bars: seq<Kline>, c: Config, atrs: seq<real>, points: seq<SwingPoint>)
      returns (ats: seq<nat>, through: seq<nat>, firstUp: bool)
    requires c.mode == PointsMode && ValidConfig(c) && |bars| == |atrs| > 0 && bars[0].close.Some? && Detected(bars, c, atrs, 0, points)
    ensures Zigzag(bars, c, points, ats, through, firstUp)
  {
    hide Idle, Tracked, Turn, LegUp;
    var pivot := SwingPoint(bars[0].closeTime, bars[0].close.value, atrs[0]);
    if points == [pivot] && Idle(bars, c, atrs, 0, |bars|, pivot.price) {
      ats, through, firstUp := [0], [0], true;
    } else {
      var t :| Tracked(bars, c, atrs, 0, |bars|, t) && t.points != [] && t.points[0] == pivot && points == Published(c, t);
      ats, through := TrackZigzags(bars, c, atrs, t);
      firstUp := t.firstUp;
    }
  }

  /** Leg k of a zigzag, read off a track: a turn that opened on the bar that closed the leg before. */
  ghost predicate Leaves(bars: seq<Kline>, c: Config, t: Track, k: nat)
    requires 1 <= k < |t.points| == |t.ats| && k + 1 < |t.opens|
  {
    && Turn(bars, c, LegUp(t.firstUp, k), k == 1, t.points[k - 1], t.ats[k - 1], t.points[k], t.ats[k], t.opens[k + 1])
    && t.opens[k] <= t.ats[k] && Confirms(bars, c, LegUp(t.firstUp, k), t.opens[k], t.opens[k + 1])
  }

  lemma {:induction false} TrackLeaves(bars: seq<Kline>, c: Config, atrs: seq<real>, t: Track, k: nat)
    requires c.mode == PointsMode && |bars| == |atrs| > 0 && 1 <= k < |t.points| == |t.ats| && k + 1 < |t.opens|
    requires ClosedLeg(bars, c, atrs, 0, t, k)
    ensures Leaves(bars, c, t, k)
  {
    hide Leg, LegUp, Turn, EndsAt, Confirms;
    LegTurns(bars, c, atrs, LegUp(t.firstUp, k), k == 1, t.points[k - 1], t.ats[k - 1], t.opens[k], t.points[k], t.ats[k], t.opens[k + 1]);
    LegConfirmed(bars, c, atrs, LegUp(t.firstUp, k), t.opens[k], t.opens[k + 1]);
  }

  lemma {:induction false} TrackZigzags(bars: seq<Kline>, c: Config, atrs: seq<real>, t: Track) returns (ats: seq<nat>, through: seq<nat>)
    requires c.mode == PointsMode && |bars| == |atrs| > 0 && Tracked(bars, c, atrs, 0, |bars|, t)
    ensures Zigzag(bars, c, Published(c, t), ats, through, t.firstUp)
  {
    hide ClosedLeg, LegUp, Turn, Leg, Unturned, Unreversed, OpensAt, Confirms, Unconfirmed, Leaves, MinimumMove, Zigzag;
    var m, up := |t.points|, LegUp(t.firstUp, |t.points|);
    forall k | 1 <= k < m ensures Leaves(bars, c, t, k) {
      TrackLeaves(bars, c, atrs, t, k);
    }
    LegTurns(bars, c, atrs, up, m == 1, t.points[m - 1], t.ats[m - 1], t.opens[m], t.extreme, t.extremeAt, |bars| - 1);
    LegConfirmed(bars, c, atrs, up, t.opens[m], |bars|);
    if |Published(c, t)| > m {
      ats, through := t.ats + [t.extremeAt], t.opens[1..] + [|bars| - 1];
      OpenLegPublished(bars, c, t);
    } else {
      ats, through := t.ats, t.opens[1..];
      Confirmed(bars, c, t);
    }
  }

  lemma {:induction false} Confirmed(bars: seq<Kline>, c: Config, t: Track)
    requires 1 <= |t.points| == |t.ats| && |t.opens| == |t.points| + 1 && t.ats[0] == 0
    requires forall k :: 1 <= k < |t.points| ==> Leaves(bars, c, t, k)
    ensures Zigzag(bars, c, t.points, t.ats, t.opens[1..], t.firstUp)
  {
    hide Turn, Confirms, Unconfirmed, LegUp;
    forall k | 1 <= k < |t.points|
      ensures Turn(bars, c, LegUp(t.firstUp, k), k == 1, t.points[k - 1], t.ats[k - 1], t.points[k], t.ats[k], t.opens[1..][k])
      ensures t.opens[1..][k - 1] <= t.ats[k] && Confirms(bars, c, LegUp(t.firstUp, k), t.opens[1..][k - 1], t.opens[1..][k])
    {
      assert Leaves(bars, c, t, k);
    }
  }

  lemma {:induction false} OpenLegPublished(bars: seq<Kline>, c: Config, t: Track)
    requires 1 <= |t.points| == |t.ats| && |t.opens| == |t.points| + 1 && t.ats[0] == 0 && |bars| > 0
    requires forall k :: 1 <= k < |t.points| ==> Leaves(bars, c, t, k)
    requires var m := |t.points|;
             && Turn(bars, c, LegUp(t.firstUp, m), m == 1, t.points[m - 1], t.ats[m - 1], t.extreme, t.extremeAt, |bars| - 1)
             && t.opens[m] <= t.extremeAt && Unconfirmed(bars, c, LegUp(t.firstUp, m), t.opens[m], |bars|)
    ensures Zigzag(bars, c, t.points + [t.extreme], t.ats + [t.extremeAt], t.opens[1..] + [|bars| - 1], t.firstUp)
  {
    hide Turn, Confirms, Unconfirmed, LegUp;
    var m, points, ats, through := |t.points|, t.points + [t.extreme], t.ats + [t.extremeAt], t.opens[1..] + [|bars| - 1];
    forall k | 1 <= k < |points|
      ensures Turn(bars, c, LegUp(t.firstUp, k), k == 1, points[k - 1], ats[k - 1], points[k], ats[k], through[k])
      ensures through[k - 1] <= ats[k]
      ensures || Confirms(bars, c, LegUp(t.firstUp, k), through[k - 1], through[k])
              || (k == m && through[k] == |bars| - 1 && Unconfirmed(bars, c, LegUp(t.firstUp, k), through[k - 1], |bars|))
    {
      if k < m {
        assert Leaves(bars, c, t, k);
      }
    }
  }

  /** With increasing bar times the times of the points increase from the second on. */
  lemma {:induction false} ZigzagTimesIncrease(bars: seq<Kline>, c: Config, points: seq<SwingPoint>, ats: seq<nat>,
        through: seq<nat>, firstUp: bool, k: nat)
    requires Zigzag(bars, c, points, ats, through, firstUp) && 1 <= k < |points| - 1
    requires forall i, j :: 0 <= i < j < |bars| ==> bars[i].closeTime < bars[j].closeTime
    ensures points[k].timeMs < points[k + 1].timeMs
  {
    hide LegUp, Signed, Best;
    assert Turn(bars, c, LegUp(firstUp, k), k == 1, points[k - 1], ats[k - 1], points[k], ats[k], through[k]);
    assert Turn(bars, c, LegUp(firstUp, k + 1), k + 1 == 1, points[k], ats[k], points[k + 1], ats[k + 1], through[k + 1]);
  }

  // ----- the entry point, with its two modes -----

  function TrueRange(high: real, low: real, previousClose: real): real {
    Max(high - low, Max(Abs(high - previousClose), Abs(low - previousClose)))
  }

  function Close(b: Kline): real {
    if b.close.Some? then b.close.value else 0.0
  }

  function Smooth(previous: real, next: real, period: nat): real
    requires period > 0
  {
    (previous * (period - 1) as real + next) / period as real
  }

  function PerBar(sum: real, period: nat): real
    requires period > 0
  {
    sum / period as real
  }

  /** Wilder's average true range at bar i >= period; zero before. */
  function AtrAt(bars: seq<Kline>, period: nat, i: nat): real
    requires period > 0 && i < |bars|
  {
    if i < period then 0.0
    else if i == period then PerBar(RangesSum(bars, i), period)
    else Smooth(AtrAt(bars, period, i - 1), TrueRange(High(bars[i]), Low(bars[i]), Close(bars[i - 1])), period)
  }

  function RangesSum(bars: seq<Kline>, i: nat): real
    requires i < |bars|
  {
    if i == 0 then 0.0 else RangesSum(bars, i - 1) + TrueRange(High(bars[i]), Low(bars[i]), Close(bars[i - 1]))
  }

  lemma {:induction false} AtrStart(bars: seq<Kline>, period: nat)
    requires period > 0 && bars != []
    ensures AtrAt(bars, period, 0) == 0.0 && RangesSum(bars, 0) == 0.0
  {
  }

  lemma {:induction false} AtrSteps(bars: seq<Kline>, period: nat, i: nat)
    requires period > 0 && 1 <= i < |bars|
    ensures RangesSum(bars, i) == RangesSum(bars, i - 1) + TrueRange(High(bars[i]), Low(bars[i]), Close(bars[i - 1]))
    ensures i < period ==> AtrAt(bars, period, i) == 0.0
    ensures i == period ==> AtrAt(bars, period, i) == PerBar(RangesSum(bars, i), period)
    ensures i > period ==>
              AtrAt(bars, period, i) == Smooth(AtrAt(bars, period, i - 1), TrueRange(High(bars[i]), Low(bars[i]), Close(bars[i - 1])), period)
  {
  }

  predicate Complete(b: Kline) {
    b.high.Some? && b.low.Some? && b.close.Some?
  }

  datatype Atrs = AtrFailed | Atrs(values: seq<real>, start: int)

  /** The prices of bars that parse. */
  ghost function PricesOf(bars: seq<Kline>): (p: Supertrend.Prices)
    ensures p.Aligned() && |p.closes| == |bars|
  {
    Supertrend.Prices(seq(|bars|, i requires 0 <= i < |bars| => High(bars[i])), seq(|bars|, i requires 0 <= i < |bars| => Low(bars[i])),
                      seq(|bars|, i requires 0 <= i < |bars| => Close(bars[i])))
  }

  /** The sum the first average is taken of, and every later average, are those of the Supertrend's Wilder ATR on the same prices. */
  lemma {:induction false} AtrIsWilder(bars: seq<Kline>, period: nat, i: nat)
    requires 0 < period && i < |bars|
    ensures |Supertrend.TrueRanges(PricesOf(bars), |bars|)| == |bars|
    ensures RangesSum(bars, i) == RangeSum(Supertrend.TrueRanges(PricesOf(bars), |bars|), 1, i + 1)
    ensures i >= period ==> AtrAt(bars, period, i) == Supertrend.WilderAt(Supertrend.TrueRanges(PricesOf(bars), |bars|), period, i)
    decreases i
  {
    hide TrueRange, Smooth, PerBar, Supertrend.TrueRange, Supertrend.Smoothed;
    SameLengths(bars);
    if i > 0 {
      AtrIsWilder(bars, period, i - 1);
      SameRange(bars, i);
      AtrSteps(bars, period, i);
    }
    if i >= period {
      SameSmoothing(bars, period, i);
    }
  }

  lemma {:induction false} SameLengths(bars: seq<Kline>)
    ensures |Supertrend.TrueRanges(PricesOf(bars), |bars|)| == |bars|
  {
  }

  lemma {:induction false} SameRange(bars: seq<Kline>, i: nat)
    requires 1 <= i < |bars|
    ensures |Supertrend.TrueRanges(PricesOf(bars), |bars|)| == |bars|
    ensures Supertrend.TrueRanges(PricesOf(bars), |bars|)[i] == TrueRange(High(bars[i]), Low(bars[i]), Close(bars[i - 1]))
  {
    var p := PricesOf(bars);
    assert Supertrend.TrueRanges(p, |bars|)[i] == Supertrend.TrueRangeAt(p, i);
  }

  lemma {:induction false} SameSmoothing(bars: seq<Kline>, period: nat, i: nat)
    requires 0 < period <= i < |bars| == |Supertrend.TrueRanges(PricesOf(bars), |bars|)|
    requires i == period ==> RangesSum(bars, i) == RangeSum(Supertrend.TrueRanges(PricesOf(bars), |bars|), 1, i + 1)
    requires i > period ==> AtrAt(bars, period, i - 1) == Supertrend.WilderAt(Supertrend.TrueRanges(PricesOf(bars), |bars|), period, i - 1)
    ensures AtrAt(bars, period, i) == Supertrend.WilderAt(Supertrend.TrueRanges(PricesOf(bars), |bars|), period, i)
  {
    hide TrueRange, Supertrend.TrueRange, Supertrend.TrueRanges, PricesOf;
    AtrSteps(bars, period, i);
    Supertrend.WilderStep(Supertrend.TrueRanges(PricesOf(bars), |bars|), period, i);
    if i > period {
      SameRange(bars, i);
    }
  }

  /** The ATR of every bar from the bars up to it; a start of -1 when there are too few. */
  method CausalAtr(bars: seq<Kline>, period: int) returns (r: Atrs)
    requires period > 0 && bars != []
    ensures |bars| <= period ==> r == Atrs(seq(|bars|, _ => 0.0), -1)
    ensures |bars| > period ==> (r == AtrFailed <==> bars[0].close.None? || exists i :: 1 <= i < |bars| && !Complete(bars[i]))
    ensures |bars| > period && r.Atrs? ==> r.start == period && |r.values| == |bars| && forall i :: 0 <= i < |bars| ==>
         r.values[i] == AtrAt(bars, period, i)
  {
    hide TrueRange, RangesSum, AtrAt, Smooth, PerBar;
    AtrStart(bars, period);
    if |bars| <= period {
      return Atrs(seq(|bars|, _ => 0.0), -1);
    }
    if bars[0].close.None? {
      return AtrFailed;
    }
    var previousClose, current := bars[0].close.value, 0.0;
    var values := [0.0];
    for index := 1 to |bars|
      invariant previousClose == Close(bars[index - 1]) && forall i :: 1 <= i < index ==> Complete(bars[i])
      invariant current == if index <= period then RangesSum(bars, index - 1) else AtrAt(bars, period, index - 1)
      invariant |values| == index && forall i :: 0 <= i < index ==> values[i] == AtrAt(bars, period, i)
    {
      if bars[index].high.None? || bars[index].low.None? || bars[index].close.None? {
        return AtrFailed;
      }
      AtrSteps(bars, period, index);
      var trueRange := TrueRange(bars[index].high.value, bars[index].low.value, previousClose);
      var value := 0.0;
      if index <= period {
        current := current + trueRange;
        if index == period {
          current := PerBar(current, period);
          value := current;
        }
      } else {
        current := Smooth(current, trueRange, period);
        value := current;
      }
      values := values + [value];
      previousClose := bars[index].close.value;
    }
    r := Atrs(values, period);
  }

  /** No bars or too few give no points; a price that does not parse fails the whole detection. */
  method DetectSwingPoints(bars: seq<Kline>, c: Config) returns (r: Swings)
    requires ValidConfig(c)
    ensures bars == [] || (c.mode == AtrMode && |bars| <= c.atrPeriod) ==> r == Swings([])
    ensures c.mode == PointsMode && bars != [] ==> (r == Failed <==> bars[0].close.None? || !Parses(bars, 0))
    ensures c.mode == PointsMode && bars != [] && r.Swings? ==>
              && Detected(bars, c, seq(|bars|, _ => 0.0), 0, r.points)
              && exists ats, through, firstUp :: Zigzag(bars, c, r.points, ats, through, firstUp)
    ensures c.mode == AtrMode && |bars| > c.atrPeriod ==>
              (r == Failed <==> bars[0].close.None? || (exists i :: 1 <= i < |bars| && !Complete(bars[i]))
                                || bars[c.atrPeriod].close.None? || !Parses(bars, c.atrPeriod))
    ensures c.mode == AtrMode && |bars| > c.atrPeriod && r.Swings? ==>
              exists atrs :: |atrs| == |bars| && (forall i :: 0 <= i < |bars| ==> atrs[i] == AtrAt(bars, c.atrPeriod, i))
                && bars[c.atrPeriod].close.Some? && Detected(bars, c, atrs, c.atrPeriod, r.points)
  {
    hide Detected, Zigzag, AtrAt;
    if |bars| == 0 {
      return Swings([]);
    }
    if c.mode == AtrMode {
      var atrs := CausalAtr(bars, c.atrPeriod);
      if atrs.AtrFailed? {
        return Failed;
      }
      if atrs.start < 0 {
        return Swings([]);
      }
      r := Detect(bars, c, atrs.values, atrs.start);
    } else {
      var flat := seq(|bars|, _ => 0.0);
      r := Detect(bars, c, flat, 0);
      if r.Swings? {
        ghost var ats, through, firstUp := DetectedPointsZigzag(bars, c, flat, r.points);
      }
    }
  }
}
