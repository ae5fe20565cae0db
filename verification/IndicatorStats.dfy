/**
 * Statistics of one indicator key over the points that carry it: the multi-pass form over a
 * collected series and the one-pass form over the points themselves.
 */
module IndicatorStats {
  import opened Numeric

  /** A snapshot's point; a value is what its text parses to. */
  datatype Point = Point(openTime: int, numeric: map<string, real>, values: map<string, Option<real>>, signals: map<string, string>)

  datatype Direction = Rising | Falling | Flat

  const EPSILON: real := 0.000000001

  function DirectionOf(change: real): Direction {
    if change > EPSILON then Rising else if change < -EPSILON then Falling else Flat
  }

  datatype NumericStats = NumericStats(
    count: nat, latest: real, previous: real, change: real, changePct: real, slope: real, direction: Direction,
    risingCount: nat, fallingCount: nat, stableCount: nat, minimum: real, maximum: real, rangePositionPct: real)

  // ----- what the statistics mean -----

  /** How many steps at the end of the series all go in a direction. */
  function Streak(s: seq<real>, d: Direction): (r: nat)
    ensures s != [] ==> r < |s|
  {
    if |s| < 2 then 0
    else if DirectionOf(s[|s| - 1] - s[|s| - 2]) == d then Streak(s[..|s| - 1], d) + 1
    else 0
  }

  function StepAt(s: seq<real>, i: nat): Direction
    requires 0 < i < |s|
  {
    DirectionOf(s[i] - s[i - 1])
  }

  /** The streak is the longest run of steps in that direction that ends the series. */
  lemma {:induction false} StreakIsLongestRun(s: seq<real>, d: Direction)
    ensures forall i :: |s| - Streak(s, d) <= i < |s| ==> StepAt(s, i) == d
    ensures 0 < |s| - 1 - Streak(s, d) ==> StepAt(s, |s| - 1 - Streak(s, d)) != d
    decreases |s|
  {
    hide DirectionOf;
    if |s| >= 2 {
      var rest := s[..|s| - 1];
      StreakIsLongestRun(rest, d);
      forall i | |s| - Streak(s, d) <= i < |s| ensures StepAt(s, i) == d {
        if i < |s| - 1 {
          assert StepAt(rest, i) == d;
        }
      }
      if 0 < |s| - 1 - Streak(s, d) < |s| - 1 {
        assert StepAt(rest, |rest| - 1 - Streak(rest, d)) != d;
      }
    }
  }

  function Pct(change: real, previous: real): real {
    if previous != 0.0 then change / Abs(previous) * 100.0 else 0.0
  }

  function SlopeOf(first: real, latest: real, count: nat): real {
    if count > 1 then (latest - first) / (count - 1) as real else 0.0
  }

  function PositionIn(latest: real, minimum: real, maximum: real): real {
    if maximum != minimum then (latest - minimum) / (maximum - minimum) * 100.0 else 0.0
  }

  function StatsOf(s: seq<real>): NumericStats
    requires s != []
  {
    var latest := s[|s| - 1];
    var previous := if |s| > 1 then s[|s| - 2] else latest;
    var low, high := RangeMin(s, 0, |s|), RangeMax(s, 0, |s|);
    NumericStats(|s|, latest, previous, latest - previous, Pct(latest - previous, previous), SlopeOf(s[0], latest, |s|),
                 DirectionOf(latest - previous), Streak(s, Rising), Streak(s, Falling), Streak(s, Flat), low, high,
                      PositionIn(latest, low, high))
  }

  // ----- the multi-pass form -----

  method ConsecutiveNumericCount(series: seq<real>, sign: int) returns (count: nat)
    ensures count == Streak(series, if sign > 0 then Rising else if sign < 0 then Falling else Flat)
  {
    hide DirectionOf;
    if |series| < 2 {
      return 0;
    }
    ghost var d := if sign > 0 then Rising else if sign < 0 then Falling else Flat;
    count := 0;
    var index := |series| - 1;
    assert series[..|series|] == series;
    while index > 0
      invariant 0 <= index < |series| && Streak(series, d) == count + Streak(series[..index + 1], d)
    {
      var direction := DirectionOf(series[index] - series[index - 1]);
      assert series[..index + 1][..index] == series[..index];
      if sign > 0 && direction != Rising {
        break;
      }
      if sign < 0 && direction != Falling {
        break;
      }
      if sign == 0 && direction != Flat {
        break;
      }
      count := count + 1;
      index := index - 1;
    }
  }

  method AnalyzeNumericSeries(series: seq<real>) returns (stats: NumericStats)
    requires series != []
    ensures stats == StatsOf(series)
  {
    hide Streak, DirectionOf;
    var latest := series[|series| - 1];
    var previous := latest;
    if |series| > 1 {
      previous := series[|series| - 2];
    }
    var minimum, maximum := ExtremesOf(series);
    var change := latest - previous;
    var changePct := 0.0;
    if previous != 0.0 {
      changePct := change / Abs(previous) * 100.0;
    }
    var slope := 0.0;
    if |series| > 1 {
      slope := (latest - series[0]) / (|series| - 1) as real;
    }
    var rangePosition := 0.0;
    if maximum != minimum {
      rangePosition := (latest - minimum) / (maximum - minimum) * 100.0;
    }
    var rising := ConsecutiveNumericCount(series, 1);
    var falling := ConsecutiveNumericCount(series, -1);
    var stable := ConsecutiveNumericCount(series, 0);
    stats := NumericStats(|series|, latest, previous, change, changePct, slope, DirectionOf(change), rising, falling, stable,
         minimum, maximum, rangePosition);
  }

  /** Both extremes in one loop that starts from the latest value. */
  method ExtremesOf(series: seq<real>) returns (minimum: real, maximum: real)
    requires series != []
    ensures minimum == RangeMin(series, 0, |series|) && maximum == RangeMax(series, 0, |series|)
  {
    hide RangeMin, RangeMax;
    var latest := series[|series| - 1];
    minimum, maximum := latest, latest;
    for index := 0 to |series|
      invariant forall i :: 0 <= i < index ==> minimum <= series[i] <= maximum
      invariant minimum <= latest <= maximum
      invariant exists i :: 0 <= i < |series| && series[i] == minimum
      invariant exists i :: 0 <= i < |series| && series[i] == maximum
    {
      minimum := Min(minimum, series[index]);
      maximum := Max(maximum, series[index]);
    }
    ExtremesUnique(series, minimum, maximum);
  }

  lemma {:induction false} ExtremesUnique(series: seq<real>, minimum: real, maximum: real)
    requires series != [] && forall i :: 0 <= i < |series| ==> minimum <= series[i] <= maximum
    requires (exists i :: 0 <= i < |series| && series[i] == minimum) && exists i :: 0 <= i < |series| && series[i] == maximum
    ensures minimum == RangeMin(series, 0, |series|) && maximum == RangeMax(series, 0, |series|)
  {
  }

  // ----- the points that carry a key -----

  function ValueOf(p: Point, key: string): Option<real> {
    if key in p.numeric then Some(p.numeric[key]) else if key in p.values then p.values[key] else None
  }

  function SignalOf(p: Point, key: string): Option<string> {
    if key in p.signals then Some(p.signals[key]) else None
  }

  /** The values of a key over the points that carry it, oldest first. */
  function SeriesOf(points: seq<Point>, key: string): seq<real> {
    if points == [] then []
    else
      var rest, v := SeriesOf(points[..|points| - 1], key), ValueOf(points[|points| - 1], key);
      if v.Some? then rest + [v.value] else rest
  }

  function SignalSeriesOf(points: seq<Point>, key: string): seq<string> {
    if points == [] then []
    else
      var rest, v := SignalSeriesOf(points[..|points| - 1], key), SignalOf(points[|points| - 1], key);
      if v.Some? then rest + [v.value] else rest
  }

  // ----- the one-pass form -----

  /** The running part of the statistics after a non-empty series. */
  ghost predicate Running(s: seq<real>, st: NumericStats, first: real) {
    && s != [] && st.count == |s| && first == s[0] && st.latest == s[|s| - 1]
    && (|s| > 1 ==> st.previous == s[|s| - 2])
    && st.minimum == RangeMin(s, 0, |s|) && st.maximum == RangeMax(s, 0, |s|)
    && st.risingCount == Streak(s, Rising) && st.fallingCount == Streak(s, Falling) && st.stableCount == Streak(s, Flat)
    && st.changePct == 0.0 && st.slope == 0.0 && st.rangePositionPct == 0.0
  }

  method NextStats(ghost s: seq<real>, st: NumericStats, first: real, value: real) returns (next: NumericStats)
    requires Running(s, st, first)
    ensures Running(s + [value], next, first)
  {
    hide Streak, RangeMin, RangeMax, DirectionOf;
    SeriesSnoc(s, value);
    next := st.(previous := st.latest, minimum := Min(st.minimum, value), maximum := Max(st.maximum, value));
    match DirectionOf(value - st.latest) {
      case Rising => next := next.(risingCount := next.risingCount + 1, fallingCount := 0, stableCount := 0);
      case Falling => next := next.(risingCount := 0, fallingCount := next.fallingCount + 1, stableCount := 0);
      case Flat => next := next.(risingCount := 0, fallingCount := 0, stableCount := next.stableCount + 1);
    }
    next := next.(latest := value, count := next.count + 1);
  }

  lemma {:induction false} SeriesSnoc(s: seq<real>, value: real)
    requires s != []
    ensures RangeMin(s + [value], 0, |s| + 1) == Min(RangeMin(s, 0, |s|), value)
    ensures RangeMax(s + [value], 0, |s| + 1) == Max(RangeMax(s, 0, |s|), value)
    ensures forall d :: Streak(s + [value], d) == if DirectionOf(value - s[|s| - 1]) == d then Streak(s, d) + 1 else 0
  {
    hide DirectionOf;
    assert (s + [value])[..|s|] == s;
    ExtremesSame(s, s + [value], |s|);
  }

  lemma {:induction false} ExtremesSame(s: seq<real>, t: seq<real>, n: nat)
    requires 0 < n <= |s| && n <= |t| && forall i :: 0 <= i < n ==> s[i] == t[i]
    ensures RangeMin(s, 0, n) == RangeMin(t, 0, n) && RangeMax(s, 0, n) == RangeMax(t, 0, n)
    decreases n
  {
  }

  lemma {:induction false} FirstValue(value: real, st: NumericStats)
    requires st == NumericStats(1, value, 0.0, 0.0, 0.0, 0.0, Flat, 0, 0, 0, value, value, 0.0)
    ensures Running([value], st, value)
  {
  }

  /** The one-pass form computes the statistics of the collected series. */
  method NumericStatsFromPoints(points: seq<Point>, key: string) returns (r: Option<NumericStats>)
    ensures r == if SeriesOf(points, key) == [] then None else Some(StatsOf(SeriesOf(points, key)))
  {
    hide Streak, RangeMin, RangeMax, DirectionOf, ValueOf, Running, StatsOf;
    var stats := NumericStats(0, 0.0, 0.0, 0.0, 0.0, 0.0, Flat, 0, 0, 0, 0.0, 0.0, 0.0);
    ghost var blank := stats;
    var first := 0.0;
    for index := 0 to |points|
      invariant stats.count == |SeriesOf(points[..index], key)|
      invariant if stats.count == 0 then stats == blank else Running(SeriesOf(points[..index], key), stats, first)
    {
      assert points[..index + 1][..index] == points[..index];
      var found := ValueOf(points[index], key);
      if found.Some? {
        var value := found.value;
        if stats.count == 0 {
          first := value;
          stats := stats.(minimum := value, maximum := value, latest := value, count := 1);
          FirstValue(value, stats);
          assert SeriesOf(points[..index], key) + [value] == [value];
        } else {
          stats := NextStats(SeriesOf(points[..index], key), stats, first, value);
        }
      }
      RunningCount(SeriesOf(points[..index + 1], key), stats, first);
    }
    assert points[..|points|] == points;
    if stats.count == 0 {
      return None;
    }
    stats := Settle(SeriesOf(points, key), stats, first);
    r := Some(stats);
  }

  lemma {:induction false} RunningCount(s: seq<real>, st: NumericStats, first: real)
    ensures Running(s, st, first) ==> st.count == |s| && s != []
  {
  }

  /** The derived fields, filled in once at the end. */
  method Settle(ghost s: seq<real>, running: NumericStats, first: real) returns (stats: NumericStats)
    requires Running(s, running, first)
    ensures stats == StatsOf(s)
  {
    hide Streak, RangeMin, RangeMax, DirectionOf;
    stats := running;
    if stats.count == 1 {
      stats := stats.(previous := stats.latest);
    }
    stats := stats.(change := stats.latest - stats.previous);
    if stats.previous != 0.0 {
      stats := stats.(changePct := stats.change / Abs(stats.previous) * 100.0);
    }
    if stats.count > 1 {
      stats := stats.(slope := (stats.latest - first) / (stats.count - 1) as real);
    }
    if stats.maximum != stats.minimum {
      stats := stats.(rangePositionPct := (stats.latest - stats.minimum) / (stats.maximum - stats.minimum) * 100.0);
    }
    stats := stats.(direction := DirectionOf(stats.change));
  }

  // ----- signals -----

  datatype SignalStats = SignalStats(count: nat, latest: string, previous: string, stableCount: nat, lastChangedAgo: nat)

  /** How many points at the end of the series carry the latest signal. */
  function StableRun(s: seq<string>): (r: nat)
    ensures r <= |s| && (s != [] ==> r >= 1)
  {
    if s == [] then 0
    else if |s| >= 2 && s[|s| - 1] == s[|s| - 2] then StableRun(s[..|s| - 1]) + 1
    else 1
  }

  /** The run is as long as possible: all of it is the latest signal and the point before, if any, is not. */
  lemma {:induction false} StableRunIsMaximal(s: seq<string>)
    requires s != []
    ensures forall i :: |s| - StableRun(s) <= i < |s| ==> s[i] == s[|s| - 1]
    ensures StableRun(s) < |s| ==> s[|s| - 1 - StableRun(s)] != s[|s| - 1]
    decreases |s|
  {
    if |s| >= 2 && s[|s| - 1] == s[|s| - 2] {
      StableRunIsMaximal(s[..|s| - 1]);
    }
  }

  /** Points since the signal last changed; the whole count when it never did, zero for a single point. */
  function ChangedAgo(s: seq<string>): nat {
    if |s| < 2 then 0 else StableRun(s)
  }

  function SignalStatsOf(s: seq<string>): SignalStats
    requires s != []
  {
    SignalStats(|s|, s[|s| - 1], if |s| > 1 then s[|s| - 2] else "", StableRun(s), ChangedAgo(s))
  }

  method StableSignalCount(series: seq<string>) returns (count: nat)
    ensures count == StableRun(series)
  {
    if |series| == 0 {
      return 0;
    }
    StableRunIsMaximal(series);
    var latest := series[|series| - 1];
    count := 0;
    var index := |series| - 1;
    while index >= 0
      invariant -1 <= index < |series| && count == |series| - 1 - index <= StableRun(series)
    {
      if series[index] != latest {
        break;
      }
      count := count + 1;
      index := index - 1;
    }
  }

  method LastSignalChangedAgo(series: seq<string>) returns (ago: nat)
    ensures ago == ChangedAgo(series)
  {
    if |series| < 2 {
      return 0;
    }
    StableRunIsMaximal(series);
    var latest := series[|series| - 1];
    var index := |series| - 2;
    while index >= 0
      invariant -1 <= index < |series| - 1 && |series| - 1 - index <= StableRun(series)
    {
      if series[index] != latest {
        return |series| - 1 - index;
      }
      index := index - 1;
    }
    ago := |series|;
  }

  method AnalyzeSignalSeries(series: seq<string>) returns (stats: SignalStats)
    requires series != []
    ensures stats == SignalStatsOf(series)
  {
    hide StableRun;
    var latest := series[|series| - 1];
    var previous := "";
    if |series| > 1 {
      previous := series[|series| - 2];
    }
    var stable := StableSignalCount(series);
    var ago := LastSignalChangedAgo(series);
    stats := SignalStats(|series|, latest, previous, stable, ago);
  }

  /** The running part of the signal statistics: until the first change the age counts one short. */
  ghost predicate SignalRunning(s: seq<string>, st: SignalStats, changed: bool) {
    && s != [] && st.count == |s| && st.latest == s[|s| - 1] && (|s| > 1 ==> st.previous == s[|s| - 2])
    && st.stableCount == StableRun(s) && changed == (StableRun(s) < |s|)
    && (changed ==> st.lastChangedAgo == StableRun(s))
  }

  lemma {:induction false} StableSnoc(s: seq<string>, value: string)
    ensures StableRun(s + [value]) == if s != [] && value == s[|s| - 1] then StableRun(s) + 1 else 1
  {
  }

  method SignalStatsFromPoints(points: seq<Point>, key: string) returns (r: Option<SignalStats>)
    ensures r == if SignalSeriesOf(points, key) == [] then None else Some(SignalStatsOf(SignalSeriesOf(points, key)))
  {
    hide StableRun, SignalOf;
    var stats := SignalStats(0, "", "", 0, 0);
    ghost var blank := stats;
    var changed := false;
    for index := 0 to |points|
      invariant stats.count == |SignalSeriesOf(points[..index], key)|
      invariant if stats.count == 0 then stats == blank && !changed else SignalRunning(SignalSeriesOf(points[..index], key), stats, changed)
    {
      assert points[..index + 1][..index] == points[..index];
      var found := SignalOf(points[index], key);
      if found.Some? {
        var value := found.value;
        StableSnoc(SignalSeriesOf(points[..index], key), value);
        stats := stats.(previous := stats.latest);
        if stats.count == 0 || value != stats.latest {
          stats := stats.(stableCount := 1);
          if stats.count > 0 {
            changed := true;
            stats := stats.(lastChangedAgo := 1);
          }
        } else {
          stats := stats.(stableCount := stats.stableCount + 1);
          if stats.count > 0 {
            stats := stats.(lastChangedAgo := stats.lastChangedAgo + 1);
          }
        }
        stats := stats.(latest := value, count := stats.count + 1);
      }
    }
    assert points[..|points|] == points;
    if stats.count == 0 {
      return None;
    }
    if stats.count < 2 {
      stats := stats.(previous := "", lastChangedAgo := 0);
    } else if !changed {
      stats := stats.(lastChangedAgo := stats.count);
    }
    r := Some(stats);
  }

  // ----- the statistics in terms of the values -----

  /** The step to value i rises, falls or stays, by more or not more than 0.000000001. */
  ghost predicate Goes(s: seq<real>, i: nat, d: Direction)
    requires 0 < i < |s|
  {
    match d
    case Rising => s[i] - s[i - 1] > 0.000000001
    case Falling => s[i - 1] - s[i] > 0.000000001
    case Flat => -0.000000001 <= s[i] - s[i - 1] <= 0.000000001
  }

  lemma {:induction false} StepGoes(s: seq<real>, i: nat, d: Direction)
    requires 0 < i < |s|
    ensures StepAt(s, i) == d <==> Goes(s, i, d)
  {
  }

  /** A streak counts the last steps that go one way, and the step before them does not. */
  lemma {:induction false} StreakCountsSteps(s: seq<real>, d: Direction)
    requires s != []
    ensures Streak(s, d) < |s|
    ensures forall i :: |s| - Streak(s, d) <= i < |s| ==> Goes(s, i, d)
    ensures Streak(s, d) + 1 < |s| ==> !Goes(s, |s| - 1 - Streak(s, d), d)
  {
    hide Goes, StepAt;
    var n := Streak(s, d);
    StreakIsLongestRun(s, d);
    forall i | |s| - n <= i < |s| ensures Goes(s, i, d) {
      StepGoes(s, i, d);
    }
    if n + 1 < |s| {
      StepGoes(s, |s| - 1 - n, d);
    }
  }

  /** Every statistic of a series, from its values alone. */
  lemma {:induction false} StatsSay(s: seq<real>)
    requires s != []
    ensures var st, n, latest := StatsOf(s), |s|, s[|s| - 1];
            && st.count == n && st.latest == latest && st.previous == (if n > 1 then s[n - 2] else latest)
            && st.change == latest - st.previous
            && (if st.previous == 0.0 then st.changePct == 0.0
                else st.changePct * (if st.previous > 0.0 then st.previous else -st.previous) == 100.0 * st.change)
            && (if n == 1 then st.slope == 0.0 else st.slope * (n - 1) as real == latest - s[0])
            && (st.direction == Rising <==> st.change > 0.000000001) && (st.direction == Falling <==> -st.change > 0.000000001)
            && (forall i :: 0 <= i < n ==> st.minimum <= s[i] <= st.maximum) && st.minimum in s && st.maximum in s
            && 0.0 <= st.rangePositionPct <= 100.0 && (st.minimum == st.maximum ==> st.rangePositionPct == 0.0)
            && st.rangePositionPct * (st.maximum - st.minimum) == 100.0 * (latest - st.minimum)
  {
    hide Streak, RangeMin, RangeMax;
    var latest, n := s[|s| - 1], |s|;
    var previous := if n > 1 then s[n - 2] else latest;
    var low, high := RangeMin(s, 0, n), RangeMax(s, 0, n);
    PctSays(latest - previous, previous);
    SlopeSays(s[0], latest, n);
    PositionSays(latest, low, high);
  }

  lemma {:induction false} PctSays(change: real, previous: real)
    ensures if previous == 0.0 then Pct(change, previous) == 0.0
            else Pct(change, previous) * (if previous > 0.0 then previous else -previous) == 100.0 * change
  {
    if previous != 0.0 {
      assert change / Abs(previous) * Abs(previous) == change;
    }
  }

  lemma {:induction false} SlopeSays(first: real, latest: real, count: nat)
    ensures if count <= 1 then SlopeOf(first, latest, count) == 0.0 else SlopeOf(first, latest, count) * (count - 1) as real == latest - first
  {
  }

  lemma {:induction false} PositionSays(latest: real, minimum: real, maximum: real)
    requires minimum <= latest <= maximum
    ensures 0.0 <= PositionIn(latest, minimum, maximum) <= 100.0
    ensures PositionIn(latest, minimum, maximum) * (maximum - minimum) == 100.0 * (latest - minimum)
  {
    if maximum != minimum {
      var q := (latest - minimum) / (maximum - minimum);
      assert q * (maximum - minimum) == latest - minimum;
      ShareInUnit(latest - minimum, maximum - minimum);
    }
  }

  lemma {:induction false} ShareInUnit(part: real, whole: real)
    requires 0.0 <= part <= whole && whole > 0.0
    ensures 0.0 <= part / whole <= 1.0
  {
  }

  /** What a point adds to the series of a key: its typed value, else its parsed text, else nothing. */
  lemma {:induction false} SeriesTakes(points: seq<Point>, p: Point, key: string)
    ensures SeriesOf(points + [p], key) == SeriesOf(points, key)
         + (if key in p.numeric then [p.numeric[key]] else if key in p.values && p.values[key].Some? then [p.values[key].value] else [])
    ensures SignalSeriesOf(points + [p], key) == SignalSeriesOf(points, key) + (if key in p.signals then [p.signals[key]] else [])
    ensures SeriesOf([], key) == [] && SignalSeriesOf([], key) == []
  {
    assert (points + [p])[..|points|] == points;
  }

  /** The signal statistics from the signals alone: how long the latest has stood, and how many points ago it came. */
  lemma {:induction false} SignalStatsSay(s: seq<string>)
    requires s != []
    ensures var st, n, latest := SignalStatsOf(s), |s|, s[|s| - 1];
            && st.count == n && st.latest == latest && st.previous == (if n > 1 then s[n - 2] else "")
            && 1 <= st.stableCount <= n && (forall i :: n - st.stableCount <= i < n ==> s[i] == latest)
            && (st.stableCount < n ==> s[n - 1 - st.stableCount] != latest)
            && st.lastChangedAgo == (if n == 1 then 0 else st.stableCount)
  {
    StableRunIsMaximal(s);
  }
}
