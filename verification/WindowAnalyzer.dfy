/**
 * The ordered window analyzer: a sliding list of points and a generation-tagged ring that
 * must answer every key as a scan of the last twenty points would.
 */
module WindowAnalyzer {
  import opened Numeric
  import opened IndicatorStats
  import opened RollingBoard

  // ----- a point's rows -----

  /** The numeric cells a point writes: typed values first, then texts that parse. */
  function NumericRow(p: Point): map<string, real> {
    map k | k in p.numeric.Keys + p.values.Keys && ValueOf(p, k).Some? :: ValueOf(p, k).value
  }

  function NumericRows(points: seq<Point>): (r: seq<map<string, real>>)
    ensures |r| == |points| && forall i :: 0 <= i < |points| ==> r[i] == NumericRow(points[i])
  {
    if points == [] then [] else NumericRows(points[..|points| - 1]) + [NumericRow(points[|points| - 1])]
  }

  function SignalRows(points: seq<Point>): (r: seq<map<string, string>>)
    ensures |r| == |points| && forall i :: 0 <= i < |points| ==> r[i] == points[i].signals
  {
    if points == [] then [] else SignalRows(points[..|points| - 1]) + [points[|points| - 1].signals]
  }

  lemma {:induction false} NumericRowAt(p: Point, key: string)
    ensures key in NumericRow(p) <==> ValueOf(p, key).Some?
    ensures key in NumericRow(p) ==> NumericRow(p)[key] == ValueOf(p, key).value
  {
  }

  lemma {:induction false} RowsSnocs(points: seq<Point>, p: Point)
    ensures NumericRows(points + [p]) == NumericRows(points) + [NumericRow(p)]
    ensures SignalRows(points + [p]) == SignalRows(points) + [p.signals]
  {
  }

  /** Collecting a key from the rows is collecting it from the points. */
  lemma {:induction false} CollectedSeries(points: seq<Point>, key: string)
    ensures Collected(NumericRows(points), key) == SeriesOf(points, key)
    ensures Collected(SignalRows(points), key) == SignalSeriesOf(points, key)
    decreases |points|
  {
    hide NumericRow, ValueOf, NumericRows, SignalRows, Collected;
    if points == [] {
      NoRows(key);
    } else {
      var rest, p := points[..|points| - 1], points[|points| - 1];
      assert points == rest + [p];
      CollectedSeries(rest, key);
      NumericRowAt(p, key);
      RowsSnocs(rest, p);
      CollectedSnoc(NumericRows(rest), NumericRow(p), key);
      CollectedSnoc(SignalRows(rest), p.signals, key);
    }
  }

  lemma {:induction false} NoRows(key: string)
    ensures Collected(NumericRows([]), key) == [] && Collected(SignalRows([]), key) == []
  {
  }

  lemma {:induction false} RowsOfTail(points: seq<Point>, lo: nat)
    requires lo <= |points|
    ensures NumericRows(points)[lo..] == NumericRows(points[lo..]) && SignalRows(points)[lo..] == SignalRows(points[lo..])
  {
  }

  /** The twenty last points, or all of them. */
  function LastPoints(points: seq<Point>): seq<Point> {
    if |points| <= 20 then points else points[|points| - 20..]
  }

  // ----- the ring -----

  class RollingWindow {
    var numeric: Board<real>
    var signal: Board<string>
    var rowGenerations: seq<nat>
    var next: nat
    var count: nat
    var generation: nat
    ghost var points: seq<Point>

    ghost predicate Rows()
      reads `rowGenerations, `next, `count, `generation, `points
    {
      && RowsTell(rowGenerations, |points|)
      && generation == |points| && next == Position(|points|) && count == |points| - WindowStart(|points|)
    }

    ghost predicate Valid()
      reads this
    {
      Rows() && BoardOk(numeric, NumericRows(points)) && BoardOk(signal, SignalRows(points))
    }

    constructor ()
      ensures Valid() && points == [] && numeric.indexes == map[] && signal.indexes == map[]
    {
      numeric, signal := Board(map[], []), Board(map[], []);
      rowGenerations, next, count, generation := seq(LOOKBACK, _ => 0), 0, 0, 0;
      points := [];
    }

    method EnsureNumericSlot(key: string) returns (index: nat)
      requires Valid()
      modifies `numeric
      ensures Valid() && numeric == Ensured(old(numeric), key, 0.0) && key in numeric.indexes && index == numeric.indexes[key]
    {
      hide BoardOk, NumericRows, SignalRows, Ensured, RowsTell;
      EnsuredOk(numeric, NumericRows(points), key, 0.0);
      numeric, index := EnsureSlot(numeric, key, 0.0);
    }

    method EnsureSignalSlot(key: string) returns (index: nat)
      requires Valid()
      modifies `signal
      ensures Valid() && signal == Ensured(old(signal), key, "") && key in signal.indexes && index == signal.indexes[key]
    {
      hide BoardOk, NumericRows, SignalRows, Ensured, RowsTell;
      EnsuredOk(signal, SignalRows(points), key, "");
      signal, index := EnsureSlot(signal, key, "");
    }

    /** Writes one row into every slot that has its key. */
    method Append(current: Point)
      requires Valid()
      requires forall k :: k in NumericRow(current) ==> k in numeric.indexes
      requires forall k :: k in current.signals ==> k in signal.indexes
      modifies this
      ensures Valid() && points == old(points) + [current]
      ensures numeric.indexes == old(numeric.indexes) && signal.indexes == old(signal.indexes)
    {
      hide BoardOk, NumericRow, NumericRows, SignalRows, RowsTell, Position;
      var written, marked := WriteRow(current);
      RowsSnocs(points, current);
      RowsSnoc(rowGenerations, |points|);
      RowsShape(rowGenerations, |points|);
      NextPosition(|points|);
      ghost var seen := points + [current];
      var tagged := rowGenerations[next := generation + 1];
      var following := (next + 1) % LOOKBACK;
      var filled := if count < LOOKBACK then count + 1 else count;
      generation, rowGenerations, next, count := generation + 1, tagged, following, filled;
      numeric, signal, points := written, marked, seen;
    }

    /** The boards with the next row's cells written. */
    method WriteRow(current: Point) returns (written: Board<real>, marked: Board<string>)
      requires Valid()
      requires forall k :: k in NumericRow(current) ==> k in numeric.indexes
      requires forall k :: k in current.signals ==> k in signal.indexes
      ensures BoardOk(written, NumericRows(points) + [NumericRow(current)]) && BoardOk(marked, SignalRows(points) + [current.signals])
      ensures written.indexes == numeric.indexes && marked.indexes == signal.indexes
    {
      hide SlotTells, NumericRow, NumericRows, SignalRows, RowsTell, Position, SlotOf, Marked;
      RowsLength(points);
      RowsShape(rowGenerations, |points|);
      var typed := WriteItems(numeric, current.numeric, next, generation + 1);
      written := WriteValues(numeric, typed, current, next, generation + 1);
      marked := WriteItems(signal, current.signals, next, generation + 1);
      WroteOk(numeric, written, NumericRows(points), NumericRow(current));
      WroteOk(signal, marked, SignalRows(points), current.signals);
    }

    /** A key's statistics from the ring are those of a scan of the last twenty points. */
    method NumericStatsOf(key: string) returns (r: Option<NumericStats>)
      requires Valid()
      ensures var s := SeriesOf(LastPoints(points), key);
              r == if s == [] then None else Some(StatsOf(s))
    {
      hide SlotTells, NumericRows, SignalRows, RowsTell, Position, StatsOf, Collected;
      CollectedSeries(LastPoints(points), key);
      RowsOfTail(points, WindowStart(|points|));
      RowsLength(points);
      if key !in numeric.indexes || count == 0 {
        UnknownNumeric(numeric, points, key);
        return None;
      }
      var series := ReadSlot(numeric.slots[numeric.indexes[key]], rowGenerations, next, count, NumericRows(points), key);
      if |series| == 0 {
        return None;
      }
      var stats := AnalyzeNumericSeries(series);
      r := Some(stats);
    }

    method SignalStatsFor(key: string) returns (r: Option<SignalStats>)
      requires Valid()
      ensures var s := SignalSeriesOf(LastPoints(points), key);
              r == if s == [] then None else Some(SignalStatsOf(s))
    {
      hide SlotTells, NumericRows, SignalRows, RowsTell, Position, SignalStatsOf, Collected;
      CollectedSeries(LastPoints(points), key);
      RowsOfTail(points, WindowStart(|points|));
      RowsLength(points);
      if key !in signal.indexes || count == 0 {
        UnknownSignal(signal, points, key);
        return None;
      }
      var series := ReadSlot(signal.slots[signal.indexes[key]], rowGenerations, next, count, SignalRows(points), key);
      if |series| == 0 {
        return None;
      }
      var stats := AnalyzeSignalSeries(series);
      r := Some(stats);
    }
  }

  lemma {:induction false} RowsLength(points: seq<Point>)
    ensures |NumericRows(points)| == |points| && |SignalRows(points)| == |points|
  {
  }

  lemma {:induction false} NextPosition(n: nat)
    ensures (Position(n) + 1) % LOOKBACK == Position(n + 1)
    ensures n + 1 - WindowStart(n + 1) == if n - WindowStart(n) < LOOKBACK then n - WindowStart(n) + 1 else n - WindowStart(n)
  {
  }

  /** No point of the window carries a key that has no slot. */
  lemma {:induction false} UnknownNumeric(b: Board<real>, points: seq<Point>, key: string)
    requires BoardOk(b, NumericRows(points)) && (key !in b.indexes || points == [])
    ensures Collected(NumericRows(points)[WindowStart(|points|)..], key) == []
  {
    hide SlotTells, NumericRow;
    CollectedNothing(NumericRows(points)[WindowStart(|points|)..], key);
  }

  lemma {:induction false} UnknownSignal(b: Board<string>, points: seq<Point>, key: string)
    requires BoardOk(b, SignalRows(points)) && (key !in b.indexes || points == [])
    ensures Collected(SignalRows(points)[WindowStart(|points|)..], key) == []
  {
    hide SlotTells;
    CollectedNothing(SignalRows(points)[WindowStart(|points|)..], key);
  }

  /** What the two loops of a row write for a key, while some texts are still left. */
  function CellFor(current: Point, left: set<(string, Option<real>)>, key: string): Option<real> {
    if key in current.numeric then Some(current.numeric[key])
    else if key in current.values && (key, current.values[key]) !in left then current.values[key]
    else None
  }

  lemma {:induction false} CellForNext(current: Point, left: set<(string, Option<real>)>, item: (string, Option<real>), key: string)
    requires item in left && left <= current.values.Items
    ensures CellFor(current, left - {item}, key)
         == if key == item.0 && key !in current.numeric then item.1 else CellFor(current, left, key)
  {
  }

  /** The second loop of a row: texts of keys that have no typed value, when they parse. */
  method WriteValues(ghost before: Board<real>, typed: Board<real>, current: Point, position: nat, generation: nat) returns (after: Board<real>)
    requires position < LOOKBACK && Wired(before) && Wrote(before, typed, current.numeric, position, generation)
    ensures Wrote(before, after, NumericRow(current), position, generation)
  {
    hide Marked, Wired, SlotOf, WithCell, NumericRow, CellFor;
    after := typed;
    var left := current.values.Items;
    forall k ensures CellFor(current, left, k) == if k in current.numeric then Some(current.numeric[k]) else None {
      NothingYet(current, k);
    }
    while left != {}
      invariant left <= current.values.Items && Wired(after)
      invariant after.indexes == before.indexes
      invariant forall k :: k in before.indexes ==>
        SlotOf(after, k)
        == if CellFor(current, left, k).Some? then Marked(before, k, position, generation, CellFor(current, left, k).value)
             else SlotOf(before, k)
      decreases |left|
    {
      var item :| item in left;
      forall k ensures CellFor(current, left - {item}, k) == if k == item.0 && k !in current.numeric then item.1 else CellFor(current, left, k) {
        CellForNext(current, left, item, k);
      }
      NotYet(current, left, item);
      left := left - {item};
      if item.0 !in current.numeric && item.0 in after.indexes && item.1.Some? {
        CellWritten(before, after, item.0, position, generation, item.1.value);
        after := WithCell(after, item.0, position, generation, item.1.value);
      }
    }
    forall k ensures CellFor(current, {}, k) == if k in NumericRow(current) then Some(NumericRow(current)[k]) else None {
      AllWritten(current, k);
    }
  }

  lemma {:induction false} NothingYet(current: Point, key: string)
    ensures CellFor(current, current.values.Items, key) == if key in current.numeric then Some(current.numeric[key]) else None
  {
  }

  lemma {:induction false} NotYet(current: Point, left: set<(string, Option<real>)>, item: (string, Option<real>))
    requires item in left && left <= current.values.Items
    ensures item.0 !in current.numeric ==> CellFor(current, left, item.0) == None
  {
  }

  lemma {:induction false} AllWritten(current: Point, key: string)
    ensures CellFor(current, {}, key) == if key in NumericRow(current) then Some(NumericRow(current)[key]) else None
  {
  }

  // ----- the analyzer -----

  ghost predicate Increasing(points: seq<Point>) {
    forall i, j :: 0 <= i < j < |points| ==> points[i].openTime < points[j].openTime
  }

  lemma {:induction false} IncreasingSnoc(points: seq<Point>, p: Point)
    requires Increasing(points) && (points != [] ==> points[|points| - 1].openTime < p.openTime)
    ensures Increasing(points + [p])
  {
  }

  class OrderedAnalyzer {
    const rolling: RollingWindow
    var points: seq<Point>
    var numericSeen: set<string>
    var signalSeen: set<string>
    var lastOpenTime: int
    var hasLast: bool
    ghost var accepted: seq<Point>

    ghost predicate Seen()
      reads this, rolling
    {
      && (forall k :: k in numericSeen <==> k in rolling.numeric.indexes)
      && forall k :: k in signalSeen <==> k in rolling.signal.indexes
    }

    /** The analyzer holds the last twenty accepted points, in strictly increasing time, and its ring has seen them all. */
    ghost predicate Valid()
      reads this, rolling
    {
      && rolling.Valid() && rolling.points == accepted && Seen()
      && points == LastPoints(accepted)
      && hasLast == (accepted != []) && (hasLast ==> lastOpenTime == accepted[|accepted| - 1].openTime)
      && Increasing(accepted)
    }

    constructor ()
      ensures Valid() && fresh(rolling) && accepted == []
    {
      rolling := new RollingWindow();
      points, numericSeen, signalSeen := [], {}, {};
      lastOpenTime, hasLast, accepted := 0, false, [];
    }

    /** A snapshot that is not newer is refused and changes nothing; any other is appended. */
    method AppendTyped(current: Point) returns (failed: bool)
      requires Valid()
      modifies this, rolling
      ensures Valid()
      ensures failed <==> old(accepted) != [] && current.openTime <= old(accepted)[|old(accepted)| - 1].openTime
      ensures failed ==> unchanged(this) && unchanged(rolling)
      ensures !failed ==> accepted == old(accepted) + [current]
    {
      hide RollingWindow.Valid, Increasing, LastPoints, NumericRow;
      if hasLast && current.openTime <= lastOpenTime {
        return true;
      }
      failed := false;
      SlideWindow(accepted, current);
      IncreasingSnoc(accepted, current);
      UpdateKeys(current);
      rolling.Append(current);
      Remember(current);
    }

    method Remember(current: Point)
      modifies `points, `lastOpenTime, `hasLast, `accepted
      ensures accepted == old(accepted) + [current] && hasLast && lastOpenTime == current.openTime
      ensures points == if |old(points)| == LOOKBACK then old(points)[1..] + [current] else old(points) + [current]
    {
      lastOpenTime, hasLast := current.openTime, true;
      if |points| == LOOKBACK {
        points := points[1..] + [current];
      } else {
        points := points + [current];
      }
      accepted := accepted + [current];
    }

    /** Every key the point carries gets a slot; no other key does. */
    method UpdateKeys(current: Point)
      requires rolling.Valid() && Seen()
      modifies `numericSeen, `signalSeen, rolling`numeric, rolling`signal
      ensures rolling.Valid() && Seen()
      ensures forall k :: k in NumericRow(current) ==> k in rolling.numeric.indexes
      ensures forall k :: k in current.signals ==> k in rolling.signal.indexes
    {
      hide RollingWindow.Rows, BoardOk, NumericRows, SignalRows, NumericRow;
      SeeTyped(current);
      SeeTexts(current);
      SeeSignals(current);
      forall k | k in NumericRow(current) ensures k in rolling.numeric.indexes {
        NumericRowAt(current, k);
      }
    }

    method SeeTyped(current: Point)
      requires rolling.Valid() && Seen()
      modifies `numericSeen, rolling`numeric
      ensures rolling.Valid() && Seen()
      ensures forall k :: k in current.numeric ==> k in numericSeen
      ensures forall k :: k in old(numericSeen) ==> k in numericSeen
    {
      hide RollingWindow.Rows, BoardOk, NumericRows, SignalRows;
      var left := current.numeric.Items;
      while left != {}
        invariant left <= current.numeric.Items && rolling.Valid() && Seen()
        invariant forall k :: k in current.numeric ==> (k, current.numeric[k]) in left || k in numericSeen
        invariant forall k :: k in old(numericSeen) ==> k in numericSeen
        decreases |left|
      {
        var item :| item in left;
        left := left - {item};
        if item.0 !in numericSeen {
          numericSeen := numericSeen + {item.0};
          var _ := rolling.EnsureNumericSlot(item.0);
        }
      }
    }

    method SeeTexts(current: Point)
      requires rolling.Valid() && Seen()
      modifies `numericSeen, rolling`numeric
      ensures rolling.Valid() && Seen()
      ensures forall k :: k in current.values && k !in current.numeric && current.values[k].Some? ==> k in numericSeen
      ensures forall k :: k in old(numericSeen) ==> k in numericSeen
    {
      hide RollingWindow.Rows, BoardOk, NumericRows, SignalRows;
      var left := current.values.Items;
      while left != {}
        invariant left <= current.values.Items && rolling.Valid() && Seen()
        invariant forall k :: k in current.values && k !in current.numeric && current.values[k].Some? ==>
             (k, current.values[k]) in left || k in numericSeen
        invariant forall k :: k in old(numericSeen) ==> k in numericSeen
        decreases |left|
      {
        var item :| item in left;
        left := left - {item};
        if item.0 !in current.numeric && item.0 !in numericSeen && item.1.Some? {
          numericSeen := numericSeen + {item.0};
          var _ := rolling.EnsureNumericSlot(item.0);
        }
      }
    }

    method SeeSignals(current: Point)
      requires rolling.Valid() && Seen()
      modifies `signalSeen, rolling`signal
      ensures rolling.Valid() && Seen()
      ensures forall k :: k in current.signals ==> k in signalSeen
    {
      hide RollingWindow.Rows, BoardOk, NumericRows, SignalRows;
      var left := current.signals.Items;
      while left != {}
        invariant left <= current.signals.Items && rolling.Valid() && Seen()
        invariant forall k :: k in current.signals ==> (k, current.signals[k]) in left || k in signalSeen
        decreases |left|
      {
        var item :| item in left;
        left := left - {item};
        if item.0 !in signalSeen {
          signalSeen := signalSeen + {item.0};
          var _ := rolling.EnsureSignalSlot(item.0);
        }
      }
    }

    /** The ring and a scan of the held points give the same statistics for every key. */
    method AddNumeric(key: string) returns (ring: Option<NumericStats>, scan: Option<NumericStats>)
      requires Valid()
      ensures ring == scan
      ensures var s := SeriesOf(LastPoints(accepted), key);
              ring == if s == [] then None else Some(StatsOf(s))
    {
      hide StatsOf, SeriesOf;
      ring := rolling.NumericStatsOf(key);
      scan := NumericStatsFromPoints(points, key);
    }

    method AddSignals(key: string) returns (ring: Option<SignalStats>, scan: Option<SignalStats>)
      requires Valid()
      ensures ring == scan
      ensures var s := SignalSeriesOf(LastPoints(accepted), key);
              ring == if s == [] then None else Some(SignalStatsOf(s))
    {
      hide SignalStatsOf, SignalSeriesOf;
      ring := rolling.SignalStatsFor(key);
      scan := SignalStatsFromPoints(points, key);
    }
  }

  /** Shifting the oldest point out keeps the last twenty. */
  lemma {:induction false} SlideWindow(accepted: seq<Point>, current: Point)
    ensures var held := LastPoints(accepted);
            LastPoints(accepted + [current]) == if |held| == LOOKBACK then held[1..] + [current] else held + [current]
  {
  }
}
