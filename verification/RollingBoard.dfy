/**
 * A ring of twenty rows with one slot per key: every cell carries the generation of the row
 * that wrote it, so a cell left over from an older row never counts as part of the current
 * one.
 */
module RollingBoard {
  import opened Numeric

  const LOOKBACK: nat := 20

  datatype Slot<T> = Slot(values: seq<T>, generations: seq<nat>)

  datatype Board<T> = Board(indexes: map<string, nat>, slots: seq<Slot<T>>)

  predicate Shaped<T>(s: Slot<T>) {
    |s.values| == LOOKBACK && |s.generations| == LOOKBACK
  }

  /** Keys point at distinct, full-size slots. */
  ghost predicate Wired<T>(b: Board<T>) {
    && (forall k :: k in b.indexes ==> b.indexes[k] < |b.slots|)
    && (forall k, l :: k in b.indexes && l in b.indexes && b.indexes[k] == b.indexes[l] ==> k == l)
    && forall i :: 0 <= i < |b.slots| ==> Shaped(b.slots[i])
  }

  function WindowStart(n: nat): nat {
    if n < LOOKBACK then 0 else n - LOOKBACK
  }

  function Position(i: nat): (r: nat)
    ensures r < LOOKBACK
  {
    i % LOOKBACK
  }

  /** A slot against the rows so far: inside the window a cell carries a row's generation exactly when the row has the key. */
  ghost predicate SlotTells<T>(s: Slot<T>, rows: seq<map<string, T>>, key: string) {
    && Shaped(s)
    && (forall p :: 0 <= p < LOOKBACK ==> s.generations[p] <= |rows|)
    && forall i :: WindowStart(|rows|) <= i < |rows| ==>
         if key in rows[i] then s.generations[Position(i)] == i + 1 && s.values[Position(i)] == rows[i][key]
         else s.generations[Position(i)] != i + 1
  }

  ghost predicate BoardOk<T>(b: Board<T>, rows: seq<map<string, T>>) {
    && Wired(b)
    && (forall k :: k in b.indexes ==> SlotTells(b.slots[b.indexes[k]], rows, k))
    && forall i, k :: 0 <= i < |rows| && k in rows[i] ==> k in b.indexes
  }

  /** The generations of the rows in the window. */
  ghost predicate RowsTell(generations: seq<nat>, n: nat) {
    |generations| == LOOKBACK && forall i :: WindowStart(n) <= i < n ==> generations[Position(i)] == i + 1
  }

  lemma {:induction false} PositionsDiffer(i: nat, n: nat)
    requires n < i + LOOKBACK && i < n
    ensures Position(i) != Position(n)
  {
  }

  lemma {:induction false} RowsSnoc(generations: seq<nat>, n: nat)
    requires RowsTell(generations, n)
    ensures RowsTell(generations[Position(n) := n + 1], n + 1)
  {
  }

  lemma {:induction false} RowsShape(generations: seq<nat>, n: nat)
    requires RowsTell(generations, n)
    ensures |generations| == LOOKBACK && Position(n) < LOOKBACK
  {
  }

  function Put<T>(s: Slot<T>, position: nat, generation: nat, value: T): Slot<T>
    requires Shaped(s) && position < LOOKBACK
  {
    Slot(s.values[position := value], s.generations[position := generation])
  }

  lemma {:induction false} PutTells<T>(s: Slot<T>, rows: seq<map<string, T>>, row: map<string, T>, key: string)
    requires SlotTells(s, rows, key) && key in row
    ensures SlotTells(Put(s, Position(|rows|), |rows| + 1, row[key]), rows + [row], key)
  {
    hide Position;
    forall i | WindowStart(|rows| + 1) <= i < |rows| ensures Position(i) != Position(|rows|) {
      PositionsDiffer(i, |rows|);
    }
  }

  /** A row without the key leaves no trace: no older cell can carry the new generation. */
  lemma {:induction false} SkipTells<T>(s: Slot<T>, rows: seq<map<string, T>>, row: map<string, T>, key: string)
    requires SlotTells(s, rows, key) && key !in row
    ensures SlotTells(s, rows + [row], key)
  {
  }

  // ----- slots for new keys -----

  function Blank<T>(zero: T): Slot<T> {
    Slot(seq(LOOKBACK, _ => zero), seq(LOOKBACK, _ => 0))
  }

  /** A slot created late tells of rows that never had its key. */
  lemma {:induction false} BlankTells<T>(zero: T, rows: seq<map<string, T>>, key: string)
    requires forall i :: 0 <= i < |rows| ==> key !in rows[i]
    ensures SlotTells(Blank(zero), rows, key)
  {
  }

  function Ensured<T>(b: Board<T>, key: string, zero: T): Board<T> {
    if key in b.indexes then b else Board(b.indexes[key := |b.slots|], b.slots + [Blank(zero)])
  }

  lemma {:induction false} EnsuredOk<T>(b: Board<T>, rows: seq<map<string, T>>, key: string, zero: T)
    requires BoardOk(b, rows)
    ensures BoardOk(Ensured(b, key, zero), rows)
  {
    hide SlotTells;
    if key !in b.indexes {
      BlankTells(zero, rows, key);
    }
  }

  method EnsureSlot<T>(b: Board<T>, key: string, zero: T) returns (next: Board<T>, index: nat)
    ensures next == Ensured(b, key, zero)
    ensures key in next.indexes && index == next.indexes[key]
  {
    if key in b.indexes {
      return b, b.indexes[key];
    }
    index := |b.slots|;
    next := Board(b.indexes[key := index], b.slots + [Blank(zero)]);
  }

  // ----- writing a row -----

  function SlotOf<T>(b: Board<T>, key: string): Slot<T>
    requires Wired(b) && key in b.indexes
  {
    b.slots[b.indexes[key]]
  }

  /** after is before with the cells of `row` written. */
  ghost predicate Wrote<T>(before: Board<T>, after: Board<T>, row: map<string, T>, position: nat, generation: nat)
    requires position < LOOKBACK && Wired(before)
  {
    && Wired(after) && after.indexes == before.indexes
    && forall k :: k in before.indexes ==>
         SlotOf(after, k) == if k in row then Marked(before, k, position, generation, row[k]) else SlotOf(before, k)
  }

  function Marked<T>(b: Board<T>, key: string, position: nat, generation: nat, value: T): Slot<T>
    requires Wired(b) && key in b.indexes && position < LOOKBACK
  {
    Put(b.slots[b.indexes[key]], position, generation, value)
  }

  /** One cell of one key's slot. */
  function WithCell<T>(b: Board<T>, key: string, position: nat, generation: nat, value: T): Board<T>
    requires Wired(b) && key in b.indexes && position < LOOKBACK
  {
    b.(slots := b.slots[b.indexes[key] := Put(b.slots[b.indexes[key]], position, generation, value)])
  }

  lemma {:induction false} CellWritten<T>(before: Board<T>, b: Board<T>, key: string, position: nat, generation: nat, value: T)
    requires Wired(before) && Wired(b) && b.indexes == before.indexes && key in b.indexes && position < LOOKBACK
    requires SlotOf(b, key) == SlotOf(before, key)
    ensures var next := WithCell(b, key, position, generation, value);
            && Wired(next) && next.indexes == b.indexes
            && SlotOf(next, key) == Marked(before, key, position, generation, value)
            && forall k :: k in b.indexes && k != key ==> SlotOf(next, k) == SlotOf(b, k)
  {
  }

  lemma {:induction false} WroteOk<T>(before: Board<T>, after: Board<T>, rows: seq<map<string, T>>, row: map<string, T>)
    requires BoardOk(before, rows) && Wrote(before, after, row, Position(|rows|), |rows| + 1)
    requires forall k :: k in row ==> k in before.indexes
    ensures BoardOk(after, rows + [row])
  {
    hide SlotTells, Put, Position;
    forall k | k in after.indexes ensures SlotTells(after.slots[after.indexes[k]], rows + [row], k) {
      assert after.slots[after.indexes[k]] == SlotOf(after, k);
      if k in row {
        PutTells(before.slots[before.indexes[k]], rows, row, k);
      } else {
        SkipTells(before.slots[before.indexes[k]], rows, row, k);
      }
    }
  }

  /** Writes every item that has a slot. */
  method WriteItems<T(==)>(before: Board<T>, items: map<string, T>, position: nat, generation: nat) returns (after: Board<T>)
    requires position < LOOKBACK && Wired(before)
    ensures Wrote(before, after, items, position, generation)
  {
    hide Marked, Wired, SlotOf, WithCell;
    after := before;
    var left := items.Items;
    while left != {}
      invariant left <= items.Items && Wired(after)
      invariant after.indexes == before.indexes
      invariant forall k :: k in before.indexes ==>
        SlotOf(after, k)
        == if k in items && (k, items[k]) !in left then Marked(before, k, position, generation, items[k]) else SlotOf(before, k)
      decreases |left|
    {
      var item :| item in left;
      left := left - {item};
      if item.0 in after.indexes {
        CellWritten(before, after, item.0, position, generation, item.1);
        after := WithCell(after, item.0, position, generation, item.1);
      }
    }
  }

  // ----- reading a key back -----

  /** The values of a key over the rows that carry it. */
  function Collected<T>(rows: seq<map<string, T>>, key: string): seq<T> {
    if rows == [] then []
    else
      var rest, row := Collected(rows[..|rows| - 1], key), rows[|rows| - 1];
      if key in row then rest + [row[key]] else rest
  }

  lemma {:induction false} CollectedNothing<T>(rows: seq<map<string, T>>, key: string)
    requires forall i :: 0 <= i < |rows| ==> key !in rows[i]
    ensures Collected(rows, key) == []
    decreases |rows|
  {
    if rows != [] {
      CollectedNothing(rows[..|rows| - 1], key);
    }
  }

  lemma {:induction false} CollectedSnoc<T>(rows: seq<map<string, T>>, row: map<string, T>, key: string)
    ensures Collected(rows + [row], key) == if key in row then Collected(rows, key) + [row[key]] else Collected(rows, key)
  {
  }

  lemma {:induction false} CollectedStep<T>(rows: seq<map<string, T>>, lo: nat, i: nat, key: string)
    requires lo <= i < |rows|
    ensures Collected(rows[lo..i + 1], key) == if key in rows[i] then Collected(rows[lo..i], key) + [rows[i][key]]
         else Collected(rows[lo..i], key)
    ensures Collected(rows[lo..lo], key) == []
  {
    assert rows[lo..i + 1][..i - lo] == rows[lo..i];
  }

  /** Walking the ring from the oldest row, cells of the right generation only, collects the last twenty rows. */
  method ReadSlot<T>(slot: Slot<T>, rowGenerations: seq<nat>, next: nat, count: nat, ghost rows: seq<map<string, T>>, ghost key: string)
      returns (series: seq<T>)
    requires SlotTells(slot, rows, key) && RowsTell(rowGenerations, |rows|)
    requires next == Position(|rows|) && count == |rows| - WindowStart(|rows|)
    ensures series == Collected(rows[WindowStart(|rows|)..], key)
  {
    hide Position, Collected;
    series := [];
    ghost var lo := WindowStart(|rows|);
    var start: int := next as int - count;
    if start < 0 {
      start := start + LOOKBACK;
    }
    if rows != [] {
      CollectedStep(rows, lo, lo, key);
    } else {
      CollectedNothing(rows[lo..], key);
    }
    for offset := 0 to count
      invariant series == Collected(rows[lo..lo + offset], key)
    {
      RingPosition(|rows|, offset);
      CollectedStep(rows, lo, lo + offset, key);
      var position := (start + offset) % LOOKBACK;
      if slot.generations[position] == rowGenerations[position] {
        series := series + [slot.values[position]];
      }
    }
    assert rows[lo..lo + count] == rows[lo..];
  }

  lemma {:induction false} RingPosition(n: nat, offset: nat)
    requires offset < n - WindowStart(n)
    ensures var begin := Position(n) as int - (n - WindowStart(n));
            var start := if begin < 0 then begin + LOOKBACK else begin;
            start >= 0 && (start + offset) % LOOKBACK == Position(WindowStart(n) + offset)
  {
  }
}
