/**
 * Fixed arrays that hold the newest values of a stream: by shifting everything
 * down one place, or as a ring written at position (count modulo length).
 */
module TailBuffer {

  /** The last n values, or all of them if there are fewer. */
  function Tail<T>(s: seq<T>, n: nat): (r: seq<T>)
    ensures |r| == if |s| <= n then |s| else n
  {
    if |s| <= n then s else s[|s| - n..]
  }

  lemma {:induction false} TailSnoc<T>(s: seq<T>, n: nat, x: T)
    requires 1 <= n
    ensures Tail(Tail(s, n) + [x], n) == Tail(s + [x], n)
  {
  }

  /** Append while there is room, otherwise shift out the oldest value. */
  method ShiftIn(buffer: array<real>, count: nat, next: real) returns (newCount: nat)
    requires count <= buffer.Length && 1 <= buffer.Length
    modifies buffer
    ensures newCount <= buffer.Length && buffer[..newCount] == Tail(old(buffer[..count]) + [next], buffer.Length)
  {
    ghost var before := buffer[..count];
    if count < buffer.Length {
      buffer[count] := next;
      assert buffer[..count + 1] == before + [next];
      return count + 1;
    }
    forall k | 0 <= k < buffer.Length - 1 {
      buffer[k] := buffer[k + 1];
    }
    buffer[buffer.Length - 1] := next;
    assert buffer[..count] == (before + [next])[1..];
    return count;
  }

  // ----- rings -----

  /** Position (i modulo length) of the ring holds value number i for the newest values. */
  ghost predicate RingHolds(ring: seq<real>, values: seq<real>)
    requires 1 <= |ring|
  {
    forall i :: 0 <= i < |values| && |values| - |ring| <= i ==> ring[i % |ring|] == values[i]
  }

  lemma {:induction false} AtLeastOneTimes(n: nat, a: nat)
    requires 1 <= a
    ensures n <= n * a
    decreases a
  {
  }

  lemma {:induction false} LargerQuotient(n: nat, q: int, r: nat, q': int, r': nat)
    requires r' < n && q > q'
    ensures n * q + r > n * q' + r'
  {
    AtLeastOneTimes(n, q - q');
    assert n * (q - q') == n * q - n * q';
  }

  lemma {:induction false} RemainderUnique(n: nat, q: int, r: nat, q': int, r': nat)
    requires r < n && r' < n && n * q + r == n * q' + r'
    ensures r == r'
  {
    if q > q' {
      LargerQuotient(n, q, r, q', r');
    } else if q < q' {
      LargerQuotient(n, q', r', q, r);
    }
  }

  lemma {:induction false} DivMod(i: nat, n: nat)
    requires 1 <= n
    ensures i == n * (i / n) + i % n && 0 <= i % n < n
  {
  }

  /** The slot after a slot, without a division. */
  lemma {:induction false} NextSlot(i: nat, n: nat)
    requires 1 <= n
    ensures (i + 1) % n == if i % n + 1 == n then 0 else i % n + 1
  {
    DivMod(i, n);
    DivMod(i + 1, n);
    var q, r := i / n, i % n;
    if r + 1 == n {
      assert n * (q + 1) == n * q + n;
      RemainderUnique(n, q + 1, 0, (i + 1) / n, (i + 1) % n);
    } else {
      RemainderUnique(n, q, r + 1, (i + 1) / n, (i + 1) % n);
    }
  }

  lemma {:induction false} SlotAfter(i: nat, d: nat, n: nat)
    requires 1 <= n && d < n
    ensures (i + d) % n == if i % n + d < n then i % n + d else i % n + d - n
    decreases d
  {
    if d > 0 {
      SlotAfter(i, d - 1, n);
      NextSlot(i + d - 1, n);
    }
  }

  lemma {:induction false} SlotsDiffer(i: nat, j: nat, n: nat)
    requires 1 <= n && i < j < i + n
    ensures i % n != j % n
  {
    SlotAfter(i, j - i, n);
  }

  lemma {:induction false} RingHoldsAt(ring: seq<real>, values: seq<real>, i: nat)
    requires 1 <= |ring| && RingHolds(ring, values) && |values| - |ring| <= i < |values|
    ensures 0 <= i % |ring| < |ring| && ring[i % |ring|] == values[i]
  {
  }

  /** Writing the next value into its slot overwrites only the value that leaves the window. */
  lemma {:induction false} RingSnoc(ring: seq<real>, values: seq<real>, next: real)
    requires 1 <= |ring| && RingHolds(ring, values)
    ensures RingHolds(ring[|values| % |ring| := next], values + [next])
  {
    var n, written, whole := |ring|, ring[|values| % |ring| := next], values + [next];
    forall i | 0 <= i < |whole| && |whole| - n <= i
      ensures written[i % n] == whole[i]
    {
      if i < |values| {
        SlotsDiffer(i, |values|, n);
      }
    }
  }
}
