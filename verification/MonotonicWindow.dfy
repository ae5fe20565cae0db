/**
 * The sliding-extreme deque: a fixed array of 256 slots with a head and a tail,
 * kept strictly monotone so that the head is the extreme of the window.
 */
module MonotonicWindow {
  import opened Numeric

  const CAPACITY: nat := 256

  datatype Entry = Entry(index: int, value: real)

  predicate ShouldDrop(decreasing: bool, current: real, next: real) {
    if decreasing then current <= next else current >= next
  }

  // ----- what push and expireBefore do to the kept entries -----

  /** How many of the oldest n entries survive a new value: dominated ones leave from the young end. */
  function SurvivorCount(kept: seq<Entry>, n: nat, decreasing: bool, next: real): (r: nat)
    requires n <= |kept|
    ensures r <= n
    decreases n
  {
    if n > 0 && ShouldDrop(decreasing, kept[n - 1].value, next)
    then SurvivorCount(kept, n - 1, decreasing, next)
    else n
  }

  function Survivors(kept: seq<Entry>, decreasing: bool, next: real): seq<Entry> {
    kept[..SurvivorCount(kept, |kept|, decreasing, next)]
  }

  /** A push into a full deque that cannot drop anything loses the new value. */
  function Pushed(kept: seq<Entry>, decreasing: bool, index: int, value: real): seq<Entry> {
    var survivors := Survivors(kept, decreasing, value);
    if |survivors| < CAPACITY then survivors + [Entry(index, value)] else survivors
  }

  /** The first position from n on that is not older than `index`. */
  function FirstLive(kept: seq<Entry>, n: nat, index: int): (r: nat)
    requires n <= |kept|
    ensures n <= r <= |kept|
    decreases |kept| - n
  {
    if n < |kept| && kept[n].index < index then FirstLive(kept, n + 1, index) else n
  }

  function Expired(kept: seq<Entry>, index: int): seq<Entry> {
    kept[FirstLive(kept, 0, index)..]
  }

  // ----- which entries a correct deque keeps -----

  /** No later value of the window drops xs[i]. */
  ghost predicate Undominated(xs: seq<real>, decreasing: bool, i: nat, hi: nat)
    requires i < hi <= |xs|
  {
    forall j :: i < j < hi ==> !ShouldDrop(decreasing, xs[i], xs[j])
  }

  /** The undominated positions of xs[lo..hi], oldest first. */
  ghost function Frontier(xs: seq<real>, decreasing: bool, lo: nat, hi: nat): seq<Entry>
    requires lo <= hi <= |xs|
    decreases hi - lo
  {
    if lo == hi then []
    else if Undominated(xs, decreasing, lo, hi) then [Entry(lo, xs[lo])] + Frontier(xs, decreasing, lo + 1, hi)
    else Frontier(xs, decreasing, lo + 1, hi)
  }

  lemma {:induction false} FrontierEntries(xs: seq<real>, decreasing: bool, lo: nat, hi: nat)
    requires lo <= hi <= |xs|
    ensures |Frontier(xs, decreasing, lo, hi)| <= hi - lo
    ensures var r := Frontier(xs, decreasing, lo, hi);
            forall k :: 0 <= k < |r| ==> lo <= r[k].index < hi && r[k].value == xs[r[k].index]
    decreases hi - lo
  {
    if lo < hi {
      FrontierEntries(xs, decreasing, lo + 1, hi);
    }
  }

  function Extreme(xs: seq<real>, decreasing: bool, lo: nat, hi: nat): real
    requires lo < hi <= |xs|
  {
    if decreasing then RangeMax(xs, lo, hi) else RangeMin(xs, lo, hi)
  }

  /** The oldest undominated value is the extreme of the window. */
  lemma {:induction false} FrontierHead(xs: seq<real>, decreasing: bool, lo: nat, hi: nat)
    requires lo < hi <= |xs|
    ensures Frontier(xs, decreasing, lo, hi) != []
    ensures Frontier(xs, decreasing, lo, hi)[0].value == Extreme(xs, decreasing, lo, hi)
    decreases hi - lo
  {
    if !Undominated(xs, decreasing, lo, hi) {
      FrontierHead(xs, decreasing, lo + 1, hi);
    }
  }

  lemma {:induction false} FirstLiveCons(first: Entry, rest: seq<Entry>, n: nat, index: int)
    requires n <= |rest|
    ensures FirstLive([first] + rest, n + 1, index) == FirstLive(rest, n, index) + 1
    decreases |rest| - n
  {
    if n < |rest| {
      assert ([first] + rest)[n + 1] == rest[n];
      FirstLiveCons(first, rest, n + 1, index);
    }
  }

  lemma {:induction false} FrontierExpired(xs: seq<real>, decreasing: bool, lo: nat, hi: nat, newLo: nat)
    requires lo <= newLo <= hi <= |xs|
    ensures Expired(Frontier(xs, decreasing, lo, hi), newLo) == Frontier(xs, decreasing, newLo, hi)
    decreases hi - lo
  {
    FrontierEntries(xs, decreasing, lo, hi);
    if lo < newLo {
      FrontierExpired(xs, decreasing, lo + 1, hi, newLo);
      var rest := Frontier(xs, decreasing, lo + 1, hi);
      if Undominated(xs, decreasing, lo, hi) {
        FirstLiveCons(Entry(lo, xs[lo]), rest, 0, newLo);
      }
    }
  }

  lemma {:induction false} SurvivorCountCons(first: Entry, rest: seq<Entry>, n: nat, decreasing: bool, next: real)
    requires n <= |rest|
    ensures SurvivorCount([first] + rest, n + 1, decreasing, next)
         == var r := SurvivorCount(rest, n, decreasing, next);
            if r > 0 || !ShouldDrop(decreasing, first.value, next) then r + 1 else 0
    decreases n
  {
    if n > 0 {
      assert ([first] + rest)[n] == rest[n - 1];
      SurvivorCountCons(first, rest, n - 1, decreasing, next);
    }
  }

  lemma {:induction false} SurvivorUndropped(kept: seq<Entry>, n: nat, decreasing: bool, next: real)
    requires n <= |kept|
    ensures var r := SurvivorCount(kept, n, decreasing, next);
            r > 0 ==> !ShouldDrop(decreasing, kept[r - 1].value, next)
    decreases n
  {
    if n > 0 {
      SurvivorUndropped(kept, n - 1, decreasing, next);
    }
  }

  /** If a later survivor of the window beats the new value, so does the older value that beats the survivor. */
  lemma {:induction false} UndominatedBeatsNext(xs: seq<real>, decreasing: bool, lo: nat, hi: nat)
    requires lo < hi < |xs| && Undominated(xs, decreasing, lo, hi)
    requires var rest := Frontier(xs, decreasing, lo + 1, hi); SurvivorCount(rest, |rest|, decreasing, xs[hi]) > 0
    ensures !ShouldDrop(decreasing, xs[lo], xs[hi])
  {
    hide Frontier, SurvivorCount;
    var rest := Frontier(xs, decreasing, lo + 1, hi);
    FrontierEntries(xs, decreasing, lo + 1, hi);
    SurvivorUndropped(rest, |rest|, decreasing, xs[hi]);
    var youngest := rest[SurvivorCount(rest, |rest|, decreasing, xs[hi]) - 1];
    assert lo < youngest.index < hi && youngest.value == xs[youngest.index];
    assert !ShouldDrop(decreasing, xs[lo], xs[youngest.index]);
  }

  lemma {:induction false} FrontierPushed(xs: seq<real>, decreasing: bool, lo: nat, hi: nat)
    requires lo <= hi < |xs|
    ensures Survivors(Frontier(xs, decreasing, lo, hi), decreasing, xs[hi]) + [Entry(hi, xs[hi])]
         == Frontier(xs, decreasing, lo, hi + 1)
    decreases hi - lo
  {
    if lo == hi {
      assert Frontier(xs, decreasing, lo + 1, hi + 1) == [];
    } else {
      FrontierPushed(xs, decreasing, lo + 1, hi);
      if Undominated(xs, decreasing, lo, hi) {
        var first, rest, next := Entry(lo, xs[lo]), Frontier(xs, decreasing, lo + 1, hi), xs[hi];
        SurvivorCountCons(first, rest, |rest|, decreasing, next);
        if SurvivorCount(rest, |rest|, decreasing, next) > 0 {
          UndominatedBeatsNext(xs, decreasing, lo, hi);
        }
        assert Undominated(xs, decreasing, lo, hi + 1) <==> !ShouldDrop(decreasing, xs[lo], next);
        if !ShouldDrop(decreasing, xs[lo], next) {
          assert Survivors([first] + rest, decreasing, next) == [first] + Survivors(rest, decreasing, next);
        }
      } else {
        assert !Undominated(xs, decreasing, lo, hi + 1);
      }
    }
  }

  /** With room left, one push extends the tracked window by one value. */
  lemma {:induction false} PushKeepsFrontier(xs: seq<real>, decreasing: bool, lo: nat, hi: nat)
    requires lo <= hi < |xs| && hi - lo < CAPACITY
    ensures Pushed(Frontier(xs, decreasing, lo, hi), decreasing, hi, xs[hi]) == Frontier(xs, decreasing, lo, hi + 1)
  {
    FrontierPushed(xs, decreasing, lo, hi);
    FrontierEntries(xs, decreasing, lo, hi);
  }

  // ----- whole runs of push-then-expire -----

  /** One push-then-expire step for value number n (counted from one). */
  function Advanced(kept: seq<Entry>, decreasing: bool, period: nat, n: int, value: real): seq<Entry> {
    Expired(Pushed(kept, decreasing, n - 1, value), n - period)
  }

  /** The kept entries after values from..n, each pushed and then expired for a window of `period`. */
  function Run(xs: seq<real>, decreasing: bool, period: nat, from: nat, n: nat): seq<Entry>
    requires from <= n <= |xs|
    decreases n
  {
    if n == from then []
    else Advanced(Run(xs, decreasing, period, from, n - 1), decreasing, period, n, xs[n - 1])
  }

  function WindowStart(period: nat, from: nat, n: nat): (r: nat)
    requires from <= n
    ensures from <= r <= n && (from < n && period > 0 ==> r < n)
  {
    if n <= from + period then from else n - period
  }

  /** One push-then-expire step takes the frontier of one window to the frontier of the next. */
  lemma {:induction false} StepIsFrontier(xs: seq<real>, decreasing: bool, period: nat, from: nat, n: nat)
    requires 1 <= period < CAPACITY && from < n <= |xs|
    ensures Advanced(Frontier(xs, decreasing, WindowStart(period, from, n - 1), n - 1), decreasing, period, n, xs[n - 1])
         == Frontier(xs, decreasing, WindowStart(period, from, n), n)
  {
    var lo := WindowStart(period, from, n - 1);
    PushKeepsFrontier(xs, decreasing, lo, n - 1);
    if n - period > lo {
      FrontierExpired(xs, decreasing, lo, n, n - period);
    } else {
      FrontierEntries(xs, decreasing, lo, n);
    }
  }

  lemma {:induction false} NothingTracked(xs: seq<real>, decreasing: bool, lo: nat)
    requires lo <= |xs|
    ensures Frontier(xs, decreasing, lo, lo) == []
  {
  }

  lemma {:induction false} RunIsFrontier(xs: seq<real>, decreasing: bool, period: nat, from: nat, n: nat)
    requires 1 <= period < CAPACITY && from <= n <= |xs|
    ensures Run(xs, decreasing, period, from, n) == Frontier(xs, decreasing, WindowStart(period, from, n), n)
    decreases n
  {
    hide Frontier, Advanced;
    if n == from {
      NothingTracked(xs, decreasing, from);
    } else {
      RunIsFrontier(xs, decreasing, period, from, n - 1);
      StepIsFrontier(xs, decreasing, period, from, n);
    }
  }

  /** The values held fall (rise) strictly from the oldest to the youngest. */
  lemma {:induction false} HeldStrictlyMonotone(xs: seq<real>, decreasing: bool, period: nat, from: nat, n: nat, i: nat, j: nat)
    requires 1 <= period < CAPACITY && from <= n <= |xs| && i < j < |Run(xs, decreasing, period, from, n)|
    ensures var held := Run(xs, decreasing, period, from, n);
            if decreasing then held[i].value > held[j].value else held[i].value < held[j].value
  {
    hide Run, Frontier;
    RunIsFrontier(xs, decreasing, period, from, n);
    FrontierStrictlyMonotone(xs, decreasing, WindowStart(period, from, n), n, i, j);
  }

  lemma {:induction false} FrontierStrictlyMonotone(xs: seq<real>, decreasing: bool, lo: nat, hi: nat, i: nat, j: nat)
    requires lo <= hi <= |xs| && i < j < |Frontier(xs, decreasing, lo, hi)|
    ensures var held := Frontier(xs, decreasing, lo, hi);
            if decreasing then held[i].value > held[j].value else held[i].value < held[j].value
    decreases hi - lo
  {
    if lo < hi {
      FrontierEntries(xs, decreasing, lo, hi);
      if !Undominated(xs, decreasing, lo, hi) {
        FrontierStrictlyMonotone(xs, decreasing, lo + 1, hi, i, j);
      } else if i > 0 {
        FrontierStrictlyMonotone(xs, decreasing, lo + 1, hi, i - 1, j - 1);
      } else {
        FrontierEntries(xs, decreasing, lo + 1, hi);
        var younger := Frontier(xs, decreasing, lo + 1, hi)[j - 1];
        assert !ShouldDrop(decreasing, xs[lo], xs[younger.index]);
      }
    }
  }

  /** Entries in increasing index order, all in a window. */
  ghost predicate InOrder(kept: seq<Entry>, lo: int, hi: int) {
    && (forall k :: 0 <= k < |kept| ==> lo <= kept[k].index < hi)
    && forall k :: 1 <= k < |kept| ==> kept[k - 1].index < kept[k].index
  }

  /** However full the deque gets, after a step it still holds an entry of the window. */
  lemma {:induction false} RunNotEmpty(xs: seq<real>, decreasing: bool, period: nat, from: nat, n: nat)
    requires 1 <= period <= CAPACITY && from <= n <= |xs|
    ensures InOrder(Run(xs, decreasing, period, from, n), n - period, n) && (n > from ==> Run(xs, decreasing, period, from, n) != [])
    decreases n
  {
    hide InOrder, Advanced;
    if n == from {
      NoEntries(n - period, n);
    } else {
      RunNotEmpty(xs, decreasing, period, from, n - 1);
      StepNotEmpty(Run(xs, decreasing, period, from, n - 1), decreasing, period, n, xs[n - 1]);
    }
  }

  lemma {:induction false} RunStartsAtFrom(xs: seq<real>, decreasing: bool, period: nat, from: nat, n: nat)
    requires from <= n <= |xs|
    ensures forall k :: 0 <= k < |Run(xs, decreasing, period, from, n)| ==> Run(xs, decreasing, period, from, n)[k].index >= from
    decreases n
  {
    hide FirstLive, SurvivorCount;
    if n > from {
      RunStartsAtFrom(xs, decreasing, period, from, n - 1);
    }
  }

  /** Until the first window is full, expiring changes nothing, so a push alone is a whole step. */
  lemma {:induction false} WarmStep(xs: seq<real>, decreasing: bool, period: nat, from: nat, n: nat)
    requires from < n <= |xs| && n <= from + period
    ensures Run(xs, decreasing, period, from, n) == Pushed(Run(xs, decreasing, period, from, n - 1), decreasing, n - 1, xs[n - 1])
  {
    hide SurvivorCount;
    RunStartsAtFrom(xs, decreasing, period, from, n - 1);
    var pushed := Pushed(Run(xs, decreasing, period, from, n - 1), decreasing, n - 1, xs[n - 1]);
    assert FirstLive(pushed, 0, n - period) == 0;
  }

  lemma {:induction false} NoEntries(lo: int, hi: int)
    ensures InOrder([], lo, hi)
  {
  }

  lemma {:induction false} StepNotEmpty(kept: seq<Entry>, decreasing: bool, period: nat, n: nat, value: real)
    requires 1 <= period <= CAPACITY && 1 <= n && InOrder(kept, n - 1 - period, n - 1)
    ensures var next := Advanced(kept, decreasing, period, n, value); next != [] && InOrder(next, n - period, n)
  {
    hide SurvivorCount, FirstLive, ShouldDrop;
    var pushed := Pushed(kept, decreasing, n - 1, value);
    assert |pushed| > 0;
    LastIndex(pushed, |pushed| - 1);
    assert pushed[|pushed| - 1].index >= n - period;
    LiveEntries(pushed, 0, n - period);
  }

  lemma {:induction false} LastIndex(kept: seq<Entry>, k: nat)
    requires k < |kept| && forall i :: 1 <= i < |kept| ==> kept[i - 1].index < kept[i].index
    ensures kept[k].index >= kept[0].index + k
    decreases k
  {
    if k > 0 {
      LastIndex(kept, k - 1);
    }
  }

  lemma {:induction false} LiveEntries(kept: seq<Entry>, n: nat, index: int)
    requires n < |kept| && kept[|kept| - 1].index >= index && forall i :: 1 <= i < |kept| ==> kept[i - 1].index < kept[i].index
    ensures FirstLive(kept, n, index) < |kept| && forall k :: FirstLive(kept, n, index) <= k < |kept| ==> kept[k].index >= index
    decreases |kept| - n
  {
    if kept[n].index < index {
      LiveEntries(kept, n + 1, index);
    } else {
      forall k | n <= k < |kept| ensures kept[k].index >= index {
        Ascends(kept, n, k);
      }
    }
  }

  lemma {:induction false} Ascends(kept: seq<Entry>, i: nat, k: nat)
    requires i <= k < |kept| && forall j :: 1 <= j < |kept| ==> kept[j - 1].index < kept[j].index
    ensures kept[i].index <= kept[k].index
    decreases k
  {
    if i < k {
      Ascends(kept, i, k - 1);
    }
  }

  /** What the deque reports after values from..n, at any period canHold admits. */
  ghost function Reported(xs: seq<real>, decreasing: bool, period: nat, from: nat, n: nat): (r: real)
    requires 1 <= period <= CAPACITY && from < n <= |xs|
    ensures period < CAPACITY ==> r == Extreme(xs, decreasing, WindowStart(period, from, n), n)
  {
    RunNotEmpty(xs, decreasing, period, from, n);
    if period < CAPACITY then
      RunIsFrontier(xs, decreasing, period, from, n);
      FrontierHead(xs, decreasing, WindowStart(period, from, n), n);
      Run(xs, decreasing, period, from, n)[0].value
    else Run(xs, decreasing, period, from, n)[0].value
  }

  /** With 256 falling values in the window and 256 before them, the deque reports the second of the window. */
  lemma {:induction false} FallingMisreports()
    ensures var xs := Falling(2 * CAPACITY);
            && Reported(xs, true, CAPACITY, 0, 2 * CAPACITY) == xs[CAPACITY + 1]
            && Extreme(xs, true, CAPACITY, 2 * CAPACITY) == xs[CAPACITY]
  {
    hide Frontier, Run;
    var xs := Falling(2 * CAPACITY);
    FallingLosesOne(xs, 2 * CAPACITY);
    FallingExtreme(xs, CAPACITY, 2 * CAPACITY);
  }

  lemma {:induction false} FallingExtreme(xs: seq<real>, lo: nat, hi: nat)
    requires xs == Falling(|xs|) && lo < hi <= |xs|
    ensures Extreme(xs, true, lo, hi) == xs[lo]
    decreases hi
  {
    if lo + 1 < hi {
      FallingExtreme(xs, lo, hi - 1);
    }
  }

  ghost predicate ReportsExtreme(xs: seq<real>, decreasing: bool, period: nat, from: nat, n: nat)
    requires from < n <= |xs| && 0 < period
  {
    var kept := Run(xs, decreasing, period, from, n);
    kept != [] && kept[0].value == Extreme(xs, decreasing, WindowStart(period, from, n), n)
  }

  ghost predicate AlwaysReportsExtreme(period: nat)
    requires 0 < period
  {
    forall xs, decreasing, from: nat, n | from < n <= |xs| :: ReportsExtreme(xs, decreasing, period, from, n)
  }

  /**
   * Among the periods canHold admits, the head is the extreme of the last `period`
   * values on every input exactly when the period leaves one slot free: clients push
   * before they expire, so a window of p values needs p + 1 slots.
   */
  lemma {:induction false} ReportsExtremeExactlyBelowCapacity(period: nat)
    requires 1 <= period <= 256
    ensures AlwaysReportsExtreme(period) <==> period < 256
  {
    if period < CAPACITY {
      forall xs, decreasing, from: nat, n | from < n <= |xs|
        ensures ReportsExtreme(xs, decreasing, period, from, n)
      {
        RunIsFrontier(xs, decreasing, period, from, n);
        FrontierHead(xs, decreasing, WindowStart(period, from, n), n);
      }
    } else {
      var xs := Falling(2 * CAPACITY);
      FallingFills(xs, CAPACITY);
      FallingLosesOne(xs, 2 * CAPACITY);
      assert Run(xs, true, CAPACITY, 0, 2 * CAPACITY)[0].value == xs[CAPACITY + 1] < xs[CAPACITY];
      assert !ReportsExtreme(xs, true, CAPACITY, 0, 2 * CAPACITY);
    }
  }

  function Falling(n: nat): (xs: seq<real>)
    ensures |xs| == n && forall i :: 0 <= i < n ==> xs[i] == -(i as real)
  {
    seq(n, i => -(i as real))
  }

  ghost function Consecutive(xs: seq<real>, lo: nat, hi: nat): (r: seq<Entry>)
    requires lo <= hi <= |xs|
    ensures |r| == hi - lo && forall k :: 0 <= k < |r| ==> r[k] == Entry(lo + k, xs[lo + k])
  {
    seq(hi - lo, k requires 0 <= k < hi - lo => Entry(lo + k, xs[lo + k]))
  }

  lemma {:induction false} ConsecutiveStep(xs: seq<real>, n: nat)
    requires xs == Falling(|xs|) && 0 < n <= |xs| && n <= CAPACITY
    ensures Advanced(Consecutive(xs, 0, n - 1), true, CAPACITY, n, xs[n - 1]) == Consecutive(xs, 0, n)
  {
    var kept := Consecutive(xs, 0, n - 1);
    assert Survivors(kept, true, xs[n - 1]) == kept;
    assert kept + [Entry(n - 1, xs[n - 1])] == Consecutive(xs, 0, n);
  }

  /** A falling input dominates nothing, so 256 values fill every slot. */
  lemma {:induction false} FallingFills(xs: seq<real>, n: nat)
    requires xs == Falling(|xs|) && n <= |xs| && n <= CAPACITY
    ensures Run(xs, true, CAPACITY, 0, n) == Consecutive(xs, 0, n)
    decreases n
  {
    hide Advanced;
    if n > 0 {
      FallingFills(xs, n - 1);
      ConsecutiveStep(xs, n);
    }
  }

  /** Every position of xs[n - 256..n] except the 257th. */
  ghost function Gapped(xs: seq<real>, n: nat): (r: seq<Entry>)
    requires CAPACITY < n <= |xs| && n <= 2 * CAPACITY
    ensures |r| == CAPACITY - 1
    ensures forall k :: 0 <= k < |r| ==> var i := n - CAPACITY + k; r[k] == if i < CAPACITY then Entry(i, xs[i]) else Entry(i + 1, xs[i + 1])
  {
    seq(CAPACITY - 1, k requires 0 <= k < CAPACITY - 1 =>
      var i := n - CAPACITY + k; if i < CAPACITY then Entry(i, xs[i]) else Entry(i + 1, xs[i + 1]))
  }

  lemma {:induction false} GappedSurvives(xs: seq<real>, n: nat)
    requires xs == Falling(|xs|) && CAPACITY < n < |xs| && n < 2 * CAPACITY
    ensures Survivors(Gapped(xs, n), true, xs[n]) == Gapped(xs, n)
  {
  }

  lemma {:induction false} GappedStep(xs: seq<real>, n: nat)
    requires xs == Falling(|xs|) && CAPACITY + 1 < n <= |xs| && n <= 2 * CAPACITY
    ensures Advanced(Gapped(xs, n - 1), true, CAPACITY, n, xs[n - 1]) == Gapped(xs, n)
  {
    hide Survivors, SurvivorCount;
    GappedSurvives(xs, n - 1);
    var pushed := Gapped(xs, n - 1) + [Entry(n - 1, xs[n - 1])];
    assert pushed[0].index == n - 1 - CAPACITY;
    assert FirstLive(pushed, 1, n - CAPACITY) == 1;
    assert pushed[1..] == Gapped(xs, n);
  }

  lemma {:induction false} GappedStart(xs: seq<real>)
    requires xs == Falling(|xs|) && CAPACITY < |xs|
    ensures Advanced(Consecutive(xs, 0, CAPACITY), true, CAPACITY, CAPACITY + 1, xs[CAPACITY]) == Gapped(xs, CAPACITY + 1)
  {
    var kept := Consecutive(xs, 0, CAPACITY);
    assert Survivors(kept, true, xs[CAPACITY]) == kept;
    assert FirstLive(kept, 1, 1) == 1;
    assert kept[1..] == Gapped(xs, CAPACITY + 1);
  }

  /** The 257th falling value is lost for good: it is missing from every later window. */
  lemma {:induction false} FallingLosesOne(xs: seq<real>, n: nat)
    requires xs == Falling(|xs|) && CAPACITY < n <= |xs| && n <= 2 * CAPACITY
    ensures Run(xs, true, CAPACITY, 0, n) == Gapped(xs, n)
    decreases n
  {
    hide Advanced;
    if n == CAPACITY + 1 {
      FallingFills(xs, CAPACITY);
      GappedStart(xs);
    } else {
      FallingLosesOne(xs, n - 1);
      GappedStep(xs, n);
    }
  }

  // ----- the deque itself -----

  class FloatMonotonicWindow {
    const values: array<Entry>
    const decreasing: bool
    var head: nat
    var tail: nat

    ghost predicate Valid()
      reads this
    {
      values.Length == CAPACITY && head <= tail <= CAPACITY
    }

    ghost function Entries(): seq<Entry>
      requires Valid()
      reads this, values
    {
      values[head..tail]
    }

    constructor (decreasing: bool)
      ensures Valid() && fresh(values) && Entries() == [] && this.decreasing == decreasing
    {
      values := new Entry[CAPACITY](_ => Entry(0, 0.0));
      this.decreasing := decreasing;
      head, tail := 0, 0;
    }

    method Push(index: int, value: real)
      requires Valid()
      modifies this, values
      ensures Valid() && Entries() == Pushed(old(Entries()), decreasing, index, value)
    {
      PopDominated(value);
      ghost var survivors := Entries();
      if tail >= values.Length {
        if head == 0 {
          return;
        }
        Compact();
      }
      values[tail] := Entry(index, value);
      tail := tail + 1;
      assert Entries() == survivors + [Entry(index, value)];
    }

    method PopDominated(value: real)
      requires Valid()
      modifies this`tail
      ensures Valid() && Entries() == Survivors(old(Entries()), decreasing, value)
    {
      hide ShouldDrop;
      ghost var before := Entries();
      while tail > head && ShouldDrop(decreasing, values[tail - 1].value, value)
        invariant Valid() && tail - head <= |before| && Entries() == before[..tail - head]
        invariant SurvivorCount(before, tail - head, decreasing, value) == SurvivorCount(before, |before|, decreasing, value)
        decreases tail
      {
        assert values[tail - 1] == Entries()[tail - 1 - head];
        tail := tail - 1;
      }
    }

    /** The overlapping copy to the front of the array that frees the slots before head. */
    method Compact()
      requires Valid()
      modifies this, values
      ensures Valid() && head == 0 && Entries() == old(Entries())
    {
      forall k | 0 <= k < tail - head {
        values[k] := values[head + k];
      }
      tail := tail - head;
      head := 0;
      assert forall k :: 0 <= k < tail ==> values[k] == old(Entries())[k];
    }

    method ExpireBefore(index: int)
      requires Valid()
      modifies this
      ensures Valid() && Entries() == Expired(old(Entries()), index)
    {
      ghost var before, first := Entries(), head;
      while head < tail && values[head].index < index
        invariant Valid() && tail == old(tail) && first <= head
        invariant FirstLive(before, head - first, index) == FirstLive(before, 0, index)
        decreases tail - head
      {
        assert values[head] == before[head - first];
        head := head + 1;
      }
      assert Entries() == Expired(before, index);
      if head == tail {
        head := 0;
        tail := 0;
      }
    }

    method Value() returns (value: real, ok: bool)
      requires Valid()
      ensures ok <==> Entries() != []
      ensures ok ==> value == Entries()[0].value
    {
      if head >= tail {
        return 0.0, false;
      }
      return values[head].value, true;
    }
  }

  // ----- how the indicators drive a pair of deques -----

  /** A decreasing deque over the highs and an increasing one over the lows, apart from each other. */
  ghost predicate IsPair(highWindow: FloatMonotonicWindow, lowWindow: FloatMonotonicWindow)
    reads highWindow, lowWindow
  {
    && highWindow != lowWindow && highWindow.values != lowWindow.values && highWindow.Valid() && lowWindow.Valid()
    && highWindow.decreasing && !lowWindow.decreasing
  }

  method NewPair() returns (highWindow: FloatMonotonicWindow, lowWindow: FloatMonotonicWindow)
    ensures fresh(highWindow) && fresh(highWindow.values) && fresh(lowWindow) && fresh(lowWindow.values)
    ensures IsPair(highWindow, lowWindow) && highWindow.Entries() == [] == lowWindow.Entries()
  {
    highWindow := new FloatMonotonicWindow(true);
    lowWindow := new FloatMonotonicWindow(false);
  }

  method PushPair(highWindow: FloatMonotonicWindow, lowWindow: FloatMonotonicWindow, index: int, high: real, low: real)
    requires IsPair(highWindow, lowWindow)
    modifies highWindow, highWindow.values, lowWindow, lowWindow.values
    ensures IsPair(highWindow, lowWindow)
    ensures highWindow.Entries() == Pushed(old(highWindow.Entries()), true, index, high)
    ensures lowWindow.Entries() == Pushed(old(lowWindow.Entries()), false, index, low)
  {
    hide Pushed;
    highWindow.Push(index, high);
    lowWindow.Push(index, low);
  }

  /** Expire both, then read both heads. */
  method ReadPair(highWindow: FloatMonotonicWindow, lowWindow: FloatMonotonicWindow, start: int)
    returns (highest: real, lowest: real, ok: bool)
    requires IsPair(highWindow, lowWindow)
    modifies highWindow, lowWindow
    ensures IsPair(highWindow, lowWindow)
    ensures highWindow.Entries() == Expired(old(highWindow.Entries()), start)
    ensures lowWindow.Entries() == Expired(old(lowWindow.Entries()), start)
    ensures ok <==> highWindow.Entries() != [] && lowWindow.Entries() != []
    ensures ok ==> highest == highWindow.Entries()[0].value && lowest == lowWindow.Entries()[0].value
  {
    hide Expired;
    highWindow.ExpireBefore(start);
    lowWindow.ExpireBefore(start);
    var okHigh, okLow;
    highest, okHigh := highWindow.Value();
    lowest, okLow := lowWindow.Value();
    ok := okHigh && okLow;
  }

  // ----- a pair run over one window after another, at every period canHold admits -----

  ghost predicate RunPair(highWindow: FloatMonotonicWindow, lowWindow: FloatMonotonicWindow,
                          highs: seq<real>, lows: seq<real>, period: nat, from: nat, n: nat)
    requires from <= n <= |highs| && n <= |lows|
    reads highWindow, highWindow.values, lowWindow, lowWindow.values
  {
    && IsPair(highWindow, lowWindow)
    && highWindow.Entries() == Run(highs, true, period, from, n) && lowWindow.Entries() == Run(lows, false, period, from, n)
  }

  lemma {:induction false} StartPair(highWindow: FloatMonotonicWindow, lowWindow: FloatMonotonicWindow,
                  highs: seq<real>, lows: seq<real>, period: nat, from: nat)
    requires from <= |highs| && from <= |lows| && IsPair(highWindow, lowWindow)
    requires highWindow.Entries() == [] == lowWindow.Entries()
    ensures RunPair(highWindow, lowWindow, highs, lows, period, from, from)
  {
  }

  /** A bar before the first window is full: pushed and not expired. */
  method WarmPair(highWindow: FloatMonotonicWindow, lowWindow: FloatMonotonicWindow,
                  ghost highs: seq<real>, ghost lows: seq<real>, ghost period: nat, ghost from: nat, index: nat, high: real, low: real)
    requires from <= index < |highs| && index < |lows| && highs[index] == high && lows[index] == low && index < from + period
    requires RunPair(highWindow, lowWindow, highs, lows, period, from, index)
    modifies highWindow, highWindow.values, lowWindow, lowWindow.values
    ensures RunPair(highWindow, lowWindow, highs, lows, period, from, index + 1)
  {
    hide Run, Pushed;
    WarmStep(highs, true, period, from, index + 1);
    WarmStep(lows, false, period, from, index + 1);
    PushPair(highWindow, lowWindow, index, high, low);
  }

  /** A bar that ends a window: pushed, expired and read. */
  method SlidePair(highWindow: FloatMonotonicWindow, lowWindow: FloatMonotonicWindow,
                   ghost highs: seq<real>, ghost lows: seq<real>, period: nat, ghost from: nat, index: nat, high: real, low: real)
    returns (highest: real, lowest: real, ok: bool)
    requires from <= index < |highs| && index < |lows| && highs[index] == high && lows[index] == low && 1 <= period <= CAPACITY
    requires RunPair(highWindow, lowWindow, highs, lows, period, from, index)
    modifies highWindow, highWindow.values, lowWindow, lowWindow.values
    ensures RunPair(highWindow, lowWindow, highs, lows, period, from, index + 1)
    ensures ok && highest == Reported(highs, true, period, from, index + 1) && lowest == Reported(lows, false, period, from, index + 1)
  {
    hide Pushed, Expired, Frontier;
    RunNotEmpty(highs, true, period, from, index + 1);
    RunNotEmpty(lows, false, period, from, index + 1);
    PushPair(highWindow, lowWindow, index, high, low);
    highest, lowest, ok := ReadPair(highWindow, lowWindow, index + 1 - period);
  }

  // ----- a pair that tracks one exact window -----

  /** Both deques are exactly the frontiers of lo..hi. */
  ghost predicate TrackPair(highWindow: FloatMonotonicWindow, lowWindow: FloatMonotonicWindow,
                            highs: seq<real>, lows: seq<real>, lo: nat, hi: nat)
    requires lo <= hi <= |highs| && hi <= |lows|
    reads highWindow, highWindow.values, lowWindow, lowWindow.values
  {
    && IsPair(highWindow, lowWindow)
    && highWindow.Entries() == Frontier(highs, true, lo, hi) && lowWindow.Entries() == Frontier(lows, false, lo, hi)
  }

  method PushTracked(highWindow: FloatMonotonicWindow, lowWindow: FloatMonotonicWindow,
                     ghost highs: seq<real>, ghost lows: seq<real>, ghost lo: nat, index: nat, high: real, low: real)
    requires lo <= index < |highs| && index < |lows| && highs[index] == high && lows[index] == low && index - lo < CAPACITY
    requires TrackPair(highWindow, lowWindow, highs, lows, lo, index)
    modifies highWindow, highWindow.values, lowWindow, lowWindow.values
    ensures TrackPair(highWindow, lowWindow, highs, lows, lo, index + 1)
  {
    hide Frontier, Pushed;
    PushKeepsFrontier(highs, true, lo, index);
    PushKeepsFrontier(lows, false, lo, index);
    PushPair(highWindow, lowWindow, index, high, low);
  }

  /** Expiring before `start` leaves the window that begins at `start`, or as it was if it began later. */
  lemma {:induction false} ExpiredFrontier(xs: seq<real>, decreasing: bool, lo: nat, start: int, newLo: nat, hi: nat)
    requires lo <= newLo < hi <= |xs| && newLo == if start <= lo then lo else start
    ensures Expired(Frontier(xs, decreasing, lo, hi), start) == Frontier(xs, decreasing, newLo, hi)
    ensures Frontier(xs, decreasing, newLo, hi) != []
    ensures Frontier(xs, decreasing, newLo, hi)[0].value == Extreme(xs, decreasing, newLo, hi)
  {
    hide Frontier;
    FrontierEntries(xs, decreasing, lo, hi);
    FrontierHead(xs, decreasing, newLo, hi);
    if start > lo {
      FrontierExpired(xs, decreasing, lo, hi, newLo);
    }
  }

  method ReadTracked(highWindow: FloatMonotonicWindow, lowWindow: FloatMonotonicWindow,
                     ghost highs: seq<real>, ghost lows: seq<real>, ghost lo: nat, start: int, ghost newLo: nat, ghost hi: nat)
    returns (highest: real, lowest: real, ok: bool)
    requires lo <= newLo < hi <= |highs| && hi <= |lows| && newLo == if start <= lo then lo else start
    requires TrackPair(highWindow, lowWindow, highs, lows, lo, hi)
    modifies highWindow, lowWindow
    ensures TrackPair(highWindow, lowWindow, highs, lows, newLo, hi)
    ensures ok && highest == RangeMax(highs, newLo, hi) && lowest == RangeMin(lows, newLo, hi)
  {
    hide Frontier, Expired, RangeMax, RangeMin;
    ExpiredFrontier(highs, true, lo, start, newLo, hi);
    ExpiredFrontier(lows, false, lo, start, newLo, hi);
    highest, lowest, ok := ReadPair(highWindow, lowWindow, start);
  }
}
