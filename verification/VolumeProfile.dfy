/**
 * The volume profile: the busiest bucket and the value area grown around it.
 */
module VolumeProfile {
  import opened Numeric
  import opened VolumeBuckets

  ghost predicate NonNegative(volumes: seq<real>) {
    forall i :: 0 <= i < |volumes| ==> volumes[i] >= 0.0
  }

  /** No bucket there, or nothing in it. */
  predicate Empty(buckets: seq<real>, i: int) {
    i < 0 || i >= |buckets| || buckets[i] == 0.0
  }

  function Target(total: real, pct: real): real {
    total * pct / 100.0
  }

  /**
   * A value area: contiguous around the point of control, reaching the target unless only
   * empty neighbours are left, and not without its last bucket.
   */
  ghost predicate IsValueArea(buckets: seq<real>, poc: nat, down: nat, up: nat, target: real) {
    && down <= poc <= up < |buckets|
    && (RangeSum(buckets, down, up + 1) >= target || (Empty(buckets, down - 1) && Empty(buckets, up + 1)))
    && (|| down == up
        || (down < poc && RangeSum(buckets, down, up + 1) - buckets[down] < target)
        || (poc < up && RangeSum(buckets, down, up + 1) - buckets[up] < target))
  }

  lemma {:induction false} GrowUp(buckets: seq<real>, down: nat, up: nat)
    requires down <= up < |buckets| - 1
    ensures RangeSum(buckets, down, up + 2) == RangeSum(buckets, down, up + 1) + buckets[up + 1]
  {
  }

  lemma {:induction false} GrowDown(buckets: seq<real>, down: nat, up: nat)
    requires 0 < down <= up < |buckets|
    ensures RangeSum(buckets, down - 1, up + 1) == RangeSum(buckets, down, up + 1) + buckets[down - 1]
  {
    RangeSumDropFirst(buckets, down - 1, up + 1);
  }

  /** The volume of a bucket next to the area; the ends of the array count as empty. */
  function Neighbour(buckets: seq<real>, i: int): real {
    if 0 <= i < |buckets| then buckets[i] else 0.0
  }

  /** The area grown so far: its bounds and the volume they took in. */
  datatype Area = Area(down: int, up: int, volume: real)

  /** The loop ends: the target is met or both neighbours are empty. */
  predicate Complete(buckets: seq<real>, a: Area, target: real) {
    a.volume >= target || (Neighbour(buckets, a.up + 1) == 0.0 && Neighbour(buckets, a.down - 1) == 0.0)
  }

  /** The larger neighbour joins, the upper one on a tie. */
  function Widened(buckets: seq<real>, a: Area): Area {
    var above, below := Neighbour(buckets, a.up + 1), Neighbour(buckets, a.down - 1);
    if above >= below then Area(a.down, a.up + 1, a.volume + above) else Area(a.down - 1, a.up, a.volume + below)
  }

  function AreaAfter(buckets: seq<real>, start: nat, steps: nat): Area
    requires start < |buckets|
  {
    if steps == 0 then Area(start, start, buckets[start]) else Widened(buckets, AreaAfter(buckets, start, steps - 1))
  }

  /** The area is complete after so many steps and not before. */
  ghost predicate StopsAfter(buckets: seq<real>, start: nat, target: real, steps: nat)
    requires start < |buckets|
  {
    && Complete(buckets, AreaAfter(buckets, start, steps), target)
    && forall k :: 0 <= k < steps ==> !Complete(buckets, AreaAfter(buckets, start, k), target)
  }

  ghost predicate Stops(buckets: seq<real>, start: nat, target: real)
    requires start < |buckets|
  {
    exists steps: nat :: StopsAfter(buckets, start, target, steps)
  }

  /** down..up is what the loop ends with. */
  ghost predicate IsGreedyArea(buckets: seq<real>, start: nat, target: real, down: nat, up: nat)
    requires start < |buckets|
  {
    exists steps: nat ::
      StopsAfter(buckets, start, target, steps) && AreaAfter(buckets, start, steps).down == down && AreaAfter(buckets, start, steps).up == up
  }

  // ----- when the loop stops -----

  /** One bound at the end of the array, a negative bucket past the other: the end's zero wins for ever. */
  ghost predicate Lost(buckets: seq<real>, a: Area, target: real) {
    && a.volume < target
    && ((a.up >= |buckets| - 1 && Neighbour(buckets, a.down - 1) < 0.0) || (a.down <= 0 && Neighbour(buckets, a.up + 1) < 0.0))
  }

  lemma {:induction false} LostForEver(buckets: seq<real>, start: nat, target: real, k: nat, n: nat)
    requires start < |buckets| && k <= n && Lost(buckets, AreaAfter(buckets, start, k), target)
    ensures !Complete(buckets, AreaAfter(buckets, start, n), target)
    decreases n - k
  {
    if k < n {
      LostForEver(buckets, start, target, k + 1, n);
    }
  }

  /** Up to its end a loop that stops stays inside the array. */
  lemma {:induction false} StaysInside(buckets: seq<real>, start: nat, target: real, n: nat, k: nat)
    requires start < |buckets| && StopsAfter(buckets, start, target, n) && k <= n
    ensures var a := AreaAfter(buckets, start, k);
            && 0 <= a.down <= start <= a.up < |buckets| && a.volume == RangeSum(buckets, a.down, a.up + 1)
            && (k < n ==> !Lost(buckets, a, target))
    decreases k
  {
    hide RangeSum, StopsAfter;
    StopsThen(buckets, start, target, n, n);
    if k == 0 {
      OneBucket(buckets, start);
    } else {
      StaysInside(buckets, start, target, n, k - 1);
      var before := AreaAfter(buckets, start, k - 1);
      StopsThen(buckets, start, target, n, k - 1);
      if Neighbour(buckets, before.up + 1) >= Neighbour(buckets, before.down - 1) {
        GrowUp(buckets, before.down, before.up);
      } else {
        GrowDown(buckets, before.down, before.up);
      }
    }
    if Lost(buckets, AreaAfter(buckets, start, k), target) {
      LostForEver(buckets, start, target, k, n);
    }
  }

  ghost predicate NextToNegative(buckets: seq<real>, a: Area) {
    Neighbour(buckets, a.up + 1) < 0.0 || Neighbour(buckets, a.down - 1) < 0.0
  }

  /** A negative neighbour is never taken while the other is larger, so one always remains. */
  lemma {:induction false} NegativeStays(buckets: seq<real>, start: nat, k: nat, n: nat)
    requires start < |buckets| && k <= n && NextToNegative(buckets, AreaAfter(buckets, start, k))
    ensures NextToNegative(buckets, AreaAfter(buckets, start, n))
    decreases n - k
  {
    if k < n {
      NegativeStays(buckets, start, k + 1, n);
    }
  }

  /** Around start, nothing but positive buckets from down to up and no volume next to them. */
  ghost predicate IsIsland(buckets: seq<real>, start: nat, down: nat, up: nat) {
    && down <= start <= up < |buckets| && (forall i :: down <= i <= up && i != start ==> buckets[i] > 0.0)
    && Neighbour(buckets, down - 1) == 0.0 && Neighbour(buckets, up + 1) == 0.0
  }

  ghost predicate OnIsland(buckets: seq<real>, start: nat) {
    exists down: nat, up: nat :: IsIsland(buckets, start, down, up)
  }

  lemma {:induction false} StopsOnIsland(buckets: seq<real>, start: nat, target: real, down: nat, up: nat, k: nat)
    requires IsIsland(buckets, start, down, up)
    requires down <= AreaAfter(buckets, start, k).down <= start <= AreaAfter(buckets, start, k).up <= up
    requires forall j :: 0 <= j < k ==> !Complete(buckets, AreaAfter(buckets, start, j), target)
    ensures Stops(buckets, start, target)
    decreases AreaAfter(buckets, start, k).down + (up - AreaAfter(buckets, start, k).up)
  {
    var a := AreaAfter(buckets, start, k);
    if Complete(buckets, a, target) {
      assert StopsAfter(buckets, start, target, k);
    } else {
      assert AreaAfter(buckets, start, k + 1) == Widened(buckets, a);
      StopsOnIsland(buckets, start, target, down, up, k + 1);
    }
  }

  /** Inside the array, and nothing but positive buckets apart from the first. */
  ghost predicate TookPositive(buckets: seq<real>, start: nat, a: Area) {
    0 <= a.down <= start <= a.up < |buckets| && forall i :: a.down <= i <= a.up && i != start ==> buckets[i] > 0.0
  }

  lemma {:induction false} TakesOnePositive(buckets: seq<real>, start: nat, a: Area, target: real)
    requires TookPositive(buckets, start, a) && !NextToNegative(buckets, a) && !Complete(buckets, a, target)
    ensures TookPositive(buckets, start, Widened(buckets, a))
  {
  }

  /** What the loop takes in while no neighbour is negative is positive. */
  lemma {:induction false} TakesPositive(buckets: seq<real>, start: nat, target: real, n: nat, k: nat)
    requires start < |buckets| && StopsAfter(buckets, start, target, n) && k <= n
    requires !NextToNegative(buckets, AreaAfter(buckets, start, n))
    ensures TookPositive(buckets, start, AreaAfter(buckets, start, k))
    decreases k
  {
    hide TookPositive, NextToNegative, Complete, Widened, StopsAfter;
    if k > 0 {
      TakesPositive(buckets, start, target, n, k - 1);
      if NextToNegative(buckets, AreaAfter(buckets, start, k - 1)) {
        NegativeStays(buckets, start, k - 1, n);
      }
      StopsThen(buckets, start, target, n, k - 1);
      TakesOnePositive(buckets, start, AreaAfter(buckets, start, k - 1), target);
    } else {
      TookNone(buckets, start);
    }
  }

  lemma {:induction false} TookNone(buckets: seq<real>, start: nat)
    requires start < |buckets|
    ensures TookPositive(buckets, start, AreaAfter(buckets, start, 0))
  {
  }

  lemma {:induction false} StopsThen(buckets: seq<real>, start: nat, target: real, n: nat, k: nat)
    requires start < |buckets| && StopsAfter(buckets, start, target, n) && k <= n
    ensures Complete(buckets, AreaAfter(buckets, start, k), target) <==> k == n
  {
  }

  function Gains(buckets: seq<real>): (r: seq<real>)
    ensures |r| == |buckets| && forall i :: 0 <= i < |r| ==> r[i] == if buckets[i] > 0.0 then buckets[i] else 0.0
  {
    seq(|buckets|, i requires 0 <= i < |buckets| => if buckets[i] > 0.0 then buckets[i] else 0.0)
  }

  lemma {:induction false} PartOfWhole(gains: seq<real>, lo: nat, hi: nat)
    requires lo <= hi <= |gains| && NonNegative(gains)
    ensures RangeSum(gains, lo, hi) <= RangeSum(gains, 0, |gains|)
    decreases lo + (|gains| - hi)
  {
    if lo > 0 {
      RangeSumDropFirst(gains, lo - 1, hi);
      PartOfWhole(gains, lo - 1, hi);
    } else if hi < |gains| {
      PartOfWhole(gains, lo, hi + 1);
    }
  }

  /** The volume is at most what the positive buckets between the bounds hold. */
  ghost predicate WithinGains(buckets: seq<real>, start: nat, a: Area) {
    && a.down <= start <= a.up && start < |buckets|
    && a.volume <= RangeSum(Gains(buckets), if a.down < 0 then 0 else a.down, if a.up < |buckets| then a.up + 1 else |buckets|)
  }

  lemma {:induction false} WidensWithinGains(buckets: seq<real>, start: nat, a: Area)
    requires WithinGains(buckets, start, a)
    ensures WithinGains(buckets, start, Widened(buckets, a))
  {
    hide RangeSum, Gains;
    var gains := Gains(buckets);
    var lo, hi := if a.down < 0 then 0 else a.down, if a.up < |buckets| then a.up else |buckets| - 1;
    if Neighbour(buckets, a.up + 1) >= Neighbour(buckets, a.down - 1) {
      if a.up < |buckets| - 1 {
        GrowUp(gains, lo, hi);
      }
    } else if a.down > 0 {
      GrowDown(gains, lo, hi);
    }
  }

  /** However long the loop runs, it never takes in more than all positive buckets hold. */
  lemma {:induction false} VolumeBounded(buckets: seq<real>, start: nat, k: nat)
    requires start < |buckets|
    ensures WithinGains(buckets, start, AreaAfter(buckets, start, k))
    decreases k
  {
    hide RangeSum, Widened;
    if k == 0 {
      OneBucket(Gains(buckets), start);
    } else {
      VolumeBounded(buckets, start, k - 1);
      WidensWithinGains(buckets, start, AreaAfter(buckets, start, k - 1));
    }
  }

  /** From one start the loop stops whatever the target exactly when that start lies on an island. */
  lemma {:induction false} StopsExactlyOnIsland(buckets: seq<real>, start: nat)
    requires start < |buckets|
    ensures (forall target: real :: Stops(buckets, start, target)) <==> OnIsland(buckets, start)
  {
    hide RangeSum, StopsAfter, IsIsland;
    if OnIsland(buckets, start) {
      var down: nat, up: nat :| IsIsland(buckets, start, down, up);
      forall target: real ensures Stops(buckets, start, target) {
        IslandBounds(buckets, start, down, up);
        StopsOnIsland(buckets, start, target, down, up, 0);
      }
    }
    if forall target: real :: Stops(buckets, start, target) {
      var target := RangeSum(Gains(buckets), 0, |buckets|) + 1.0;
      assert Stops(buckets, start, target);
      var n: nat :| StopsAfter(buckets, start, target, n);
      EndsOnIsland(buckets, start, target, n);
    }
  }

  lemma {:induction false} IslandBounds(buckets: seq<real>, start: nat, down: nat, up: nat)
    requires IsIsland(buckets, start, down, up)
    ensures down <= start <= up < |buckets|
  {
  }

  lemma {:induction false} EndsOnIsland(buckets: seq<real>, start: nat, target: real, n: nat)
    requires start < |buckets| && target > RangeSum(Gains(buckets), 0, |buckets|) && StopsAfter(buckets, start, target, n)
    ensures OnIsland(buckets, start)
  {
    hide RangeSum;
    var a := AreaAfter(buckets, start, n);
    StaysInside(buckets, start, target, n, n);
    VolumeBounded(buckets, start, n);
    PartOfWhole(Gains(buckets), a.down, a.up + 1);
    TakesPositive(buckets, start, target, n, n);
    assert IsIsland(buckets, start, a.down, a.up);
  }

  lemma {:induction false} NextToNegativeIsOffIsland(buckets: seq<real>, start: nat, i: nat)
    requires start < |buckets| && i < |buckets| && buckets[i] < 0.0 && (i == start + 1 || i + 1 == start)
    ensures !OnIsland(buckets, start)
  {
    forall down: nat, up: nat ensures !IsIsland(buckets, start, down, up) {
      if down <= start <= up < |buckets| {
        if down <= i <= up {
          assert buckets[i] <= 0.0;
        } else {
          assert i == down - 1 || i == up + 1;
        }
      }
    }
  }

  /** On two buckets or more the loop stops from every start exactly when no bucket is negative. */
  lemma {:induction false} StopsExactlyWithoutNegatives(buckets: seq<real>)
    requires |buckets| >= 2
    ensures (forall start: nat, target: real :: start < |buckets| ==> Stops(buckets, start, target)) <==> NonNegative(buckets)
  {
    hide Stops, OnIsland;
    if NonNegative(buckets) {
      forall start: nat, target: real | start < |buckets| ensures Stops(buckets, start, target) {
        ReachesShore(buckets, start, start, start);
        StopsExactlyOnIsland(buckets, start);
      }
    } else {
      var i :| 0 <= i < |buckets| && buckets[i] < 0.0;
      var start := if i > 0 then i - 1 else 1;
      NextToNegativeIsOffIsland(buckets, start, i);
      StopsExactlyOnIsland(buckets, start);
      assert !forall target: real :: Stops(buckets, start, target);
    }
  }

  /** Without negative buckets every start lies on an island. */
  lemma {:induction false} ReachesShore(buckets: seq<real>, start: nat, down: nat, up: nat)
    requires NonNegative(buckets) && down <= start <= up < |buckets|
    requires forall i :: down <= i <= up && i != start ==> buckets[i] > 0.0
    ensures OnIsland(buckets, start)
    decreases down + (|buckets| - up)
  {
    if Neighbour(buckets, down - 1) > 0.0 {
      ReachesShore(buckets, start, down - 1, up);
    } else if Neighbour(buckets, up + 1) > 0.0 {
      ReachesShore(buckets, start, down, up + 1);
    } else {
      assert IsIsland(buckets, start, down, up);
    }
  }

  // ----- what it ends with -----

  /** Volumes that never rise when moving away from the point of control. */
  ghost predicate Unimodal(buckets: seq<real>, poc: nat) {
    && (forall i, j :: poc <= i <= j < |buckets| ==> buckets[i] >= buckets[j])
    && forall i, j :: 0 <= i <= j <= poc && j < |buckets| ==> buckets[i] <= buckets[j]
  }

  /** No bucket outside the area holds more than one inside. */
  ghost predicate Heaviest(buckets: seq<real>, down: nat, up: nat) {
    forall i, j :: 0 <= i < |buckets| && !(down <= i <= up) && down <= j <= up < |buckets| ==> buckets[i] <= buckets[j]
  }

  lemma {:induction false} WidensHeaviest(buckets: seq<real>, start: nat, a: Area)
    requires 0 <= a.down <= start <= a.up < |buckets| && Unimodal(buckets, start) && Heaviest(buckets, a.down, a.up)
    requires 0 <= Widened(buckets, a).down && Widened(buckets, a).up < |buckets|
    ensures Heaviest(buckets, Widened(buckets, a).down, Widened(buckets, a).up)
  {
  }

  lemma {:induction false} OneIsHeaviest(buckets: seq<real>, start: nat)
    requires start < |buckets| && Unimodal(buckets, start)
    ensures Heaviest(buckets, start, start)
  {
  }

  /** On a distribution with one hill the loop takes the heaviest buckets, whatever the target. */
  lemma {:induction false} GreedyIsHeaviest(buckets: seq<real>, start: nat, target: real, n: nat, k: nat)
    requires start < |buckets| && Unimodal(buckets, start) && StopsAfter(buckets, start, target, n) && k <= n
    ensures var a := AreaAfter(buckets, start, k); 0 <= a.down <= a.up < |buckets| && Heaviest(buckets, a.down, a.up)
    decreases k
  {
    hide RangeSum, StopsAfter, Unimodal, Heaviest, Lost, Widened;
    StaysInside(buckets, start, target, n, k);
    if k > 0 {
      GreedyIsHeaviest(buckets, start, target, n, k - 1);
      StaysInside(buckets, start, target, n, k - 1);
      WidensHeaviest(buckets, start, AreaAfter(buckets, start, k - 1));
    } else {
      OneIsHeaviest(buckets, start);
    }
  }

  /**
   * Each step takes the larger neighbour, the upper one on a tie; beyond the ends of the
   * array there is nothing to take.
   */
  lemma {:induction false} TakesLargerNeighbour(buckets: seq<real>, start: nat, target: real, n: nat, k: nat)
    requires start < |buckets| && StopsAfter(buckets, start, target, n) && k < n
    ensures var a, next := AreaAfter(buckets, start, k), AreaAfter(buckets, start, k + 1);
            && 0 <= a.down <= a.up < |buckets| && 0 <= next.down <= next.up < |buckets|
            && var above, below := if a.up + 1 < |buckets| then buckets[a.up + 1] else 0.0, if a.down > 0 then buckets[a.down - 1] else 0.0;
               if above >= below then next.down == a.down && next.up == a.up + 1 else next.down == a.down - 1 && next.up == a.up
  {
    hide RangeSum, StopsAfter, Lost;
    StaysInside(buckets, start, target, n, k);
    StaysInside(buckets, start, target, n, k + 1);
  }

  /** It goes on exactly while the area holds less than the target and a neighbour holds something. */
  lemma {:induction false} GoesOnExactlyWhileShort(buckets: seq<real>, start: nat, target: real, n: nat, k: nat)
    requires start < |buckets| && StopsAfter(buckets, start, target, n) && k <= n
    ensures var a := AreaAfter(buckets, start, k);
            && 0 <= a.down <= start <= a.up < |buckets|
            && (k < n <==> RangeSum(buckets, a.down, a.up + 1) < target
                           && ((a.up + 1 < |buckets| && buckets[a.up + 1] != 0.0) || (a.down > 0 && buckets[a.down - 1] != 0.0)))
  {
    hide RangeSum, StopsAfter, Lost;
    StaysInside(buckets, start, target, n, k);
    StopsThen(buckets, start, target, n, k);
  }

  /** What the loop ends with is a value area. */
  lemma {:induction false} GreedyIsValueArea(buckets: seq<real>, start: nat, target: real, n: nat)
    requires start < |buckets| && StopsAfter(buckets, start, target, n)
    ensures var a := AreaAfter(buckets, start, n); a.down >= 0 && a.up >= 0 && IsValueArea(buckets, start, a.down, a.up, target)
  {
    hide RangeSum, StopsAfter, Lost;
    StaysInside(buckets, start, target, n, n);
    StopsThen(buckets, start, target, n, n);
    if n > 0 {
      StaysInside(buckets, start, target, n, n - 1);
      StopsThen(buckets, start, target, n, n - 1);
    }
  }

  /** The loop is at `a`, so many steps into a run of n. */
  ghost predicate Reached(buckets: seq<real>, start: nat, target: real, n: nat, steps: nat, a: Area) {
    start < |buckets| && StopsAfter(buckets, start, target, n) && steps <= n && AreaAfter(buckets, start, steps) == a
  }

  lemma {:induction false} ReachedStep(buckets: seq<real>, start: nat, target: real, n: nat, steps: nat, a: Area)
    requires Reached(buckets, start, target, n, steps, a)
    ensures 0 <= a.down <= start <= a.up < |buckets|
    ensures Complete(buckets, a, target) <==> steps == n
    ensures steps < n ==> Reached(buckets, start, target, n, steps + 1, Widened(buckets, a))
  {
    hide StopsAfter, Complete, Widened, Lost, RangeSum;
    StaysInside(buckets, start, target, n, steps);
    StopsThen(buckets, start, target, n, steps);
  }

  lemma {:induction false} ReachedEnd(buckets: seq<real>, start: nat, target: real, n: nat, a: Area)
    requires Reached(buckets, start, target, n, n, a)
    ensures a.down >= 0 && a.up >= 0 && IsGreedyArea(buckets, start, target, a.down, a.up)
    ensures IsValueArea(buckets, start, a.down, a.up, target)
    ensures Unimodal(buckets, start) ==> Heaviest(buckets, a.down, a.up)
  {
    hide StopsAfter, IsValueArea, Unimodal, Heaviest;
    GreedyIsValueArea(buckets, start, target, n);
    if Unimodal(buckets, start) {
      GreedyIsHeaviest(buckets, start, target, n, n);
    }
  }

  /** Greedily adds the larger neighbour, wherever that comes to an end. */
  method ValueArea(buckets: seq<real>, maxIndex: nat, totalVolume: real, valueAreaPct: real) returns (down: nat, up: nat)
    requires maxIndex < |buckets| && Stops(buckets, maxIndex, Target(totalVolume, valueAreaPct))
    ensures IsGreedyArea(buckets, maxIndex, Target(totalVolume, valueAreaPct), down, up)
    ensures IsValueArea(buckets, maxIndex, down, up, Target(totalVolume, valueAreaPct))
    ensures Unimodal(buckets, maxIndex) ==> Heaviest(buckets, down, up)
  {
    hide Target, Unimodal, Heaviest, StopsAfter, IsValueArea, IsGreedyArea;
    var targetVolume := Target(totalVolume, valueAreaPct);
    up, down := maxIndex, maxIndex;
    var valueAreaVolume := buckets[maxIndex];
    ghost var n: nat :| StopsAfter(buckets, maxIndex, targetVolume, n);
    ghost var steps: nat := 0;
    ReachedStep(buckets, maxIndex, targetVolume, n, 0, Area(down, up, valueAreaVolume));
    hide Reached;
    while valueAreaVolume < targetVolume
      invariant Reached(buckets, maxIndex, targetVolume, n, steps, Area(down, up, valueAreaVolume))
      invariant down <= maxIndex <= up < |buckets| && steps <= n
      invariant Complete(buckets, Area(down, up, valueAreaVolume), targetVolume) <==> steps == n
      decreases n - steps
    {
      var upVolume := if up < |buckets| - 1 then buckets[up + 1] else 0.0;
      var downVolume := if down > 0 then buckets[down - 1] else 0.0;
      if upVolume == 0.0 && downVolume == 0.0 {
        break;
      }
      ReachedStep(buckets, maxIndex, targetVolume, n, steps, Area(down, up, valueAreaVolume));
      steps := steps + 1;
      ReachedStep(buckets, maxIndex, targetVolume, n, steps, Widened(buckets, Area(down, up, valueAreaVolume)));
      if upVolume >= downVolume {
        valueAreaVolume := valueAreaVolume + upVolume;
        up := up + 1;
      } else {
        valueAreaVolume := valueAreaVolume + downVolume;
        down := down - 1;
      }
    }
    ReachedEnd(buckets, maxIndex, targetVolume, n, Area(down, up, valueAreaVolume));
  }

  lemma {:induction false} OneBucket(buckets: seq<real>, i: nat)
    requires i < |buckets|
    ensures RangeSum(buckets, i, i + 1) == buckets[i]
  {
  }

  /** The first bucket of the largest volume. */
  ghost predicate IsPointOfControl(buckets: seq<real>, poc: nat) {
    poc < |buckets| && forall k :: 0 <= k < |buckets| ==> buckets[k] <= buckets[poc] && (k < poc ==> buckets[k] < buckets[poc])
  }

  /** The point of control and the sum of all buckets. */
  method PointOfControl(buckets: seq<real>) returns (maxIndex: nat, totalVolume: real)
    requires buckets != []
    ensures IsPointOfControl(buckets, maxIndex) && totalVolume == RangeSum(buckets, 0, |buckets|)
  {
    maxIndex, totalVolume := 0, 0.0;
    for index := 0 to |buckets|
      invariant maxIndex < |buckets| && (index > 0 ==> maxIndex < index) && (index == 0 ==> maxIndex == 0)
      invariant totalVolume == RangeSum(buckets, 0, index)
      invariant forall k :: 0 <= k < index ==> buckets[k] <= buckets[maxIndex] && (k < maxIndex ==> buckets[k] < buckets[maxIndex])
    {
      totalVolume := totalVolume + buckets[index];
      if buckets[index] > buckets[maxIndex] {
        maxIndex := index;
      }
    }
  }

  datatype Profile = Profile(poc: real, vah: real, val: real, rangeHigh: real, rangeLow: real)

  function Level(rangeLow: real, bucketSize: real, index: nat): real {
    rangeLow + bucketSize * index as real
  }

  lemma {:induction false} LevelsInRange(rangeLow: real, rangeHigh: real, steps: nat, i: nat, j: nat)
    requires steps > 0 && rangeHigh > rangeLow && i <= j <= steps
    ensures rangeLow <= Level(rangeLow, (rangeHigh - rangeLow) / steps as real, i)
         <= Level(rangeLow, (rangeHigh - rangeLow) / steps as real, j) <= rangeHigh
  {
    hide Level;
    var size := (rangeHigh - rangeLow) / steps as real;
    PositiveQuotient(rangeHigh - rangeLow, steps as real);
    LevelEnds(rangeLow, rangeHigh, steps);
    LevelsOrder(rangeLow, size, 0, i);
    LevelsOrder(rangeLow, size, i, j);
    LevelsOrder(rangeLow, size, j, steps);
  }

  lemma {:induction false} LevelsOrder(rangeLow: real, size: real, i: nat, j: nat)
    requires size > 0.0 && i <= j
    ensures Level(rangeLow, size, i) <= Level(rangeLow, size, j)
  {
  }

  /** Levels are the edges of the buckets; a target is the percentage of the total. */
  lemma {:induction false} LevelsAndTargets(rangeLow: real, bucketSize: real, index: nat, total: real, pct: real)
    ensures Level(rangeLow, bucketSize, index) == Edge(rangeLow, bucketSize, index)
    ensures 100.0 * Target(total, pct) == pct * total
  {
  }

  lemma {:induction false} LevelEnds(rangeLow: real, rangeHigh: real, steps: nat)
    requires steps > 0
    ensures Level(rangeLow, (rangeHigh - rangeLow) / steps as real, 0) == rangeLow
    ensures Level(rangeLow, (rangeHigh - rangeLow) / steps as real, steps) == rangeHigh
  {
  }

  lemma {:induction false} Scaled(size: real, a: real, b: real)
    requires size > 0.0 && a <= b
    ensures size * a <= size * b
  {
  }

  /** The bucket volumes of bars from..n. */
  ghost function Distribution(g: Grid, b: Bars, from: nat, n: nat): (r: seq<real>)
    requires ValidGrid(g) && b.Aligned() && from <= n <= |b.volumes|
    ensures |r| == g.bins && forall k :: 0 <= k < g.bins ==> r[k] == BucketVolume(g, b, from, n, k)
  {
    seq(g.bins, k => BucketVolume(g, b, from, n, k))
  }

  /** There is something to profile. */
  ghost predicate Profiled(b: Bars, closes: nat, lookback: int, bins: int) {
    && Distributable(bins, b, closes, lookback, bins, bins - 1) && b.Aligned()
    && LandedVolume(GridOf(b, closes, lookback, bins, bins - 1), b, closes - lookback, closes) != 0.0
  }

  /** The value area of what is profiled comes to an end. */
  ghost predicate AreaStops(buckets: seq<real>, pct: real) {
    forall poc: nat | IsPointOfControl(buckets, poc) :: Stops(buckets, poc, Target(RangeSum(buckets, 0, |buckets|), pct))
  }

  lemma {:induction false} DistributionNonNegative(g: Grid, b: Bars, from: nat, n: nat)
    requires ValidGrid(g) && b.Aligned() && from <= n <= |b.volumes| && NonNegative(b.volumes)
    ensures NonNegative(Distribution(g, b, from, n))
  {
    hide BucketVolume;
    forall k | 0 <= k < g.bins ensures Distribution(g, b, from, n)[k] >= 0.0 {
      BucketVolumeNonNegative(g, b, from, n, k);
    }
  }

  /** Volumes that are not negative are enough for the area to come to an end. */
  lemma {:induction false} VolumesStop(g: Grid, b: Bars, from: nat, n: nat, pct: real)
    requires ValidGrid(g) && b.Aligned() && from <= n <= |b.volumes| && NonNegative(b.volumes)
    ensures AreaStops(Distribution(g, b, from, n), pct)
  {
    hide Stops, BucketVolume, RangeSum, Target;
    DistributionNonNegative(g, b, from, n);
    StopsExactlyWithoutNegatives(Distribution(g, b, from, n));
  }

  /** The whole profile over the last `lookback` bars; the ghost results are the point of control and the area's bounds. */
  method VolumeProfile(b: Bars, closes: nat, lookback: int, bins: int, valueAreaPct: real)
      returns (profile: Option<Profile>, ghost poc: nat, ghost down: nat, ghost up: nat)
    requires Profiled(b, closes, lookback, bins) ==>
               AreaStops(Distribution(GridOf(b, closes, lookback, bins, bins - 1), b, closes - lookback, closes), valueAreaPct)
    ensures profile.Some? <==> Profiled(b, closes, lookback, bins)
    ensures profile.Some? ==>
              var g := GridOf(b, closes, lookback, bins, bins - 1);
              var volumes, total := Distribution(g, b, closes - lookback, closes), LandedVolume(g, b, closes - lookback, closes);
              && IsPointOfControl(volumes, poc) && IsGreedyArea(volumes, poc, Target(total, valueAreaPct), down, up)
              && IsValueArea(volumes, poc, down, up, Target(total, valueAreaPct))
              && (Unimodal(volumes, poc) ==> Heaviest(volumes, down, up))
              && profile.value.poc == Level(g.rangeLow, g.bucketSize, poc)
              && profile.value.vah == Level(g.rangeLow, g.bucketSize, up) && profile.value.val == Level(g.rangeLow, g.bucketSize, down)
              && profile.value.rangeHigh == RangeMax(b.highs, closes - lookback, closes) && profile.value.rangeLow == g.rangeLow
              && profile.value.rangeLow <= profile.value.val <= profile.value.poc <= profile.value.vah <= profile.value.rangeHigh
  {
    hide RangeMax, RangeMin, BucketVolume, LandedVolume, RangeSum, Level, IsValueArea, IsGreedyArea, Target, Stops, Unimodal, Heaviest;
    profile, poc, down, up := None, 0, 0, 0;
    if bins < 2 {
      return;
    }
    var buckets := new real[bins];
    var rangeHigh, rangeLow, bucketSize, ok := PriceVolumeBucketsInto(buckets, b, closes, lookback, bins, bins - 1);
    if !ok {
      return;
    }
    ghost var g := GridOf(b, closes, lookback, bins, bins - 1);
    var filled := buckets[..bins];
    assert filled == Distribution(g, b, closes - lookback, closes);
    var maxIndex, totalVolume := PointOfControl(filled);
    if totalVolume == 0.0 {
      return;
    }
    var lower, upper := ValueArea(filled, maxIndex, totalVolume, valueAreaPct);
    AreaBounds(filled, maxIndex, lower, upper, Target(totalVolume, valueAreaPct));
    LevelsInRange(rangeLow, rangeHigh, bins - 1, lower, maxIndex);
    LevelsInRange(rangeLow, rangeHigh, bins - 1, maxIndex, upper);
    poc, down, up := maxIndex, lower, upper;
    profile := Some(Profile(Level(rangeLow, bucketSize, maxIndex), Level(rangeLow, bucketSize, upper),
         Level(rangeLow, bucketSize, lower), rangeHigh, rangeLow));
  }

  lemma {:induction false} AreaBounds(buckets: seq<real>, poc: nat, down: nat, up: nat, target: real)
    requires IsValueArea(buckets, poc, down, up, target)
    ensures down <= poc <= up < |buckets|
  {
  }
}
