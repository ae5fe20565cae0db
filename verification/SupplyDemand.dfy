/**
 * Supply and demand zones: the buckets from the top and from the bottom that first hold a
 * share of the volume.
 */
module SupplyDemand {
  import opened Numeric
  import opened VolumeBuckets
  import opened VolumeProfile

  function Centre(rangeLow: real, bucketSize: real, index: nat): real {
    rangeLow + bucketSize * (index as real + 0.5)
  }

  /** Volume times bucket centre over buckets lo..hi. */
  function Weighted(buckets: seq<real>, rangeLow: real, bucketSize: real, lo: nat, hi: nat): real
    requires lo <= hi <= |buckets|
    decreases hi - lo
  {
    if lo == hi then 0.0 else Weighted(buckets, rangeLow, bucketSize, lo + 1, hi) + Centre(rangeLow, bucketSize, lo) * buckets[lo]
  }

  function Average(weighted: real, volume: real): real {
    if volume == 0.0 then 0.0 else weighted / volume
  }

  /** The volume of the buckets from the bottom through i. */
  function VolumeThrough(buckets: seq<real>, i: nat): real
    requires i < |buckets|
  {
    RangeSum(buckets, 0, i + 1)
  }

  /** i is the first bucket from the top at which the volume above reaches the target; the bottom bucket when none does. */
  ghost predicate IsSupply(buckets: seq<real>, target: real, i: nat) {
    && i < |buckets| && (forall k :: i < k < |buckets| ==> RangeSum(buckets, k, |buckets|) < target)
    && (i == 0 || RangeSum(buckets, i, |buckets|) >= target)
  }

  ghost predicate IsDemand(buckets: seq<real>, target: real, i: nat) {
    && i < |buckets| && (forall k :: 0 <= k < i ==> VolumeThrough(buckets, k) < target)
    && (i == |buckets| - 1 || VolumeThrough(buckets, i) >= target)
  }

  lemma {:induction false} TopStep(buckets: seq<real>, rangeLow: real, bucketSize: real, i: nat)
    requires i < |buckets|
    ensures RangeSum(buckets, i, |buckets|) == RangeSum(buckets, i + 1, |buckets|) + buckets[i]
    ensures Weighted(buckets, rangeLow, bucketSize, i, |buckets|)
         == Weighted(buckets, rangeLow, bucketSize, i + 1, |buckets|) + Centre(rangeLow, bucketSize, i) * buckets[i]
  {
    hide Centre;
    RangeSumDropFirst(buckets, i, |buckets|);
  }

  lemma {:induction false} WeightedSnoc(buckets: seq<real>, rangeLow: real, bucketSize: real, lo: nat, hi: nat)
    requires lo <= hi < |buckets|
    ensures Weighted(buckets, rangeLow, bucketSize, lo, hi + 1)
         == Weighted(buckets, rangeLow, bucketSize, lo, hi) + Centre(rangeLow, bucketSize, hi) * buckets[hi]
    decreases hi - lo
  {
    hide Centre;
    if lo < hi {
      WeightedSnoc(buckets, rangeLow, bucketSize, lo + 1, hi);
    }
  }

  /** The boundary from the top, its weighted average, and whether there is any volume. */
  method SupplyBoundary(buckets: seq<real>, rangeLow: real, bucketSize: real, target: real) returns (index: nat, average: real, ok: bool)
    ensures ok ==> buckets != [] && target > 0.0 && IsSupply(buckets, target, index) && RangeSum(buckets, index, |buckets|) > 0.0
                   && average == Weighted(buckets, rangeLow, bucketSize, index, |buckets|) / RangeSum(buckets, index, |buckets|)
    ensures !ok ==> buckets == [] || target <= 0.0 || RangeSum(buckets, 0, |buckets|) <= 0.0
  {
    hide RangeSum, Weighted, Centre;
    if |buckets| == 0 || target <= 0.0 {
      return 0, 0.0, false;
    }
    var volumeSum, weightedSum := 0.0, 0.0;
    var i: nat := |buckets|;
    TopIsEmpty(buckets, rangeLow, bucketSize);
    while i > 0
      invariant i <= |buckets|
      invariant volumeSum == RangeSum(buckets, i, |buckets|) && weightedSum == Weighted(buckets, rangeLow, bucketSize, i, |buckets|)
      invariant forall k :: i <= k < |buckets| ==> RangeSum(buckets, k, |buckets|) < target
    {
      i := i - 1;
      TopStep(buckets, rangeLow, bucketSize, i);
      volumeSum := volumeSum + buckets[i];
      weightedSum := weightedSum + Centre(rangeLow, bucketSize, i) * buckets[i];
      if volumeSum >= target {
        return i, Average(weightedSum, volumeSum), true;
      }
    }
    return 0, Average(weightedSum, volumeSum), volumeSum > 0.0;
  }

  lemma {:induction false} TopIsEmpty(buckets: seq<real>, rangeLow: real, bucketSize: real)
    ensures RangeSum(buckets, |buckets|, |buckets|) == 0.0 && Weighted(buckets, rangeLow, bucketSize, |buckets|, |buckets|) == 0.0
    ensures RangeSum(buckets, 0, 0) == 0.0 && Weighted(buckets, rangeLow, bucketSize, 0, 0) == 0.0
  {
  }

  lemma {:induction false} BottomStep(buckets: seq<real>, i: nat)
    requires i < |buckets|
    ensures RangeSum(buckets, 0, i + 1) == RangeSum(buckets, 0, i) + buckets[i]
  {
  }

  method DemandBoundary(buckets: seq<real>, rangeLow: real, bucketSize: real, target: real) returns (index: nat, average: real, ok: bool)
    ensures ok ==> buckets != [] && target > 0.0 && IsDemand(buckets, target, index) && VolumeThrough(buckets, index) > 0.0
                   && average == Weighted(buckets, rangeLow, bucketSize, 0, index + 1) / VolumeThrough(buckets, index)
    ensures !ok ==> buckets == [] || target <= 0.0 || RangeSum(buckets, 0, |buckets|) <= 0.0
  {
    hide RangeSum, Weighted, Centre;
    if |buckets| == 0 || target <= 0.0 {
      return 0, 0.0, false;
    }
    var volumeSum, weightedSum := 0.0, 0.0;
    TopIsEmpty(buckets, rangeLow, bucketSize);
    for i := 0 to |buckets|
      invariant volumeSum == RangeSum(buckets, 0, i) && weightedSum == Weighted(buckets, rangeLow, bucketSize, 0, i)
      invariant forall k :: 0 <= k < i ==> VolumeThrough(buckets, k) < target
    {
      BottomStep(buckets, i);
      WeightedSnoc(buckets, rangeLow, bucketSize, 0, i);
      volumeSum := volumeSum + buckets[i];
      weightedSum := weightedSum + Centre(rangeLow, bucketSize, i) * buckets[i];
      if volumeSum >= target {
        return i, Average(weightedSum, volumeSum), true;
      }
    }
    index := |buckets| - 1;
    assert VolumeThrough(buckets, index) == volumeSum;
    average, ok := Average(weightedSum, volumeSum), volumeSum > 0.0;
  }

  // ----- the zones do not cross -----

  lemma {:induction false} SumSplits(buckets: seq<real>, k: nat)
    requires k <= |buckets|
    ensures RangeSum(buckets, 0, |buckets|) == RangeSum(buckets, 0, k) + RangeSum(buckets, k, |buckets|)
  {
    SumSplitsAt(buckets, k, |buckets|);
  }

  lemma {:induction false} SumSplitsAt(buckets: seq<real>, k: nat, n: nat)
    requires k <= n <= |buckets|
    ensures RangeSum(buckets, 0, n) == RangeSum(buckets, 0, k) + RangeSum(buckets, k, n)
    decreases n
  {
    if k < n {
      SumSplitsAt(buckets, k, n - 1);
    }
  }

  /** Boundaries that cross leave less than two targets in all. */
  lemma {:induction false} CrossingLeavesTooLittle(buckets: seq<real>, target: real, supply: nat, demand: nat)
    requires IsSupply(buckets, target, supply) && IsDemand(buckets, target, demand) && supply < demand
    ensures RangeSum(buckets, 0, |buckets|) < 2.0 * target
  {
    hide RangeSum;
    SumSplits(buckets, demand);
    assert RangeSum(buckets, demand, |buckets|) < target && VolumeThrough(buckets, demand - 1) < target;
  }

  /** With a target of at most half the total the supply boundary is never below the demand boundary. */
  lemma {:induction false} SupplyAboveDemand(buckets: seq<real>, target: real, supply: nat, demand: nat)
    requires IsSupply(buckets, target, supply) && IsDemand(buckets, target, demand) && 2.0 * target <= RangeSum(buckets, 0, |buckets|)
    ensures demand <= supply
  {
    hide RangeSum;
    if supply < demand {
      CrossingLeavesTooLittle(buckets, target, supply, demand);
    }
  }

  ghost predicate NeverCross(pct: real) {
    forall buckets: seq<real>, supply: nat, demand: nat ::
      NonNegative(buckets) && RangeSum(buckets, 0, |buckets|) > 0.0
      && IsSupply(buckets, Target(RangeSum(buckets, 0, |buckets|), pct), supply)
        && IsDemand(buckets, Target(RangeSum(buckets, 0, |buckets|), pct), demand)
      ==> demand <= supply
  }

  /** Thresholds keep the zones apart on every distribution exactly up to fifty percent. */
  lemma {:induction false} ZonesApartExactlyToHalf(pct: real)
    requires pct > 0.0
    ensures NeverCross(pct) <==> pct <= 50.0
  {
    hide RangeSum;
    if pct <= 50.0 {
      forall buckets: seq<real>, supply: nat, demand: nat | NonNegative(buckets) && RangeSum(buckets, 0, |buckets|) > 0.0
          && IsSupply(buckets, Target(RangeSum(buckets, 0, |buckets|), pct), supply)
            && IsDemand(buckets, Target(RangeSum(buckets, 0, |buckets|), pct), demand)
        ensures demand <= supply
      {
        HalfTarget(RangeSum(buckets, 0, |buckets|), pct);
        SupplyAboveDemand(buckets, Target(RangeSum(buckets, 0, |buckets|), pct), supply, demand);
      }
    } else {
      EvenPairCrosses(pct);
    }
  }

  lemma {:induction false} HalfTarget(total: real, pct: real)
    requires total > 0.0 && 0.0 < pct <= 50.0
    ensures 2.0 * Target(total, pct) <= total
  {
  }

  lemma {:induction false} EvenPairCrosses(pct: real)
    requires pct > 50.0
    ensures !NeverCross(pct)
  {
    var pair: seq<real> := [1.0, 1.0];
    assert RangeSum(pair, 0, 2) == 2.0 && RangeSum(pair, 1, 2) == 1.0 && RangeSum(pair, 0, 1) == 1.0;
    assert Target(2.0, pct) > 1.0;
    assert VolumeThrough(pair, 0) == 1.0;
    assert IsSupply(pair, Target(RangeSum(pair, 0, |pair|), pct), 0) && IsDemand(pair, Target(RangeSum(pair, 0, |pair|), pct), 1);
  }

  // ----- the averages lie in their zones -----

  lemma {:induction false} WeightedBounds(buckets: seq<real>, rangeLow: real, bucketSize: real, lo: nat, hi: nat, floor: real, ceiling: real)
    requires lo <= hi <= |buckets| && NonNegative(buckets)
    requires forall k :: lo <= k < hi ==> floor <= Centre(rangeLow, bucketSize, k) <= ceiling
    ensures floor * RangeSum(buckets, lo, hi) <= Weighted(buckets, rangeLow, bucketSize, lo, hi) <= ceiling * RangeSum(buckets, lo, hi)
    decreases hi
  {
    hide Centre, RangeSum, Weighted;
    if lo < hi {
      WeightedBounds(buckets, rangeLow, bucketSize, lo, hi - 1, floor, ceiling);
      WeightedSnoc(buckets, rangeLow, bucketSize, lo, hi - 1);
      SumSnoc(buckets, lo, hi - 1);
      TermBounds(floor, Centre(rangeLow, bucketSize, hi - 1), ceiling, RangeSum(buckets, lo, hi - 1), buckets[hi - 1]);
    } else {
      RangeIsEmpty(buckets, rangeLow, bucketSize, lo);
    }
  }

  lemma {:induction false} SumSnoc(buckets: seq<real>, lo: nat, hi: nat)
    requires lo <= hi < |buckets|
    ensures RangeSum(buckets, lo, hi + 1) == RangeSum(buckets, lo, hi) + buckets[hi]
  {
  }

  lemma {:induction false} RangeIsEmpty(buckets: seq<real>, rangeLow: real, bucketSize: real, lo: nat)
    requires lo <= |buckets|
    ensures RangeSum(buckets, lo, lo) == 0.0 && Weighted(buckets, rangeLow, bucketSize, lo, lo) == 0.0
  {
  }

  lemma {:induction false} TermBounds(floor: real, centre: real, ceiling: real, volume: real, next: real)
    requires floor <= centre <= ceiling && next >= 0.0
    ensures floor * (volume + next) <= floor * volume + centre * next
    ensures ceiling * volume + centre * next <= ceiling * (volume + next)
  {
  }

  lemma {:induction false} QuotientBounds(weighted: real, volume: real, floor: real, ceiling: real)
    requires volume > 0.0 && floor * volume <= weighted <= ceiling * volume
    ensures floor <= weighted / volume <= ceiling
  {
  }

  lemma {:induction false} CentreBetween(rangeLow: real, bucketSize: real, lo: nat, k: nat, hi: nat)
    requires bucketSize > 0.0 && lo <= k < hi
    ensures Level(rangeLow, bucketSize, lo) <= Centre(rangeLow, bucketSize, k) <= Level(rangeLow, bucketSize, hi)
  {
    Scaled(bucketSize, lo as real, k as real + 0.5);
    Scaled(bucketSize, k as real + 0.5, hi as real);
  }

  /** A bucket weighs in at the middle between its edges. */
  lemma {:induction false} CentreIsMiddle(rangeLow: real, bucketSize: real, k: nat)
    ensures 2.0 * Centre(rangeLow, bucketSize, k) == Level(rangeLow, bucketSize, k) + Level(rangeLow, bucketSize, k + 1)
  {
    assert bucketSize * (k + 1) as real == bucketSize * k as real + bucketSize;
  }

  /** The weighted average of buckets lo..hi lies between their outer edges. */
  lemma {:induction false} AverageInZone(buckets: seq<real>, rangeLow: real, bucketSize: real, lo: nat, hi: nat)
    requires lo < hi <= |buckets| && NonNegative(buckets) && bucketSize > 0.0 && RangeSum(buckets, lo, hi) > 0.0
    ensures Level(rangeLow, bucketSize, lo) <= Weighted(buckets, rangeLow, bucketSize, lo, hi) / RangeSum(buckets, lo, hi)
         <= Level(rangeLow, bucketSize, hi)
  {
    hide RangeSum, Weighted, Centre, Level;
    forall k | lo <= k < hi ensures Level(rangeLow, bucketSize, lo) <= Centre(rangeLow, bucketSize, k) <= Level(rangeLow, bucketSize, hi) {
      CentreBetween(rangeLow, bucketSize, lo, k, hi);
    }
    WeightedBounds(buckets, rangeLow, bucketSize, lo, hi, Level(rangeLow, bucketSize, lo), Level(rangeLow, bucketSize, hi));
    QuotientBounds(Weighted(buckets, rangeLow, bucketSize, lo, hi), RangeSum(buckets, lo, hi),
         Level(rangeLow, bucketSize, lo), Level(rangeLow, bucketSize, hi));
  }

  // ----- the whole range -----

  datatype Zones = Zones(
    supplyTop: real, supplyBottom: real, supplyAvg: real, supplyWAvg: real,
    demandTop: real, demandBottom: real, demandAvg: real, demandWAvg: real, equilibrium: real, weightedEquilibrium: real)

  /** Each zone is an interval of the range around its plain average. */
  ghost predicate WellPlaced(z: Zones, high: real, low: real) {
    && z.supplyTop == high && z.demandBottom == low && low <= z.supplyBottom <= high && low <= z.demandTop <= high
    && z.supplyBottom <= z.supplyAvg <= z.supplyTop && z.demandBottom <= z.demandAvg <= z.demandTop
    && z.supplyAvg == (high + z.supplyBottom) / 2.0 && z.demandAvg == (z.demandTop + low) / 2.0 && z.equilibrium == (high + low) / 2.0
    && z.weightedEquilibrium == (z.supplyWAvg + z.demandWAvg) / 2.0
  }

  /** The weighted averages lie in their zones too. */
  ghost predicate WellWeighted(z: Zones) {
    && z.supplyBottom <= z.supplyWAvg <= z.supplyTop && z.demandBottom <= z.demandWAvg <= z.demandTop
    && z.demandBottom <= z.weightedEquilibrium <= z.supplyTop
  }

  /** Zones exist when there is volume; only negative buckets can push a weighted average out of its zone. */
  method SupplyDemandRange(b: Bars, closes: nat, lookback: int, bins: int, thresholdPct: real)
      returns (zones: Option<Zones>, ghost supply: nat, ghost demand: nat)
    ensures zones.Some? <==> thresholdPct > 0.0 && Distributable(bins, b, closes, lookback, bins, bins) && b.Aligned()
                             && LandedVolume(GridOf(b, closes, lookback, bins, bins), b, closes - lookback, closes) > 0.0
    ensures zones.Some? ==>
              var g, z := GridOf(b, closes, lookback, bins, bins), zones.value;
              var volumes, total := Distribution(g, b, closes - lookback, closes), LandedVolume(g, b, closes - lookback, closes);
              && IsSupply(volumes, Target(total, thresholdPct), supply) && IsDemand(volumes, Target(total, thresholdPct), demand)
              && (thresholdPct <= 50.0 ==> demand <= supply)
              && z.supplyBottom == Level(g.rangeLow, g.bucketSize, supply) && z.demandTop == Level(g.rangeLow, g.bucketSize, demand + 1)
              && z.supplyWAvg * RangeSum(volumes, supply, bins) == Weighted(volumes, g.rangeLow, g.bucketSize, supply, bins)
              && z.demandWAvg * VolumeThrough(volumes, demand) == Weighted(volumes, g.rangeLow, g.bucketSize, 0, demand + 1)
              && RangeSum(volumes, supply, bins) > 0.0 && VolumeThrough(volumes, demand) > 0.0
              && WellPlaced(z, RangeMax(b.highs, closes - lookback, closes), g.rangeLow)
              && (NonNegative(volumes) ==> WellWeighted(z))
  {
    hide RangeMax, RangeMin, BucketVolume, LandedVolume, RangeSum, Level, IsSupply, IsDemand, Target, Weighted, WellPlaced, WellWeighted;
    zones, supply, demand := None, 0, 0;
    if thresholdPct <= 0.0 || bins < 2 {
      return;
    }
    var buckets := new real[bins];
    var rangeHigh, rangeLow, bucketSize, ok := PriceVolumeBucketsInto(buckets, b, closes, lookback, bins, bins);
    if !ok {
      return;
    }
    ghost var g := GridOf(b, closes, lookback, bins, bins);
    var filled := buckets[..bins];
    assert filled == Distribution(g, b, closes - lookback, closes);
    var _, totalVolume := PointOfControl(filled);
    if totalVolume == 0.0 {
      return;
    }
    var target := Target(totalVolume, thresholdPct);
    TargetSign(totalVolume, thresholdPct);
    var supplyIndex, supplyWAvg, okSupply := SupplyBoundary(filled, rangeLow, bucketSize, target);
    var demandIndex, demandWAvg, okDemand := DemandBoundary(filled, rangeLow, bucketSize, target);
    if !okSupply || !okDemand {
      return;
    }
    BoundariesInRange(filled, target, supplyIndex, demandIndex);
    if thresholdPct <= 50.0 {
      HalfTarget(totalVolume, thresholdPct);
      SupplyAboveDemand(filled, target, supplyIndex, demandIndex);
    }
    supply, demand := supplyIndex, demandIndex;
    var z := Assemble(rangeHigh, rangeLow, bucketSize, bins, supplyIndex, demandIndex, supplyWAvg, demandWAvg);
    if NonNegative(filled) {
      AverageInZone(filled, rangeLow, bucketSize, supplyIndex, bins);
      AverageInZone(filled, rangeLow, bucketSize, 0, demandIndex + 1);
      AveragesInside(z, rangeHigh, rangeLow, bucketSize, bins, supplyIndex, demandIndex);
    }
    zones := Some(z);
  }

  method Assemble(rangeHigh: real, rangeLow: real, bucketSize: real, bins: nat, supply: nat, demand: nat, supplyWAvg: real,
        demandWAvg: real) returns (z: Zones)
    requires bins > 0 && rangeHigh > rangeLow && bucketSize == (rangeHigh - rangeLow) / bins as real && supply < bins && demand < bins
    ensures z.supplyBottom == Level(rangeLow, bucketSize, supply) && z.demandTop == Level(rangeLow, bucketSize, demand + 1)
    ensures z.supplyWAvg == supplyWAvg && z.demandWAvg == demandWAvg
    ensures WellPlaced(z, rangeHigh, rangeLow)
  {
    hide Level;
    LevelsInRange(rangeLow, rangeHigh, bins, supply, bins);
    LevelsInRange(rangeLow, rangeHigh, bins, 0, demand + 1);
    var supplyBottom, demandTop := Level(rangeLow, bucketSize, supply), Level(rangeLow, bucketSize, demand + 1);
    z := Zones(rangeHigh, supplyBottom, (rangeHigh + supplyBottom) / 2.0, supplyWAvg,
               demandTop, rangeLow, (demandTop + rangeLow) / 2.0, demandWAvg, (rangeHigh + rangeLow) / 2.0, (supplyWAvg + demandWAvg) / 2.0);
  }

  lemma {:induction false} AveragesInside(z: Zones, rangeHigh: real, rangeLow: real, bucketSize: real, bins: nat, supply: nat, demand: nat)
    requires bins > 0 && rangeHigh > rangeLow && bucketSize == (rangeHigh - rangeLow) / bins as real && supply < bins && demand < bins
    requires WellPlaced(z, rangeHigh, rangeLow)
    requires z.supplyBottom == Level(rangeLow, bucketSize, supply) && z.demandTop == Level(rangeLow, bucketSize, demand + 1)
    requires Level(rangeLow, bucketSize, supply) <= z.supplyWAvg <= Level(rangeLow, bucketSize, bins)
    requires Level(rangeLow, bucketSize, 0) <= z.demandWAvg <= Level(rangeLow, bucketSize, demand + 1)
    ensures WellWeighted(z)
  {
    hide Level;
    LevelEnds(rangeLow, rangeHigh, bins);
  }

  lemma {:induction false} BoundariesInRange(buckets: seq<real>, target: real, supply: nat, demand: nat)
    requires IsSupply(buckets, target, supply) && IsDemand(buckets, target, demand)
    ensures supply < |buckets| && demand < |buckets|
  {
  }

  lemma {:induction false} TargetSign(total: real, pct: real)
    requires pct > 0.0
    ensures Target(total, pct) > 0.0 <==> total > 0.0
  {
  }
}
