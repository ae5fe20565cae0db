/**
 * Volume spread over price buckets: every bar gives an equal share of its volume to each
 * bucket between its low and its high, added up in place in a caller's array.
 */
module VolumeBuckets {
  import opened Numeric

  function ClampInt(value: int, minimum: int, maximum: int): (r: int)
    ensures minimum <= maximum ==> minimum <= r <= maximum
  {
    if value < minimum then minimum else if value > maximum then maximum else value
  }

  function BucketIndex(price: real, rangeLow: real, bucketSize: real, bins: int): (r: int)
    requires bucketSize > 0.0 && bins >= 1
    ensures 0 <= r < bins
  {
    ClampInt(((price - rangeLow) / bucketSize).Floor, 0, bins - 1)
  }

  /** A higher price never lands in a lower bucket. */
  lemma {:induction false} BucketIndexMonotone(a: real, b: real, rangeLow: real, bucketSize: real, bins: int)
    requires bucketSize > 0.0 && bins >= 1 && a <= b
    ensures BucketIndex(a, rangeLow, bucketSize, bins) <= BucketIndex(b, rangeLow, bucketSize, bins)
  {
    QuotientOrder(a - rangeLow, b - rangeLow, bucketSize);
    FloorOrder((a - rangeLow) / bucketSize, (b - rangeLow) / bucketSize);
  }

  lemma {:induction false} QuotientOrder(x: real, y: real, d: real)
    requires x <= y && d > 0.0
    ensures x / d <= y / d
  {
  }

  lemma {:induction false} FloorOrder(x: real, y: real)
    requires x <= y
    ensures x.Floor <= y.Floor
  {
  }

  /** The geometry of one distribution. */
  datatype Grid = Grid(rangeLow: real, bucketSize: real, bins: int)

  predicate ValidGrid(g: Grid) {
    g.bucketSize > 0.0 && g.bins >= 2
  }

  datatype Bars = Bars(highs: seq<real>, lows: seq<real>, volumes: seq<real>) {
    predicate Aligned() {
      |highs| == |volumes| && |lows| == |volumes|
    }
  }

  function LowBucket(g: Grid, b: Bars, i: nat): int
    requires ValidGrid(g) && b.Aligned() && i < |b.volumes|
  {
    BucketIndex(b.lows[i], g.rangeLow, g.bucketSize, g.bins)
  }

  function HighBucket(g: Grid, b: Bars, i: nat): int
    requires ValidGrid(g) && b.Aligned() && i < |b.volumes|
  {
    BucketIndex(b.highs[i], g.rangeLow, g.bucketSize, g.bins)
  }

  /** What bar i gives to a bucket; a bar whose high falls below its low bucket gives nothing. */
  function Share(g: Grid, b: Bars, i: nat, bucket: int): real
    requires ValidGrid(g) && b.Aligned() && i < |b.volumes|
  {
    var lo, hi := LowBucket(g, b, i), HighBucket(g, b, i);
    if lo <= bucket <= hi then b.volumes[i] / (hi - lo + 1) as real else 0.0
  }

  /** What bars from..n have given to a bucket. */
  function BucketVolume(g: Grid, b: Bars, from: nat, n: nat, bucket: int): real
    requires ValidGrid(g) && b.Aligned() && from <= n <= |b.volumes|
    decreases n
  {
    if n == from then 0.0 else BucketVolume(g, b, from, n - 1, bucket) + Share(g, b, n - 1, bucket)
  }

  /** The volume of the bars from..n that land in some bucket. */
  function LandedVolume(g: Grid, b: Bars, from: nat, n: nat): real
    requires ValidGrid(g) && b.Aligned() && from <= n <= |b.volumes|
    decreases n
  {
    if n == from then 0.0
    else LandedVolume(g, b, from, n - 1) + if LowBucket(g, b, n - 1) <= HighBucket(g, b, n - 1) then b.volumes[n - 1] else 0.0
  }

  // ----- conservation -----

  /** One bar's shares over the first k buckets. */
  function SharesSum(g: Grid, b: Bars, i: nat, k: nat): real
    requires ValidGrid(g) && b.Aligned() && i < |b.volumes|
  {
    if k == 0 then 0.0 else SharesSum(g, b, i, k - 1) + Share(g, b, i, k - 1)
  }

  function BucketsSum(g: Grid, b: Bars, from: nat, n: nat, k: nat): real
    requires ValidGrid(g) && b.Aligned() && from <= n <= |b.volumes|
  {
    if k == 0 then 0.0 else BucketsSum(g, b, from, n, k - 1) + BucketVolume(g, b, from, n, k - 1)
  }

  function Portions(portion: real, count: nat): real {
    portion * count as real
  }

  lemma {:induction false} PortionsStep(portion: real, count: nat)
    ensures Portions(portion, count + 1) == Portions(portion, count) + portion && Portions(portion, 0) == 0.0
  {
  }

  lemma {:induction false} SharesSumIsPortions(g: Grid, b: Bars, i: nat, k: nat)
    requires ValidGrid(g) && b.Aligned() && i < |b.volumes| && LowBucket(g, b, i) <= HighBucket(g, b, i)
    ensures var lo, hi := LowBucket(g, b, i), HighBucket(g, b, i);
            var portion := b.volumes[i] / (hi - lo + 1) as real;
            SharesSum(g, b, i, k) == Portions(portion, if k <= lo then 0 else if k <= hi then k - lo else hi - lo + 1)
    decreases k
  {
    hide LowBucket, HighBucket, Portions;
    LowBucketInGrid(g, b, i);
    var lo, hi := LowBucket(g, b, i), HighBucket(g, b, i);
    var portion := b.volumes[i] / (hi - lo + 1) as real;
    PortionsStep(portion, 0);
    if k > 0 {
      SharesSumIsPortions(g, b, i, k - 1);
      if lo < k <= hi + 1 {
        PortionsStep(portion, k - 1 - lo);
      }
    }
  }

  lemma {:induction false} LowBucketInGrid(g: Grid, b: Bars, i: nat)
    requires ValidGrid(g) && b.Aligned() && i < |b.volumes|
    ensures 0 <= LowBucket(g, b, i) < g.bins && 0 <= HighBucket(g, b, i) < g.bins
  {
  }

  /** All the shares of a bar are its whole volume, or nothing. */
  lemma {:induction false} SharesAreWhole(g: Grid, b: Bars, i: nat)
    requires ValidGrid(g) && b.Aligned() && i < |b.volumes|
    ensures SharesSum(g, b, i, g.bins) == if LowBucket(g, b, i) <= HighBucket(g, b, i) then b.volumes[i] else 0.0
  {
    hide LowBucket, HighBucket, Portions;
    LowBucketInGrid(g, b, i);
    var lo, hi := LowBucket(g, b, i), HighBucket(g, b, i);
    if lo <= hi {
      SharesSumIsPortions(g, b, i, g.bins);
      PortionsRestore(b.volumes[i], hi - lo + 1);
    } else {
      NoShares(g, b, i, g.bins);
    }
  }

  lemma {:induction false} PortionsRestore(volume: real, count: nat)
    requires count > 0
    ensures Portions(volume / count as real, count) == volume
  {
  }

  lemma {:induction false} NoShares(g: Grid, b: Bars, i: nat, k: nat)
    requires ValidGrid(g) && b.Aligned() && i < |b.volumes| && LowBucket(g, b, i) > HighBucket(g, b, i)
    ensures SharesSum(g, b, i, k) == 0.0
    decreases k
  {
    hide LowBucket, HighBucket;
    if k > 0 {
      NoShares(g, b, i, k - 1);
    }
  }

  lemma {:induction false} BucketsSumStep(g: Grid, b: Bars, from: nat, n: nat, k: nat)
    requires ValidGrid(g) && b.Aligned() && from < n <= |b.volumes|
    ensures BucketsSum(g, b, from, n, k) == BucketsSum(g, b, from, n - 1, k) + SharesSum(g, b, n - 1, k)
    decreases k
  {
    hide Share;
    if k > 0 {
      BucketsSumStep(g, b, from, n, k - 1);
    }
  }

  /** The buckets together hold exactly the volume that landed. */
  lemma {:induction false} VolumeIsConserved(g: Grid, b: Bars, from: nat, n: nat)
    requires ValidGrid(g) && b.Aligned() && from <= n <= |b.volumes|
    ensures BucketsSum(g, b, from, n, g.bins) == LandedVolume(g, b, from, n)
    decreases n
  {
    hide LowBucket, HighBucket, Share;
    if n == from {
      EmptyBuckets(g, b, from, g.bins);
    } else {
      VolumeIsConserved(g, b, from, n - 1);
      BucketsSumStep(g, b, from, n, g.bins);
      SharesAreWhole(g, b, n - 1);
    }
  }

  lemma {:induction false} EmptyBuckets(g: Grid, b: Bars, from: nat, k: nat)
    requires ValidGrid(g) && b.Aligned() && from <= |b.volumes|
    ensures BucketsSum(g, b, from, from, k) == 0.0
    decreases k
  {
    if k > 0 {
      EmptyBuckets(g, b, from, k - 1);
    }
  }

  /** Every bar with low <= high lands. */
  lemma {:induction false} SaneBarsLand(g: Grid, b: Bars, from: nat, n: nat)
    requires ValidGrid(g) && b.Aligned() && from <= n <= |b.volumes|
    requires forall i :: from <= i < n ==> b.lows[i] <= b.highs[i]
    ensures LandedVolume(g, b, from, n) == RangeSum(b.volumes, from, n)
    decreases n
  {
    hide BucketIndex;
    if n > from {
      SaneBarsLand(g, b, from, n - 1);
      BucketIndexMonotone(b.lows[n - 1], b.highs[n - 1], g.rangeLow, g.bucketSize, g.bins);
    }
  }

  lemma {:induction false} BucketVolumeNonNegative(g: Grid, b: Bars, from: nat, n: nat, bucket: int)
    requires ValidGrid(g) && b.Aligned() && from <= n <= |b.volumes| && forall i :: from <= i < n ==> b.volumes[i] >= 0.0
    ensures BucketVolume(g, b, from, n, bucket) >= 0.0
    decreases n
  {
    hide LowBucket, HighBucket;
    if n > from {
      BucketVolumeNonNegative(g, b, from, n - 1, bucket);
      var low, high := LowBucket(g, b, n - 1), HighBucket(g, b, n - 1);
      QuotientOrder(0.0, b.volumes[n - 1], if low <= high then (high - low + 1) as real else 1.0);
    }
  }

  /** Buckets that hold the specified volumes sum to the specified sum. */
  lemma {:induction false} SumOfBuckets(g: Grid, b: Bars, from: nat, n: nat, buckets: seq<real>, k: nat)
    requires ValidGrid(g) && b.Aligned() && from <= n <= |b.volumes| && k <= |buckets|
    requires forall i :: 0 <= i < k ==> buckets[i] == BucketVolume(g, b, from, n, i)
    ensures RangeSum(buckets, 0, k) == BucketsSum(g, b, from, n, k)
    decreases k
  {
    hide BucketVolume;
    if k > 0 {
      SumOfBuckets(g, b, from, n, buckets, k - 1);
    }
  }

  // ----- the buckets in prices -----

  /** The lower edge of a bucket, and the upper edge of the one below it. */
  function Edge(rangeLow: real, bucketSize: real, bucket: int): real {
    rangeLow + bucketSize * bucket as real
  }

  /**
   * A price lies in its bucket, from the lower edge up to but not including the upper one;
   * prices below the range fall in the first bucket and those above it in the last.
   */
  lemma {:induction false} PriceLiesInItsBucket(price: real, rangeLow: real, bucketSize: real, bins: int)
    requires bucketSize > 0.0 && bins >= 1
    ensures var k := BucketIndex(price, rangeLow, bucketSize, bins);
            && (k > 0 ==> Edge(rangeLow, bucketSize, k) <= price)
            && (k < bins - 1 ==> price < Edge(rangeLow, bucketSize, k + 1))
  {
    var q := (price - rangeLow) / bucketSize;
    var k := BucketIndex(price, rangeLow, bucketSize, bins);
    assert price == rangeLow + bucketSize * q;
    if k > 0 {
      FromEdge(rangeLow, bucketSize, k, q);
    }
    if k < bins - 1 {
      BelowEdge(rangeLow, bucketSize, k + 1, q);
    }
  }

  lemma {:induction false} FromEdge(rangeLow: real, bucketSize: real, bucket: int, q: real)
    requires bucketSize > 0.0 && bucket as real <= q
    ensures Edge(rangeLow, bucketSize, bucket) <= rangeLow + bucketSize * q
  {
    Scales(bucketSize, bucket as real, q);
  }

  lemma {:induction false} BelowEdge(rangeLow: real, bucketSize: real, bucket: int, q: real)
    requires bucketSize > 0.0 && q < bucket as real
    ensures rangeLow + bucketSize * q < Edge(rangeLow, bucketSize, bucket)
  {
    assert bucketSize * (bucket as real - q) > 0.0;
  }

  lemma {:induction false} Scales(size: real, a: real, b: real)
    requires size > 0.0 && a <= b
    ensures size * a <= size * b
  {
  }

  lemma {:induction false} EdgesRise(rangeLow: real, bucketSize: real, i: int, j: int)
    requires bucketSize > 0.0 && i <= j
    ensures Edge(rangeLow, bucketSize, i) <= Edge(rangeLow, bucketSize, j)
  {
    Scales(bucketSize, i as real, j as real);
  }

  /** Bar i reaches a bucket: its low does not lie above the bucket nor its high below it. */
  ghost predicate Reaches(g: Grid, b: Bars, i: nat, bucket: int)
    requires ValidGrid(g) && b.Aligned() && i < |b.volumes| && 0 <= bucket < g.bins
  {
    && (bucket == g.bins - 1 || b.lows[i] < Edge(g.rangeLow, g.bucketSize, bucket + 1))
    && (bucket == 0 || Edge(g.rangeLow, g.bucketSize, bucket) <= b.highs[i])
  }

  /** A price falls in this bucket or a higher one exactly when it reaches the bucket's lower edge, the first bucket aside. */
  lemma {:induction false} FromEdgeOn(price: real, g: Grid, bucket: int)
    requires ValidGrid(g) && 0 <= bucket < g.bins
    ensures bucket <= BucketIndex(price, g.rangeLow, g.bucketSize, g.bins) <==> bucket == 0 || Edge(g.rangeLow, g.bucketSize, bucket) <= price
  {
    hide BucketIndex, Edge;
    var k := BucketIndex(price, g.rangeLow, g.bucketSize, g.bins);
    PriceLiesInItsBucket(price, g.rangeLow, g.bucketSize, g.bins);
    if bucket <= k {
      EdgesRise(g.rangeLow, g.bucketSize, bucket, k);
    } else {
      EdgesRise(g.rangeLow, g.bucketSize, k + 1, bucket);
    }
  }

  /** Every bucket a bar reaches gets the same share, no other bucket gets any, and the shares make up the bar's volume. */
  lemma {:induction false} SharesInPrices(g: Grid, b: Bars, i: nat)
    requires ValidGrid(g) && b.Aligned() && i < |b.volumes|
    ensures forall j :: 0 <= j < g.bins && !Reaches(g, b, i, j) ==> Share(g, b, i, j) == 0.0
    ensures forall j, k :: 0 <= j < g.bins && 0 <= k < g.bins && Reaches(g, b, i, j) && Reaches(g, b, i, k) ==> Share(g, b, i, j) == Share(g, b, i, k)
    ensures b.lows[i] <= b.highs[i] ==> SharesSum(g, b, i, g.bins) == b.volumes[i]
  {
    hide BucketIndex, Edge, SharesSum, Share, Reaches, LowBucket, HighBucket;
    BarNames(g, b, i);
    forall j | 0 <= j < g.bins ensures Reaches(g, b, i, j) <==> LowBucket(g, b, i) <= j <= HighBucket(g, b, i) {
      ReachesBetween(g, b, i, j);
    }
    SharesAreWhole(g, b, i);
    if b.lows[i] <= b.highs[i] {
      BucketIndexMonotone(b.lows[i], b.highs[i], g.rangeLow, g.bucketSize, g.bins);
    }
  }

  lemma {:induction false} ReachesBetween(g: Grid, b: Bars, i: nat, bucket: int)
    requires ValidGrid(g) && b.Aligned() && i < |b.volumes| && 0 <= bucket < g.bins
    ensures Reaches(g, b, i, bucket) <==> LowBucket(g, b, i) <= bucket <= HighBucket(g, b, i)
  {
    hide BucketIndex, Edge;
    FromEdgeOn(b.highs[i], g, bucket);
    if bucket < g.bins - 1 {
      FromEdgeOn(b.lows[i], g, bucket + 1);
    }
  }

  /** The grid starts at the lowest low of the lookback, and so many buckets of equal size reach its highest high. */
  lemma {:induction false} GridSpansRange(b: Bars, closes: nat, lookback: nat, bins: int, bucketSteps: int)
    requires 0 < lookback <= closes == |b.highs| == |b.lows| && bucketSteps > 0
    ensures var g := GridOf(b, closes, lookback, bins, bucketSteps);
            && g.bins == bins && Edge(g.rangeLow, g.bucketSize, 0) == RangeMin(b.lows, closes - lookback, closes)
            && Edge(g.rangeLow, g.bucketSize, bucketSteps) == RangeMax(b.highs, closes - lookback, closes)
  {
    hide RangeMax, RangeMin;
    var span, steps := RangeMax(b.highs, closes - lookback, closes) - RangeMin(b.lows, closes - lookback, closes), bucketSteps as real;
    assert span / steps * steps == span;
  }

  // ----- the loops -----

  method RangeHighLow(highs: seq<real>, lows: seq<real>, start: int, end: int) returns (rangeHigh: real, rangeLow: real, ok: bool)
    ensures ok <==> 0 <= start < end <= |highs| && end <= |lows|
    ensures ok ==> rangeHigh == RangeMax(highs, start, end) && rangeLow == RangeMin(lows, start, end)
  {
    if start < 0 || end > |highs| || end > |lows| || start >= end {
      return 0.0, 0.0, false;
    }
    rangeHigh, rangeLow := highs[start], lows[start];
    for index := start + 1 to end
      invariant rangeHigh == RangeMax(highs, start, index) && rangeLow == RangeMin(lows, start, index)
    {
      rangeHigh := Max(rangeHigh, highs[index]);
      rangeLow := Min(rangeLow, lows[index]);
    }
    ok := true;
  }

  /** Whether a distribution exists at all. */
  ghost predicate Distributable(capacity: int, b: Bars, closes: nat, lookback: int, bins: int, bucketSteps: int) {
    && 0 < lookback <= closes && bins >= 2 && bucketSteps > 0 && |b.highs| == closes && |b.lows| == closes
      && |b.volumes| == closes && capacity >= bins
    && RangeMax(b.highs, closes - lookback, closes) > RangeMin(b.lows, closes - lookback, closes)
  }

  ghost function GridOf(b: Bars, closes: nat, lookback: nat, bins: int, bucketSteps: int): (g: Grid)
    requires 0 < lookback <= closes == |b.highs| == |b.lows| && bucketSteps > 0
  {
    var high, low := RangeMax(b.highs, closes - lookback, closes), RangeMin(b.lows, closes - lookback, closes);
    Grid(low, (high - low) / bucketSteps as real, bins)
  }

  /** Fills the first `bins` cells with the shares of the last `lookback` bars. */
  method PriceVolumeBucketsInto(buckets: array<real>, b: Bars, closes: nat, lookback: int, bins: int, bucketSteps: int)
      returns (rangeHigh: real, rangeLow: real, bucketSize: real, ok: bool)
    modifies buckets
    ensures ok <==> Distributable(buckets.Length, b, closes, lookback, bins, bucketSteps)
    ensures ok ==>
              var start, g := closes - lookback, GridOf(b, closes, lookback, bins, bucketSteps);
              && rangeHigh == RangeMax(b.highs, start, closes) && rangeLow == g.rangeLow && bucketSize == g.bucketSize
                && ValidGrid(g) && b.Aligned()
              && (forall k :: 0 <= k < bins ==> buckets[k] == BucketVolume(g, b, start, closes, k))
              && RangeSum(buckets[..bins], 0, bins) == LandedVolume(g, b, start, closes)
    ensures forall k :: bins <= k < buckets.Length && k >= 0 ==> buckets[k] == old(buckets[k])
  {
    hide RangeMax, RangeMin, BucketIndex, LandedVolume;
    if lookback <= 0 || bins < 2 || bucketSteps <= 0 || closes < lookback ||
       |b.highs| != closes || |b.lows| != closes || |b.volumes| != closes || buckets.Length < bins {
      return 0.0, 0.0, 0.0, false;
    }
    forall k | 0 <= k < bins {
      buckets[k] := 0.0;
    }
    var start := closes - lookback;
    rangeHigh, rangeLow, ok := RangeHighLow(b.highs, b.lows, start, closes);
    if !ok || rangeHigh <= rangeLow {
      return 0.0, 0.0, 0.0, false;
    }
    bucketSize := (rangeHigh - rangeLow) / bucketSteps as real;
    PositiveQuotient(rangeHigh - rangeLow, bucketSteps as real);
    var g := Grid(rangeLow, bucketSize, bins);
    for index := start to closes
      invariant forall k :: 0 <= k < bins ==> buckets[k] == BucketVolume(g, b, start, index, k)
      invariant forall k :: bins <= k < buckets.Length ==> buckets[k] == old(buckets[k])
    {
      SpreadBar(buckets, g, b, start, index);
    }
    SumOfBuckets(g, b, start, closes, buckets[..bins], bins);
    VolumeIsConserved(g, b, start, closes);
  }

  lemma {:induction false} PositiveQuotient(x: real, d: real)
    requires x > 0.0 && d > 0.0
    ensures x / d > 0.0
  {
  }

  /** One bar's shares are added to the buckets from its low to its high. */
  method SpreadBar(buckets: array<real>, g: Grid, b: Bars, start: nat, index: nat)
    requires ValidGrid(g) && b.Aligned() && start <= index < |b.volumes| && g.bins <= buckets.Length
    requires forall k :: 0 <= k < g.bins ==> buckets[k] == BucketVolume(g, b, start, index, k)
    modifies buckets
    ensures forall k :: 0 <= k < g.bins ==> buckets[k] == BucketVolume(g, b, start, index + 1, k)
    ensures forall k :: g.bins <= k < buckets.Length ==> buckets[k] == old(buckets[k])
  {
    hide BucketIndex, LowBucket, HighBucket, BucketVolume, Share;
    LowBucketInGrid(g, b, index);
    BarNames(g, b, index);
    forall k | 0 <= k < g.bins
      ensures BucketVolume(g, b, start, index + 1, k) == BucketVolume(g, b, start, index, k) + Share(g, b, index, k)
    {
      VolumeStep(g, b, start, index, k);
    }
    var lowBucket := BucketIndex(b.lows[index], g.rangeLow, g.bucketSize, g.bins);
    var highBucket := BucketIndex(b.highs[index], g.rangeLow, g.bucketSize, g.bins);
    if highBucket < lowBucket {
      return;
    }
    var coveredBuckets := highBucket - lowBucket + 1;
    var volumePerBucket := b.volumes[index] / coveredBuckets as real;
    for bucket := lowBucket to highBucket + 1
      invariant forall k :: 0 <= k < g.bins ==> buckets[k] == old(buckets[k]) + if lowBucket <= k < bucket then volumePerBucket else 0.0
      invariant forall k :: g.bins <= k < buckets.Length ==> buckets[k] == old(buckets[k])
    {
      buckets[bucket] := buckets[bucket] + volumePerBucket;
    }
  }

  lemma {:induction false} VolumeStep(g: Grid, b: Bars, start: nat, index: nat, k: int)
    requires ValidGrid(g) && b.Aligned() && start <= index < |b.volumes|
    ensures BucketVolume(g, b, start, index + 1, k) == BucketVolume(g, b, start, index, k) + Share(g, b, index, k)
  {
  }

  lemma {:induction false} BarNames(g: Grid, b: Bars, i: nat)
    requires ValidGrid(g) && b.Aligned() && i < |b.volumes|
    ensures LowBucket(g, b, i) == BucketIndex(b.lows[i], g.rangeLow, g.bucketSize, g.bins)
    ensures HighBucket(g, b, i) == BucketIndex(b.highs[i], g.rangeLow, g.bucketSize, g.bins)
    ensures forall k :: Share(g, b, i, k) == if LowBucket(g, b, i) <= k <= HighBucket(g, b, i)
                                             then b.volumes[i] / (HighBucket(g, b, i) - LowBucket(g, b, i) + 1) as real else 0.0
  {
  }
}
