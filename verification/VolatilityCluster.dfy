/**
 * Three-means clustering of recent volatilities on a line: centroids start at the
 * quartiles of the range and move to the means of their nearest values, at most twenty
 * times or until no centroid moves by 0.00000001 or more.
 */
module VolatilityCluster {
  import opened Numeric
  import opened IndicatorMath

  datatype Centroids = Centroids(high: real, mid: real, low: real)

  datatype Label = High | Medium | Low

  const PASSES: nat := 20
  const TOLERANCE: real := 0.00000001

  /** The nearest centroid; ties go to the higher one. */
  function Nearest(c: Centroids, value: real): Label {
    var toHigh, toMid, toLow := Abs(value - c.high), Abs(value - c.mid), Abs(value - c.low);
    if toHigh <= toMid && toHigh <= toLow then High
    else if toMid <= toHigh && toMid <= toLow then Medium
    else Low
  }

  function Centre(c: Centroids, l: Label): real {
    match l
    case High => c.high
    case Medium => c.mid
    case Low => c.low
  }

  // ----- one pass, as sums and counts per cluster -----

  function ClusterSum(values: seq<real>, c: Centroids, l: Label, n: nat): real
    requires n <= |values|
  {
    if n == 0 then 0.0 else ClusterSum(values, c, l, n - 1) + if Nearest(c, values[n - 1]) == l then values[n - 1] else 0.0
  }

  function ClusterCount(values: seq<real>, c: Centroids, l: Label, n: nat): (r: nat)
    requires n <= |values|
    ensures r <= n
  {
    if n == 0 then 0 else ClusterCount(values, c, l, n - 1) + if Nearest(c, values[n - 1]) == l then 1 else 0
  }

  /** The mean of a cluster, or its old centre when the cluster is empty. */
  function NextCentre(values: seq<real>, c: Centroids, l: Label): real {
    var count := ClusterCount(values, c, l, |values|);
    if count > 0 then ClusterSum(values, c, l, |values|) / count as real else Centre(c, l)
  }

  function Pass(values: seq<real>, c: Centroids): Centroids {
    Centroids(NextCentre(values, c, High), NextCentre(values, c, Medium), NextCentre(values, c, Low))
  }

  function Settled(c: Centroids, next: Centroids): bool {
    Abs(next.high - c.high) < TOLERANCE && Abs(next.mid - c.mid) < TOLERANCE && Abs(next.low - c.low) < TOLERANCE
  }

  /** Passes until the centroids settle or `left` passes are used up. */
  function Iterate(values: seq<real>, c: Centroids, left: nat): Centroids
    decreases left
  {
    if left == 0 then c
    else
      var next := Pass(values, c);
      if Settled(c, next) then next else Iterate(values, next, left - 1)
  }

  function Quartiles(high: real, low: real): Centroids {
    Centroids(low + (high - low) * 0.75, low + (high - low) * 0.5, low + (high - low) * 0.25)
  }

  // ----- the loops -----

  method OnePass(values: seq<real>, c: Centroids) returns (next: Centroids)
    ensures next == Pass(values, c)
  {
    hide Nearest;
    var highSum, midSum, lowSum := 0.0, 0.0, 0.0;
    var highCount, midCount, lowCount := 0, 0, 0;
    for index := 0 to |values|
      invariant highSum == ClusterSum(values, c, High, index) && highCount == ClusterCount(values, c, High, index)
      invariant midSum == ClusterSum(values, c, Medium, index) && midCount == ClusterCount(values, c, Medium, index)
      invariant lowSum == ClusterSum(values, c, Low, index) && lowCount == ClusterCount(values, c, Low, index)
    {
      var value := values[index];
      match Nearest(c, value)
      case High =>
        highSum, highCount := highSum + value, highCount + 1;
      case Medium =>
        midSum, midCount := midSum + value, midCount + 1;
      case Low =>
        lowSum, lowCount := lowSum + value, lowCount + 1;
    }
    next := Centroids(if highCount > 0 then highSum / highCount as real else c.high,
                      if midCount > 0 then midSum / midCount as real else c.mid,
                      if lowCount > 0 then lowSum / lowCount as real else c.low);
  }

  datatype Cluster = Cluster(assignedATR: real, centroids: Centroids, level: Label)

  method AdaptiveVolatilityCluster(values: seq<real>, current: real) returns (cluster: Option<Cluster>)
    ensures cluster == ClusterOf(values, current)
  {
    hide Pass, Settled, RangeMax, RangeMin, Nearest;
    if values == [] {
      return None;
    }
    var high := HighestValue(values);
    var low := LowestValue(values);
    var c := Quartiles(high, low);
    var iteration := 0;
    while iteration < PASSES
      invariant iteration <= PASSES
      invariant Iterate(values, c, PASSES - iteration) == Iterate(values, Quartiles(high, low), PASSES)
    {
      var next := OnePass(values, c);
      if Settled(c, next) {
        c := next;
        return Some(Cluster(Centre(c, Nearest(c, current)), c, Nearest(c, current)));
      }
      c := next;
      iteration := iteration + 1;
    }
    cluster := Some(Cluster(Centre(c, Nearest(c, current)), c, Nearest(c, current)));
  }

  function ClusterOf(values: seq<real>, current: real): Option<Cluster> {
    if values == [] then None
    else
      var c := Iterate(values, Quartiles(RangeMax(values, 0, |values|), RangeMin(values, 0, |values|)), PASSES);
      Some(Cluster(Centre(c, Nearest(c, current)), c, Nearest(c, current)))
  }

  // ----- order and range of the centroids -----

  ghost predicate Ordered(c: Centroids) {
    c.low < c.mid < c.high
  }

  ghost predicate Within(c: Centroids, low: real, high: real) {
    low <= c.low && c.low <= high && low <= c.mid <= high && low <= c.high <= high
  }

  /** With ordered centroids the clusters are three intervals cut at the midpoints. */
  lemma {:induction false} NearestByMidpoints(c: Centroids, value: real)
    requires Ordered(c)
    ensures Nearest(c, value) == if value >= (c.mid + c.high) / 2.0 then High else if value >= (c.low + c.mid) / 2.0 then Medium else Low
  {
  }

  /** k copies of x. */
  function Times(x: real, k: nat): real {
    x * k as real
  }

  lemma {:induction false} TimesStep(x: real, k: nat)
    ensures Times(x, k + 1) == Times(x, k) + x && Times(x, 0) == 0.0
  {
  }

  /** A cluster that draws its values from [floor, ceiling] sums to between as many floors and ceilings. */
  lemma {:induction false} SumBounds(values: seq<real>, c: Centroids, l: Label, n: nat, floor: real, ceiling: real)
    requires n <= |values|
    requires forall i :: 0 <= i < n && Nearest(c, values[i]) == l ==> floor <= values[i] <= ceiling
    ensures Times(floor, ClusterCount(values, c, l, n)) <= ClusterSum(values, c, l, n) <= Times(ceiling, ClusterCount(values, c, l, n))
    decreases n
  {
    hide Nearest, Times;
    if n == 0 {
      TimesStep(floor, 0);
      TimesStep(ceiling, 0);
    } else {
      SumBounds(values, c, l, n - 1, floor, ceiling);
      TimesStep(floor, ClusterCount(values, c, l, n - 1));
      TimesStep(ceiling, ClusterCount(values, c, l, n - 1));
    }
  }

  lemma {:induction false} NonNegativeFactor(x: real, count: real)
    requires count > 0.0 && x * count >= 0.0
    ensures x >= 0.0
  {
    if x < 0.0 {
      NegativeProduct(x, count);
    }
  }

  lemma {:induction false} NegativeProduct(x: real, count: real)
    requires x < 0.0 && count > 0.0
    ensures x * count < 0.0
  {
    assert (-x) * count > 0.0;
  }

  lemma {:induction false} MeanBounds(sum: real, count: nat, floor: real, ceiling: real)
    requires count > 0 && Times(floor, count) <= sum <= Times(ceiling, count)
    ensures floor <= sum / count as real <= ceiling
  {
    var n, mean := count as real, sum / count as real;
    assert mean * n == sum;
    assert (mean - floor) * n == sum - floor * n && (ceiling - mean) * n == ceiling * n - sum;
    NonNegativeFactor(mean - floor, n);
    NonNegativeFactor(ceiling - mean, n);
  }

  lemma {:induction false} NextCentreBounds(values: seq<real>, c: Centroids, l: Label, floor: real, ceiling: real)
    requires forall i :: 0 <= i < |values| && Nearest(c, values[i]) == l ==> floor <= values[i] <= ceiling
    requires floor <= Centre(c, l) <= ceiling
    ensures floor <= NextCentre(values, c, l) <= ceiling
  {
    hide Nearest, ClusterSum, ClusterCount;
    SumBounds(values, c, l, |values|, floor, ceiling);
    var count := ClusterCount(values, c, l, |values|);
    if count > 0 {
      MeanBounds(ClusterSum(values, c, l, |values|), count, floor, ceiling);
    }
  }

  lemma {:induction false} SumStrictlyBelow(values: seq<real>, c: Centroids, l: Label, n: nat, ceiling: real)
    requires n <= |values|
    requires forall i :: 0 <= i < n && Nearest(c, values[i]) == l ==> values[i] < ceiling
    ensures var count, sum := ClusterCount(values, c, l, n), ClusterSum(values, c, l, n);
            if count == 0 then sum == 0.0 else sum < Times(ceiling, count)
    decreases n
  {
    hide Nearest, Times;
    if n > 0 {
      SumStrictlyBelow(values, c, l, n - 1, ceiling);
      TimesStep(ceiling, ClusterCount(values, c, l, n - 1));
    }
  }

  lemma {:induction false} NextCentreStrictlyBelow(values: seq<real>, c: Centroids, l: Label, ceiling: real)
    requires forall i :: 0 <= i < |values| && Nearest(c, values[i]) == l ==> values[i] < ceiling
    requires Centre(c, l) < ceiling
    ensures NextCentre(values, c, l) < ceiling
  {
    hide Nearest, ClusterSum, ClusterCount;
    SumStrictlyBelow(values, c, l, |values|, ceiling);
    var count, sum := ClusterCount(values, c, l, |values|), ClusterSum(values, c, l, |values|);
    if count > 0 {
      MeanStrictlyBelow(sum, count as real, ceiling);
    }
  }

  lemma {:induction false} MeanStrictlyBelow(sum: real, count: real, ceiling: real)
    requires count > 0.0 && sum < ceiling * count
    ensures sum / count < ceiling
  {
    var mean := sum / count;
    assert mean * count == sum;
    assert (ceiling - mean) * count > 0.0;
  }

  /** A pass keeps the strict order: the old midpoints separate the new centroids. */
  lemma {:induction false} PassKeepsOrder(values: seq<real>, c: Centroids)
    requires Ordered(c)
    ensures Ordered(Pass(values, c))
  {
    hide Nearest, NextCentre;
    var lowMid, midHigh := (c.low + c.mid) / 2.0, (c.mid + c.high) / 2.0;
    forall i | 0 <= i < |values| {
      NearestByMidpoints(c, values[i]);
    }
    NextCentreStrictlyBelow(values, c, Low, lowMid);
    NextCentreStrictlyBelow(values, c, Medium, midHigh);
    var top := if values == [] then c.high else Max(c.high, RangeMax(values, 0, |values|));
    NextCentreBounds(values, c, Medium, lowMid, midHigh);
    NextCentreBounds(values, c, High, midHigh, top);
  }

  lemma {:induction false} PassKeepsRange(values: seq<real>, c: Centroids, low: real, high: real)
    requires Within(c, low, high) && forall i :: 0 <= i < |values| ==> low <= values[i] <= high
    ensures Within(Pass(values, c), low, high)
  {
    hide Nearest, NextCentre;
    NextCentreBounds(values, c, High, low, high);
    NextCentreBounds(values, c, Medium, low, high);
    NextCentreBounds(values, c, Low, low, high);
  }

  /** Constant data: every value sits on the high centroid and nothing ever moves. */
  lemma {:induction false} PassOnConstant(values: seq<real>, c: Centroids)
    requires values != [] && c.high == c.mid == c.low && forall i :: 0 <= i < |values| ==> values[i] == c.high
    ensures Pass(values, c) == c
  {
    hide ClusterSum, ClusterCount;
    NextCentreBounds(values, c, High, c.high, c.high);
    NextCentreBounds(values, c, Medium, c.high, c.high);
    NextCentreBounds(values, c, Low, c.high, c.high);
  }

  // ----- the spread never grows -----

  function SquaredTo(c: Centroids, value: real): (r: real)
    ensures r >= 0.0
  {
    Sq(value - Centre(c, Nearest(c, value)))
  }

  /** Total squared distance of the first n values to their nearest centroid. */
  function Cost(values: seq<real>, c: Centroids, n: nat): (r: real)
    requires n <= |values|
    ensures r >= 0.0
  {
    if n == 0 then 0.0 else Cost(values, c, n - 1) + SquaredTo(c, values[n - 1])
  }

  /** The nearest centroid is nearest in squared distance too. */
  lemma {:induction false} NearestIsCheapest(c: Centroids, value: real, l: Label)
    ensures SquaredTo(c, value) <= Sq(value - Centre(c, l))
  {
    SquareOrder(value - Centre(c, Nearest(c, value)), value - Centre(c, l));
  }

  lemma {:induction false} SquareOrder(a: real, b: real)
    requires Abs(a) <= Abs(b)
    ensures Sq(a) <= Sq(b)
  {
    SquareOfAbs(a);
    SquareOfAbs(b);
    ProductOrder(Abs(a), Abs(b));
  }

  lemma {:induction false} SquareOfAbs(a: real)
    ensures Sq(a) == Abs(a) * Abs(a)
  {
  }

  lemma {:induction false} ProductOrder(x: real, y: real)
    requires 0.0 <= x <= y
    ensures x * x <= y * y
  {
    assert (y - x) * (y + x) >= 0.0;
    assert (y - x) * (y + x) == y * y - x * x;
  }

  /** Squared distances of one old cluster to any centre. */
  function ClusterCost(values: seq<real>, c: Centroids, l: Label, centre: real, n: nat): real
    requires n <= |values|
  {
    if n == 0 then 0.0
    else ClusterCost(values, c, l, centre, n - 1) + if Nearest(c, values[n - 1]) == l then Sq(values[n - 1] - centre) else 0.0
  }

  function ClusterSquares(values: seq<real>, c: Centroids, l: Label, n: nat): real
    requires n <= |values|
  {
    if n == 0 then 0.0
    else ClusterSquares(values, c, l, n - 1) + if Nearest(c, values[n - 1]) == l then values[n - 1] * values[n - 1] else 0.0
  }

  lemma {:induction false} ClusterCostExpands(values: seq<real>, c: Centroids, l: Label, centre: real, n: nat)
    requires n <= |values|
    ensures ClusterCost(values, c, l, centre, n)
         == Spread(ClusterSum(values, c, l, n), ClusterSquares(values, c, l, n), ClusterCount(values, c, l, n) as real, centre)
    decreases n
  {
    hide Nearest, Spread, Sq;
    if n == 0 {
      SpreadNothing(centre);
    } else {
      ClusterCostExpands(values, c, l, centre, n - 1);
      if Nearest(c, values[n - 1]) == l {
        SpreadStep(ClusterSum(values, c, l, n - 1), ClusterSquares(values, c, l, n - 1), ClusterCount(values, c, l, n - 1) as real,
                   values[n - 1], centre, ClusterSum(values, c, l, n), ClusterSquares(values, c, l, n), ClusterCount(values, c, l, n) as real);
      }
    }
  }

  /** The mean minimises the squared distances of its cluster. */
  lemma {:induction false} SpreadGap(mean: real, squares: real, n: real, centre: real)
    ensures Spread(mean * n, squares, n, centre) == Spread(mean * n, squares, n, mean) + n * Sq(centre - mean)
  {
    assert 2.0 * centre * (mean * n) == 2.0 * (n * (mean * centre));
    assert 2.0 * mean * (mean * n) == 2.0 * (n * (mean * mean));
    assert Sq(centre - mean) == (centre - mean) * (centre - mean) == centre * centre - 2.0 * (mean * centre) + mean * mean;
    assert n * Sq(centre - mean) == n * (centre * centre) - 2.0 * (n * (mean * centre)) + n * (mean * mean);
  }

  lemma {:induction false} MeanMinimises(total: real, squares: real, n: real, centre: real)
    requires n > 0.0
    ensures Spread(total, squares, n, total / n) <= Spread(total, squares, n, centre)
  {
    hide Spread;
    var mean := total / n;
    assert total == mean * n;
    SpreadGap(mean, squares, n, centre);
    ScaledSquare(n, centre - mean);
  }

  lemma {:induction false} ScaledSquare(n: real, x: real)
    requires n > 0.0
    ensures n * Sq(x) >= 0.0
  {
  }

  lemma {:induction false} MovingCutsCost(values: seq<real>, c: Centroids, l: Label)
    ensures ClusterCost(values, c, l, NextCentre(values, c, l), |values|) <= ClusterCost(values, c, l, Centre(c, l), |values|)
  {
    hide Nearest, Spread, ClusterSum, ClusterSquares, ClusterCount, ClusterCost;
    var n := |values|;
    var count := ClusterCount(values, c, l, n);
    ClusterCostExpands(values, c, l, NextCentre(values, c, l), n);
    ClusterCostExpands(values, c, l, Centre(c, l), n);
    if count > 0 {
      MeanMinimises(ClusterSum(values, c, l, n), ClusterSquares(values, c, l, n), count as real, Centre(c, l));
    }
  }

  /** The cost under the old assignment splits into the three clusters. */
  lemma {:induction false} CostSplits(values: seq<real>, c: Centroids, n: nat)
    requires n <= |values|
    ensures Cost(values, c, n) == ClusterCost(values, c, High, c.high, n) + ClusterCost(values, c, Medium, c.mid, n)
         + ClusterCost(values, c, Low, c.low, n)
    decreases n
  {
    hide Nearest, Sq;
    if n > 0 {
      CostSplits(values, c, n - 1);
    }
  }

  /** Reassigning to the moved centroids costs no more than keeping the old assignment. */
  lemma {:induction false} ReassigningCutsCost(values: seq<real>, c: Centroids, next: Centroids, n: nat)
    requires n <= |values|
    ensures Cost(values, next, n)
         <= ClusterCost(values, c, High, next.high, n) + ClusterCost(values, c, Medium, next.mid, n) + ClusterCost(values, c, Low, next.low, n)
    decreases n
  {
    hide Nearest, Sq, SquaredTo;
    if n > 0 {
      ReassigningCutsCost(values, c, next, n - 1);
      NearestIsCheapest(next, values[n - 1], Nearest(c, values[n - 1]));
    }
  }

  /** No pass increases the total squared distance to the nearest centroid. */
  lemma {:induction false} PassCutsCost(values: seq<real>, c: Centroids)
    ensures Cost(values, Pass(values, c), |values|) <= Cost(values, c, |values|)
  {
    hide Nearest, Cost, ClusterCost, NextCentre;
    CostSplits(values, c, |values|);
    ReassigningCutsCost(values, c, Pass(values, c), |values|);
    MovingCutsCost(values, c, High);
    MovingCutsCost(values, c, Medium);
    MovingCutsCost(values, c, Low);
  }

  // ----- the whole iteration -----

  lemma {:induction false} IterateKeeps(values: seq<real>, c: Centroids, left: nat, low: real, high: real)
    requires Within(c, low, high) && forall i :: 0 <= i < |values| ==> low <= values[i] <= high
    ensures var r := Iterate(values, c, left);
            && Within(r, low, high)
            && (Ordered(c) ==> Ordered(r))
            && Cost(values, r, |values|) <= Cost(values, c, |values|)
    decreases left
  {
    hide Pass, Cost, Settled;
    if left > 0 {
      var next := Pass(values, c);
      PassKeepsRange(values, c, low, high);
      PassCutsCost(values, c);
      if Ordered(c) {
        PassKeepsOrder(values, c);
      }
      IterateKeeps(values, next, left - 1, low, high);
    }
  }

  lemma {:induction false} IterateOnConstant(values: seq<real>, c: Centroids, left: nat)
    requires values != [] && c.high == c.mid == c.low && forall i :: 0 <= i < |values| ==> values[i] == c.high
    ensures Iterate(values, c, left) == c
    decreases left
  {
    hide Pass;
    if left > 0 {
      PassOnConstant(values, c);
    }
  }

  /**
   * For every data set the published centroids lie in the range of the data, are strictly
   * ordered unless the data are constant (then all equal the constant), cost no more than
   * the quartiles they started from, and the published level is the nearest centroid.
   */
  lemma {:induction false} ClusterGuarantees(values: seq<real>, current: real)
    requires values != []
    ensures var low, high := RangeMin(values, 0, |values|), RangeMax(values, 0, |values|);
            var cluster := ClusterOf(values, current).value;
            var c := cluster.centroids;
            && Within(c, low, high)
            && (if low < high then Ordered(c) else c == Centroids(low, low, low))
            && Cost(values, c, |values|) <= Cost(values, Quartiles(high, low), |values|)
            && cluster.assignedATR == Centre(c, cluster.level)
            && (forall l :: Abs(current - cluster.assignedATR) <= Abs(current - Centre(c, l)))
  {
    hide Cost, Pass, Settled, Iterate;
    var low, high := RangeMin(values, 0, |values|), RangeMax(values, 0, |values|);
    QuartilesFit(high, low);
    IterateKeeps(values, Quartiles(high, low), PASSES, low, high);
    if low == high {
      IterateOnConstant(values, Quartiles(high, low), PASSES);
    }
  }

  lemma {:induction false} QuartilesFit(high: real, low: real)
    requires low <= high
    ensures Within(Quartiles(high, low), low, high)
    ensures low < high ==> Ordered(Quartiles(high, low))
    ensures low == high ==> Quartiles(high, low) == Centroids(low, low, low)
  {
  }

  // ----- the run of passes behind a published cluster -----

  function Rank(l: Label): nat {
    match l
    case Low => 0
    case Medium => 1
    case High => 2
  }

  /** No centroid is nearer, and no higher one as near. */
  ghost predicate Assigned(c: Centroids, value: real, l: Label) {
    forall other: Label ::
      && Abs(value - Centre(c, l)) <= Abs(value - Centre(c, other))
      && (Rank(other) > Rank(l) ==> Abs(value - Centre(c, l)) < Abs(value - Centre(c, other)))
  }

  lemma {:induction false} NearestIsAssigned(c: Centroids, value: real, l: Label)
    ensures Nearest(c, value) == l <==> Assigned(c, value, l)
  {
    if Assigned(c, value, l) {
      assert Abs(value - c.high) == Abs(value - Centre(c, High)) && Abs(value - c.mid) == Abs(value - Centre(c, Medium))
             && Abs(value - c.low) == Abs(value - Centre(c, Low));
    }
  }

  ghost function AssignedSum(values: seq<real>, c: Centroids, l: Label, n: nat): real
    requires n <= |values|
  {
    if n == 0 then 0.0 else AssignedSum(values, c, l, n - 1) + if Assigned(c, values[n - 1], l) then values[n - 1] else 0.0
  }

  ghost function AssignedIndices(values: seq<real>, c: Centroids, l: Label, n: nat): set<int>
    requires n <= |values|
  {
    set i | 0 <= i < n && Assigned(c, values[i], l)
  }

  lemma {:induction false} SumsAreAssigned(values: seq<real>, c: Centroids, l: Label, n: nat)
    requires n <= |values|
    ensures ClusterSum(values, c, l, n) == AssignedSum(values, c, l, n)
    decreases n
  {
    hide Nearest, Assigned;
    if n > 0 {
      SumsAreAssigned(values, c, l, n - 1);
      NearestIsAssigned(c, values[n - 1], l);
    }
  }

  lemma {:induction false} NoIndices(values: seq<real>, c: Centroids, l: Label)
    ensures AssignedIndices(values, c, l, 0) == {}
  {
  }

  lemma {:induction false} OneMoreIndex(values: seq<real>, c: Centroids, l: Label, n: nat)
    requires 1 <= n <= |values|
    ensures |AssignedIndices(values, c, l, n)|
         == |AssignedIndices(values, c, l, n - 1)| + if Assigned(c, values[n - 1], l) then 1 else 0
  {
    hide Assigned;
    var before := AssignedIndices(values, c, l, n - 1);
    assert AssignedIndices(values, c, l, n) == if Assigned(c, values[n - 1], l) then before + {n - 1} else before;
  }

  lemma {:induction false} CountsAreAssigned(values: seq<real>, c: Centroids, l: Label, n: nat)
    requires n <= |values|
    ensures ClusterCount(values, c, l, n) == |AssignedIndices(values, c, l, n)|
    decreases n
  {
    hide Nearest, Assigned, AssignedIndices;
    if n == 0 {
      assert AssignedIndices(values, c, l, 0) == {} by { NoIndices(values, c, l); }
    } else {
      CountsAreAssigned(values, c, l, n - 1);
      NearestIsAssigned(c, values[n - 1], l);
      OneMoreIndex(values, c, l, n);
    }
  }

  /** Each centroid of `next` is the mean of the values assigned to it under c, or has stayed when there are none. */
  ghost predicate MeansOf(values: seq<real>, c: Centroids, next: Centroids) {
    forall l: Label ::
      var count := |AssignedIndices(values, c, l, |values|)|;
      if count > 0 then Centre(next, l) * count as real == AssignedSum(values, c, l, |values|) else Centre(next, l) == Centre(c, l)
  }

  lemma {:induction false} PassIsMeans(values: seq<real>, c: Centroids)
    ensures MeansOf(values, c, Pass(values, c))
  {
    hide ClusterSum, ClusterCount, AssignedSum, AssignedIndices;
    forall l: Label
      ensures var count := |AssignedIndices(values, c, l, |values|)|;
              if count > 0 then NextCentre(values, c, l) * count as real == AssignedSum(values, c, l, |values|)
              else NextCentre(values, c, l) == Centre(c, l)
    {
      SumsAreAssigned(values, c, l, |values|);
      CountsAreAssigned(values, c, l, |values|);
      var sum, count := ClusterSum(values, c, l, |values|), ClusterCount(values, c, l, |values|);
      if count > 0 {
        assert sum / count as real * count as real == sum;
      }
    }
  }

  /** No centroid moves by as much as 0.00000001. */
  ghost predicate Rests(c: Centroids, next: Centroids) {
    forall l: Label :: -0.00000001 < Centre(next, l) - Centre(c, l) < 0.00000001
  }

  lemma {:induction false} SettledRests(c: Centroids, next: Centroids)
    ensures Settled(c, next) <==> Rests(c, next)
  {
    if Rests(c, next) {
      assert Centre(next, High) == next.high && Centre(next, Medium) == next.mid && Centre(next, Low) == next.low;
    }
  }

  /** Passes from the first to the last triple that stop at the first step in which everything rests. */
  ghost predicate PassesFrom(values: seq<real>, steps: seq<Centroids>) {
    && steps != [] && (forall k :: 1 <= k < |steps| ==> MeansOf(values, steps[k - 1], steps[k]))
    && forall k :: 1 <= k < |steps| - 1 ==> !Rests(steps[k - 1], steps[k])
  }

  lemma {:induction false} IterateIsPasses(values: seq<real>, c: Centroids, left: nat) returns (steps: seq<Centroids>)
    ensures PassesFrom(values, steps) && steps[0] == c && steps[|steps| - 1] == Iterate(values, c, left) && |steps| <= left + 1
    ensures |steps| == left + 1 || (|steps| >= 2 && Rests(steps[|steps| - 2], steps[|steps| - 1]))
    decreases left
  {
    hide Pass, MeansOf, Settled, Rests;
    if left == 0 {
      steps := [c];
    } else {
      var next := Pass(values, c);
      PassIsMeans(values, c);
      SettledRests(c, next);
      if Settled(c, next) {
        steps := [c, next];
      } else {
        var rest := IterateIsPasses(values, next, left - 1);
        steps := [c] + rest;
        PassesCons(values, c, rest);
        assert steps[|steps| - 1] == rest[|rest| - 1];
        assert |rest| >= 2 ==> steps[|steps| - 2] == rest[|rest| - 2];
      }
    }
  }

  lemma {:induction false} PassesCons(values: seq<real>, c: Centroids, rest: seq<Centroids>)
    requires PassesFrom(values, rest) && MeansOf(values, c, rest[0]) && !Rests(c, rest[0])
    ensures PassesFrom(values, [c] + rest)
  {
    hide MeansOf, Rests;
    var steps := [c] + rest;
    forall k | 1 <= k < |steps| ensures MeansOf(values, steps[k - 1], steps[k]) && (k < |steps| - 1 ==> !Rests(steps[k - 1], steps[k])) {
      if k > 1 {
        assert steps[k - 1] == rest[k - 2] && steps[k] == rest[k - 1];
      }
    }
  }

  /**
   * What is published is the end of a run of passes over the data: it starts at the quartile
   * points of their range, every pass moves each centroid to the mean of the values nearest to
   * it, no pass but the last rests, and the last one rests or is the twentieth.  The level is
   * the centroid nearest to the current value, the higher one on a tie.
   */
  lemma {:induction false} ClusterIsRestOfPasses(values: seq<real>, current: real) returns (steps: seq<Centroids>)
    requires values != []
    ensures var low, high, cluster := RangeMin(values, 0, |values|), RangeMax(values, 0, |values|), ClusterOf(values, current).value;
            && PassesFrom(values, steps) && cluster.centroids == steps[|steps| - 1]
            && steps[0].low == (3.0 * low + high) / 4.0 && steps[0].mid == (low + high) / 2.0 && steps[0].high == (low + 3.0 * high) / 4.0
            && (|steps| == 21 || (2 <= |steps| < 21 && Rests(steps[|steps| - 2], steps[|steps| - 1])))
            && Assigned(cluster.centroids, current, cluster.level) && cluster.assignedATR == Centre(cluster.centroids, cluster.level)
  {
    hide Iterate, PassesFrom, Rests, Assigned, Nearest, RangeMin, RangeMax;
    var low, high := RangeMin(values, 0, |values|), RangeMax(values, 0, |values|);
    steps := IterateIsPasses(values, Quartiles(high, low), PASSES);
    var cluster := ClusterOf(values, current).value;
    NearestIsAssigned(cluster.centroids, current, cluster.level);
  }
}
