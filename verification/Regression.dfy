/**
 * The straight line of least squares through equally spaced values, from running sums, and
 * why it is the best one.
 */
module Regression {
  import opened Numeric

  // ----- the sums -----

  /** 0 + 1 + ... + (n - 1). */
  function SumX(n: nat): real {
    if n == 0 then 0.0 else SumX(n - 1) + (n - 1) as real
  }

  function Weigh(n: nat, v: real): real {
    n as real * v
  }

  function SumXX(n: nat): real {
    if n == 0 then 0.0 else SumXX(n - 1) + Weigh(n - 1, (n - 1) as real)
  }

  function SumY(w: seq<real>, n: nat): real
    requires n <= |w|
  {
    if n == 0 then 0.0 else SumY(w, n - 1) + w[n - 1]
  }

  function SumXY(w: seq<real>, n: nat): real
    requires n <= |w|
  {
    if n == 0 then 0.0 else SumXY(w, n - 1) + Weigh(n - 1, w[n - 1])
  }

  function Denominator(n: nat): real {
    n as real * SumXX(n) - SumX(n) * SumX(n)
  }

  lemma {:induction false} SumsClosed(n: nat)
    ensures 2.0 * SumX(n) == n as real * (n as real - 1.0)
    ensures 6.0 * SumXX(n) == n as real * (n as real - 1.0) * (2.0 * n as real - 1.0)
  {
    if n > 0 {
      SumsClosed(n - 1);
      SquareStep(n as real - 1.0);
    }
  }

  lemma {:induction false} SquareStep(m: real)
    ensures m * (m - 1.0) + 2.0 * m == (m + 1.0) * m
    ensures m * (m - 1.0) * (2.0 * m - 1.0) + 6.0 * (m * m) == (m + 1.0) * m * (2.0 * (m + 1.0) - 1.0)
  {
  }

  /** Two points or more are not all above each other. */
  lemma {:induction false} DenominatorSays(n: nat)
    ensures Denominator(n) == 0.0 <==> n <= 1
    ensures n >= 2 ==> Denominator(n) > 0.0
  {
    hide SumX, SumXX;
    SumsClosed(n);
    Product(n as real, SumX(n), SumXX(n));
    SignOfProduct(n as real, n as real * SumXX(n) - SumX(n) * SumX(n));
    if n <= 1 {
      assert n == 0 || n as real == 1.0;
    }
  }

  lemma {:induction false} Product(m: real, x: real, xx: real)
    requires 2.0 * x == m * (m - 1.0) && 6.0 * xx == m * (m - 1.0) * (2.0 * m - 1.0)
    ensures 12.0 * (m * xx - x * x) == m * m * (m * m - 1.0)
  {
    assert 4.0 * (x * x) == m * (m - 1.0) * (m * (m - 1.0));
    assert 12.0 * (m * xx) == 2.0 * m * (m * (m - 1.0) * (2.0 * m - 1.0));
  }

  lemma {:induction false} SignOfProduct(m: real, d: real)
    requires 12.0 * d == m * m * (m * m - 1.0)
    ensures m == 0.0 || m == 1.0 ==> d == 0.0
    ensures m >= 2.0 ==> d > 0.0
  {
    if m >= 2.0 {
      assert m * m >= 4.0;
      assert m * m * (m * m - 1.0) > 0.0;
    }
  }

  // ----- the line -----

  datatype Line = Line(intercept: real, slope: real) {
    function At(x: real): real {
      intercept + slope * x
    }
  }

  /** The line of the running sums. */
  function LineOf(w: seq<real>): Line
    requires |w| >= 2
  {
    DenominatorSays(|w|);
    var n := |w|;
    var slope := (n as real * SumXY(w, n) - SumX(n) * SumY(w, n)) / Denominator(n);
    Line((SumY(w, n) - slope * SumX(n)) / n as real, slope)
  }

  /** The line through values 0 to n - 1 of w, read `offset` places before the last; one value has no line. */
  function Regressed(w: seq<real>, offset: nat): Option<real>
    requires offset < |w|
  {
    if |w| < 2 then None else Some(LineOf(w).At((|w| - 1 - offset) as real))
  }

  lemma {:induction false} HasLine(w: seq<real>, offset: nat)
    requires offset < |w|
    ensures Regressed(w, offset).Some? <==> |w| >= 2
  {
    hide LineOf;
  }

  // ----- least squares -----

  /** How far a value at x lies off a line. */
  function Off(line: Line, x: real, v: real): real {
    v - (line.intercept + line.slope * x)
  }

  function Residual(w: seq<real>, line: Line, i: nat): real
    requires i < |w|
  {
    Off(line, i as real, w[i])
  }

  /** The squared distances of the first n values from a line. */
  function Error(w: seq<real>, line: Line, n: nat): real
    requires n <= |w|
  {
    if n == 0 then 0.0 else Error(w, line, n - 1) + Sq(Residual(w, line, n - 1))
  }

  function ResidualSum(w: seq<real>, line: Line, n: nat): real
    requires n <= |w|
  {
    if n == 0 then 0.0 else ResidualSum(w, line, n - 1) + Residual(w, line, n - 1)
  }

  function ResidualMoment(w: seq<real>, line: Line, n: nat): real
    requires n <= |w|
  {
    if n == 0 then 0.0 else ResidualMoment(w, line, n - 1) + Weigh(n - 1, Residual(w, line, n - 1))
  }

  /** How far a line stays from zero over the first n places. */
  function Spread(d: Line, n: nat): (r: real)
    ensures r >= 0.0
  {
    if n == 0 then 0.0 else Spread(d, n - 1) + Sq(d.At((n - 1) as real))
  }

  function Difference(a: Line, b: Line): Line {
    Line(a.intercept - b.intercept, a.slope - b.slope)
  }

  /** What is left of a sum of values over n places with sum x after taking a line off. */
  function Rest(y: real, line: Line, n: real, x: real): real {
    y - n * line.intercept - line.slope * x
  }

  lemma {:induction false} ResidualsFromSums(w: seq<real>, line: Line, n: nat)
    requires n <= |w|
    ensures ResidualSum(w, line, n) == Rest(SumY(w, n), line, n as real, SumX(n))
    ensures ResidualMoment(w, line, n) == Rest(SumXY(w, n), line, SumX(n), SumXX(n))
  {
    hide SumX, SumXX, SumY, SumXY, ResidualSum, ResidualMoment, Rest, Weigh, Off;
    if n > 0 {
      ResidualsFromSums(w, line, n - 1);
      SumsStep(w, n - 1);
      ResidualsStep(w, line, n - 1);
      OneResidual(line, n - 1, w[n - 1], SumX(n - 1), SumXX(n - 1), SumY(w, n - 1), SumXY(w, n - 1));
    } else {
      NoSums(w);
      NothingMissed(w, line);
      RestOfNothing(line);
    }
  }

  lemma {:induction false} RestOfNothing(line: Line)
    ensures Rest(0.0, line, 0.0, 0.0) == 0.0
  {
  }

  lemma {:induction false} NothingMissed(w: seq<real>, line: Line)
    ensures Error(w, line, 0) == ResidualSum(w, line, 0) == ResidualMoment(w, line, 0) == 0.0
  {
  }

  lemma {:induction false} OneResidual(line: Line, n: nat, v: real, x: real, xx: real, y: real, xy: real)
    ensures Rest(y, line, n as real, x) + Off(line, n as real, v) == Rest(y + v, line, (n + 1) as real, x + n as real)
    ensures Rest(xy, line, x, xx) + Weigh(n, Off(line, n as real, v)) == Rest(xy + Weigh(n, v), line, x + n as real, xx + Weigh(n, n as real))
  {
  }

  lemma {:induction false} ResidualsStep(w: seq<real>, line: Line, n: nat)
    requires n < |w|
    ensures var r := Off(line, n as real, w[n]);
            && ResidualSum(w, line, n + 1) == ResidualSum(w, line, n) + r
            && ResidualMoment(w, line, n + 1) == ResidualMoment(w, line, n) + Weigh(n, r)
            && Error(w, line, n + 1) == Error(w, line, n) + Sq(r)
  {
    hide Sq;
  }

  /** The residuals of the line of least squares cancel, plainly and weighed by their place. */
  lemma {:induction false} ResidualsCancel(w: seq<real>)
    requires |w| >= 2
    ensures ResidualSum(w, LineOf(w), |w|) == 0.0 && ResidualMoment(w, LineOf(w), |w|) == 0.0
  {
    hide SumX, SumXX, SumXY, SumY, ResidualSum, ResidualMoment, Rest;
    var n, line := |w|, LineOf(w);
    DenominatorSays(n);
    ResidualsFromSums(w, line, n);
    NormalEquations(n as real, SumX(n), SumXX(n), SumY(w, n), SumXY(w, n), line.intercept, line.slope);
  }

  lemma {:induction false} NormalEquations(n: real, x: real, xx: real, y: real, xy: real, a: real, b: real)
    requires n > 0.0 && n * xx - x * x != 0.0 && b == (n * xy - x * y) / (n * xx - x * x) && a == (y - b * x) / n
    ensures Rest(y, Line(a, b), n, x) == 0.0 && Rest(xy, Line(a, b), x, xx) == 0.0
  {
    assert b * (n * xx - x * x) == n * xy - x * y;
    assert n * a == y - b * x;
    Scaled(n, x, xx, y, xy, a, b);
  }

  lemma {:induction false} Scaled(n: real, x: real, xx: real, y: real, xy: real, a: real, b: real)
    requires n > 0.0 && b * (n * xx - x * x) == n * xy - x * y && n * a == y - b * x
    ensures xy - a * x - b * xx == 0.0
  {
    assert n * (a * x) == y * x - b * (x * x) by {
      assert n * (a * x) == (n * a) * x;
      assert (y - b * x) * x == y * x - b * (x * x);
    }
    assert n * (xy - a * x - b * xx) == 0.0;
  }

  /** The error of another line: the same, twice the cross terms, and its distance from this one. */
  function Split(error: real, d: Line, sum: real, moment: real, spread: real): real {
    error + 2.0 * (d.intercept * sum + d.slope * moment) + spread
  }

  lemma {:induction false} ErrorSplits(w: seq<real>, line: Line, other: Line, n: nat)
    requires n <= |w|
    ensures var d := Difference(line, other);
            Error(w, other, n) == Split(Error(w, line, n), d, ResidualSum(w, line, n), ResidualMoment(w, line, n), Spread(d, n))
  {
    hide Error, Spread, ResidualSum, ResidualMoment, Sq, Split, Off, Weigh;
    var d := Difference(line, other);
    if n > 0 {
      ErrorSplits(w, line, other, n - 1);
      ResidualsStep(w, line, n - 1);
      ResidualsStep(w, other, n - 1);
      SpreadStep(d, n - 1);
      OneSplit(line, other, n - 1, w[n - 1], Error(w, line, n - 1), ResidualSum(w, line, n - 1), ResidualMoment(w, line, n - 1), Spread(d, n - 1));
    } else {
      NothingMissed(w, line);
      NothingMissed(w, other);
      NoSplit(d);
    }
  }

  lemma {:induction false} NoSplit(d: Line)
    ensures Spread(d, 0) == 0.0 && Split(0.0, d, 0.0, 0.0, 0.0) == 0.0
  {
  }

  lemma {:induction false} SpreadStep(d: Line, n: nat)
    ensures Spread(d, n + 1) == Spread(d, n) + Sq(-Off(d, n as real, 0.0))
  {
    hide Sq;
  }

  lemma {:induction false} OneSplit(line: Line, other: Line, n: nat, v: real, error: real, sum: real, moment: real, spread: real)
    ensures var d, x := Difference(line, other), n as real;
            var r := Off(line, x, v);
            Split(error, d, sum, moment, spread) + Sq(Off(other, x, v)) == Split(error + Sq(r), d, sum + r, moment + Weigh(n, r), spread + Sq(-Off(d, x, 0.0)))
  {
    hide Sq, Off, Weigh, Split;
    var x := n as real;
    var d, r := Difference(line, other), Off(line, x, v);
    var gap := -Off(d, x, 0.0);
    OtherOff(line, other, x, v);
    SquareOfSum(r, gap);
    CrossTerms(d, n, r, gap, error, sum, moment, spread, Sq(r), Sq(gap));
  }

  lemma {:induction false} OtherOff(line: Line, other: Line, x: real, v: real)
    ensures Off(other, x, v) == Off(line, x, v) - Off(Difference(line, other), x, 0.0)
  {
  }

  lemma {:induction false} SquareOfSum(a: real, b: real)
    ensures Sq(a + b) == Sq(a) + 2.0 * (a * b) + Sq(b)
  {
    SqSays(a);
    SqSays(b);
    SqSays(a + b);
  }

  lemma {:induction false} SqSays(a: real)
    ensures Sq(a) == a * a
  {
  }

  lemma {:induction false} CrossTerms(d: Line, n: nat, r: real, gap: real, error: real, sum: real, moment: real, spread: real, a: real, b: real)
    requires gap == -Off(d, n as real, 0.0)
    ensures Split(error, d, sum, moment, spread) + (a + 2.0 * (r * gap) + b) == Split(error + a, d, sum + r, moment + Weigh(n, r), spread + b)
  {
    assert r * gap == d.intercept * r + d.slope * (n as real * r);
  }

  /** A line that stays at zero over two places is zero. */
  lemma {:induction false} SpreadOfZero(d: Line, n: nat)
    requires n >= 2 && Spread(d, n) == 0.0
    ensures d == Line(0.0, 0.0)
    decreases n
  {
    if n > 2 {
      SpreadOfZero(d, n - 1);
    } else {
      assert Spread(d, 1) == Sq(d.At(0.0));
      SqZero(d.At(0.0));
      SqZero(d.At(1.0));
    }
  }

  lemma {:induction false} SameSigns(a: real, b: real, product: real)
    requires product == a * b && (if a > 0.0 then b > 0.0 else a < 0.0 && b < 0.0)
    ensures product > 0.0
  {
  }

  lemma {:induction false} SqZero(a: real)
    ensures Sq(a) == 0.0 <==> a == 0.0
  {
    if a != 0.0 {
      SqSays(a);
      SameSigns(a, a, Sq(a));
    }
  }

  /** The line of the running sums has the least squared error of all lines, and no other line reaches it. */
  lemma {:induction false} LineIsLeastSquares(w: seq<real>, other: Line)
    requires |w| >= 2
    ensures Error(w, LineOf(w), |w|) <= Error(w, other, |w|)
    ensures Error(w, LineOf(w), |w|) == Error(w, other, |w|) ==> other == LineOf(w)
  {
    hide Error, ResidualSum, ResidualMoment, LineOf;
    var line, n := LineOf(w), |w|;
    ResidualsCancel(w);
    ErrorSplits(w, line, other, n);
    if Error(w, line, n) == Error(w, other, n) {
      hide Spread;
      SpreadOfZero(Difference(line, other), n);
    }
  }

  /** Values that lie on a line are fitted by that line. */
  lemma {:induction false} StraightLineIsFound(w: seq<real>, line: Line)
    requires |w| >= 2 && forall i :: 0 <= i < |w| ==> w[i] == line.intercept + line.slope * i as real
    ensures LineOf(w) == line
    ensures forall offset: nat :: offset < |w| ==> Regressed(w, offset) == Some(w[|w| - 1 - offset])
  {
    hide LineOf;
    NoError(w, line, |w|);
    ErrorNotNegative(w, LineOf(w), |w|);
    LineIsLeastSquares(w, line);
    forall offset: nat | offset < |w| ensures Regressed(w, offset) == Some(w[|w| - 1 - offset]) {
      var i := |w| - 1 - offset;
      assert w[i] == line.At(i as real);
    }
  }

  lemma {:induction false} NoError(w: seq<real>, line: Line, n: nat)
    requires n <= |w| && forall i :: 0 <= i < |w| ==> w[i] == line.intercept + line.slope * i as real
    ensures Error(w, line, n) == 0.0
  {
    if n > 0 {
      NoError(w, line, n - 1);
      assert Residual(w, line, n - 1) == 0.0;
      SqZero(0.0);
    }
  }

  lemma {:induction false} ErrorNotNegative(w: seq<real>, line: Line, n: nat)
    requires n <= |w|
    ensures Error(w, line, n) >= 0.0
  {
    if n > 0 {
      ErrorNotNegative(w, line, n - 1);
    }
  }

  // ----- the loop -----

  method Sums(window: seq<real>) returns (sumX: real, sumY: real, sumXY: real, sumXX: real)
    ensures sumX == SumX(|window|) && sumXX == SumXX(|window|) && sumY == SumY(window, |window|) && sumXY == SumXY(window, |window|)
  {
    hide SumX, SumXX, SumXY, SumY;
    sumX, sumY, sumXY, sumXX := 0.0, 0.0, 0.0, 0.0;
    NoSums(window);
    for index := 0 to |window|
      invariant sumX == SumX(index) && sumXX == SumXX(index) && sumY == SumY(window, index) && sumXY == SumXY(window, index)
    {
      SumsStep(window, index);
      var x := index as real;
      sumX := sumX + x;
      sumY := sumY + window[index];
      sumXY := sumXY + x * window[index];
      sumXX := sumXX + x * x;
    }
  }

  /** The fit over the last `period` values, read `offset` places before the last. */
  method LinearRegression(values: seq<real>, period: int, offset: int) returns (fitted: real, ok: bool)
    ensures ok <==> 2 <= period <= |values| && 0 <= offset < period
    ensures ok ==> Regressed(values[|values| - period..], offset) == Some(fitted)
    ensures !ok ==> fitted == 0.0
  {
    hide SumX, SumXX, SumXY, SumY, Line.At;
    if period <= 0 || |values| < period || offset < 0 || offset >= period {
      return 0.0, false;
    }
    var window := values[|values| - period..];
    var sumX, sumY, sumXY, sumXX := Sums(window);
    var count := period as real;
    var denominator := count * sumXX - sumX * sumX;
    DenominatorSays(period);
    if denominator == 0.0 {
      return 0.0, false;
    }
    var slope := (count * sumXY - sumX * sumY) / denominator;
    var intercept := (sumY - slope * sumX) / count;
    assert LineOf(window) == Line(intercept, slope);
    fitted, ok := Line(intercept, slope).At((period - 1 - offset) as real), true;
  }

  lemma {:induction false} NoSums(w: seq<real>)
    ensures SumX(0) == 0.0 && SumXX(0) == 0.0 && SumY(w, 0) == 0.0 && SumXY(w, 0) == 0.0
  {
  }

  lemma {:induction false} SumsStep(w: seq<real>, n: nat)
    requires n < |w|
    ensures SumX(n + 1) == SumX(n) + n as real && SumXX(n + 1) == SumXX(n) + Weigh(n, n as real)
    ensures SumY(w, n + 1) == SumY(w, n) + w[n] && SumXY(w, n + 1) == SumXY(w, n) + Weigh(n, w[n])
  {
  }
}
