/** Least-squares trend lines (`calculateLinearRegression`) and the linear
    forecast built on them (`forecastValues`), from the analytics route. */
module Regression {
  import opened Numeric

  datatype Point = Point(x: real, y: real)

  /** `{ slope, intercept, r2 }`; a field is `Undefined` where the route
      divides by zero and JavaScript produces NaN. */
  datatype Fit = Fit(slope: Ratio, intercept: Ratio, r2: Ratio)

  function X(p: Point): real { p.x }
  function Y(p: Point): real { p.y }

  /** The summand of ssXY. */
  function CrossDeviation(meanX: real, meanY: real): Point -> real
  {
    (p: Point) => (p.x - meanX) * (p.y - meanY)
  }

  /** The summand of ssXX. */
  function XSpread(meanX: real): Point -> real
  {
    (p: Point) => (p.x - meanX) * (p.x - meanX)
  }

  /** The summand of ssYY. */
  function YSpread(meanY: real): Point -> real
  {
    (p: Point) => (p.y - meanY) * (p.y - meanY)
  }

  /** The coefficients from the means and the sums of products: slope
      `ssXY / ssXX`, the intercept through the means, and r2
      `ssXY^2 / (ssXX ssYY)`. */
  function FitOfMoments(meanX: real, meanY: real, ssXY: real, ssXX: real, ssYY: real): (fit: Fit)
    ensures fit.slope.Defined? <==> ssXX != 0.0
    ensures fit.intercept.Defined? <==> fit.slope.Defined?
    ensures fit.slope.Defined? ==> fit.intercept.value == meanY - fit.slope.value * meanX
    ensures ssXX >= 0.0 && ssYY >= 0.0 && fit.r2.Defined? ==> fit.r2.value >= 0.0
  {
    var slope := Divide(ssXY, ssXX);
    var intercept := if slope.Defined? then Defined(meanY - slope.value * meanX) else Undefined;
    R2Nonnegative(ssXY, ssXX, ssYY);
    Fit(slope, intercept, Divide(ssXY * ssXY, ssXX * ssYY))
  }

  lemma R2Nonnegative(ssXY: real, ssXX: real, ssYY: real)
    ensures ssXX >= 0.0 && ssYY >= 0.0 && Divide(ssXY * ssXY, ssXX * ssYY).Defined? ==>
      Divide(ssXY * ssXY, ssXX * ssYY).value >= 0.0
  {
    if ssXX >= 0.0 && ssYY > 0.0 {
      SquareNonnegative(ssXY);
      ProductSign(ssXX, ssYY);
      if ssXX * ssYY != 0.0 {
        QuotientAtLeast(ssXY * ssXY, ssXX * ssYY, 0.0);
      }
    }
  }

  /** The mean of x over the points. */
  function MeanX(pts: seq<Point>): real
    requires |pts| > 0
  {
    SumBy(pts, X) / |pts| as real
  }

  /** The mean of y over the points. */
  function MeanY(pts: seq<Point>): real
    requires |pts| > 0
  {
    SumBy(pts, Y) / |pts| as real
  }

  /** ssXY: the sum of the products of the deviations from the means. */
  function CrossSum(pts: seq<Point>): real
    requires |pts| > 0
  {
    SumBy(pts, CrossDeviation(MeanX(pts), MeanY(pts)))
  }

  /** ssXX: the sum of the squared deviations of x. */
  function XSpreadSum(pts: seq<Point>): real
    requires |pts| > 0
  {
    SumBy(pts, XSpread(MeanX(pts)))
  }

  /** ssYY: the sum of the squared deviations of y. */
  function YSpreadSum(pts: seq<Point>): real
    requires |pts| > 0
  {
    SumBy(pts, YSpread(MeanY(pts)))
  }

  /** `calculateLinearRegression(data)`. */
  function LinearRegression(pts: seq<Point>): (fit: Fit)
    ensures |pts| < 2 ==> fit == Fit(Defined(0.0), Defined(0.0), Defined(0.0))
    ensures fit.intercept.Defined? <==> fit.slope.Defined?
    ensures fit.r2.Defined? ==> fit.r2.value >= 0.0
  {
    if |pts| < 2 then Fit(Defined(0.0), Defined(0.0), Defined(0.0))
    else
      SpreadsNonnegative(pts, MeanX(pts), MeanY(pts));
      FitOfMoments(MeanX(pts), MeanY(pts), CrossSum(pts), XSpreadSum(pts), YSpreadSum(pts))
  }

  lemma SpreadsNonnegative(pts: seq<Point>, meanX: real, meanY: real)
    ensures SumBy(pts, XSpread(meanX)) >= 0.0 && SumBy(pts, YSpread(meanY)) >= 0.0
  {
    forall k | 0 <= k < |pts|
      ensures XSpread(meanX)(pts[k]) >= 0.0 && YSpread(meanY)(pts[k]) >= 0.0
    {
      SquareNonnegative(pts[k].x - meanX);
      SquareNonnegative(pts[k].y - meanY);
    }
    SumByNonnegative(pts, XSpread(meanX));
    SumByNonnegative(pts, YSpread(meanY));
  }

  /** Two points with different x make ssXX positive, whatever mean it is
      taken about. */
  lemma SpreadPositive(pts: seq<Point>, meanX: real, i: nat, j: nat)
    requires i < j < |pts| && pts[i].x != pts[j].x
    ensures SumBy(pts, XSpread(meanX)) > 0.0
  {
    forall m | 0 <= m < |pts|
      ensures XSpread(meanX)(pts[m]) >= 0.0
    {
      SquareNonnegative(pts[m].x - meanX);
    }
    var k := if pts[i].x != meanX then i else j;
    var d := pts[k].x - meanX;
    calc {
      XSpread(meanX)(pts[k]);
      d * d;
    >
      { SquareNonzero(d); }
      0.0;
    }
    SumByPositive(pts, XSpread(meanX), k);
  }

  /** Every point lies on `y = a + b x`. */
  predicate OnLine(pts: seq<Point>, a: real, b: real)
  {
    forall k :: 0 <= k < |pts| ==> pts[k].y == a + b * pts[k].x
  }

  /** The sum of y over points on `y = a + b x`. */
  lemma SumOfLine(pts: seq<Point>, a: real, b: real)
    requires OnLine(pts, a, b)
    ensures SumBy(pts, Y) == |pts| as real * a + b * SumBy(pts, X)
  {
    forall k | 0 <= k < |pts|
      ensures Y(pts[k]) == a + b * X(pts[k])
    {
    }
    SumByAffine(pts, Y, X, a, b);
  }

  /** The mean of points on `y = a + b x` lies on the line. */
  lemma MeanOfLine(pts: seq<Point>, a: real, b: real)
    requires |pts| > 0
    requires OnLine(pts, a, b)
    ensures MeanY(pts) == a + b * MeanX(pts)
  {
    SumOfLine(pts, a, b);
    MeanOfAffine(SumBy(pts, Y), SumBy(pts, X), |pts| as real, a, b);
  }

  lemma MeanOfAffine(total: real, other: real, n: real, a: real, b: real)
    requires n > 0.0 && total == n * a + b * other
    ensures total / n == a + b * (other / n)
  {
    assert total / n == (n * a) / n + (b * other) / n;
    QuotientOfMultiple(a, n);
    assert (n * a) / n == a;
    assert (b * other) / n == b * (other / n);
  }

  lemma ProductsOfLine(dx: real, dy: real, b: real)
    requires dy == b * dx
    ensures dx * dy == b * (dx * dx)
    ensures dy * dy == (b * b) * (dx * dx)
  {
  }

  /** For points on the line, about a centre on the line, each summand of
      ssXY is `b` times the summand of ssXX ... */
  lemma CrossSummandsOfLine(pts: seq<Point>, a: real, b: real, meanX: real, meanY: real)
    requires OnLine(pts, a, b)
    requires meanY == a + b * meanX
    ensures ScaledTerms(pts, CrossDeviation(meanX, meanY), XSpread(meanX), b)
  {
    forall k | 0 <= k < |pts|
      ensures CrossDeviation(meanX, meanY)(pts[k]) == b * XSpread(meanX)(pts[k])
    {
      var dx := pts[k].x - meanX;
      var dy := pts[k].y - meanY;
      assert dy == b * dx;
      ProductsOfLine(dx, dy, b);
    }
  }

  /** ... and each summand of ssYY is `b * b` times it. */
  lemma YSpreadSummandsOfLine(pts: seq<Point>, a: real, b: real, meanX: real, meanY: real)
    requires OnLine(pts, a, b)
    requires meanY == a + b * meanX
    ensures ScaledTerms(pts, YSpread(meanY), XSpread(meanX), b * b)
  {
    forall k | 0 <= k < |pts|
      ensures YSpread(meanY)(pts[k]) == (b * b) * XSpread(meanX)(pts[k])
    {
      var dx := pts[k].x - meanX;
      var dy := pts[k].y - meanY;
      assert dy == b * dx;
      ProductsOfLine(dx, dy, b);
    }
  }

  /** For points on `y = a + b x`, ssXY is `b` times ssXX ... */
  lemma CrossSumOfLine(pts: seq<Point>, a: real, b: real)
    requires |pts| > 0
    requires OnLine(pts, a, b)
    ensures CrossSum(pts) == b * XSpreadSum(pts)
  {
    MeanOfLine(pts, a, b);
    CrossSummandsOfLine(pts, a, b, MeanX(pts), MeanY(pts));
    SumByScaled(pts, CrossDeviation(MeanX(pts), MeanY(pts)), XSpread(MeanX(pts)), b);
  }

  /** ... and ssYY is `b * b` times ssXX. */
  lemma YSpreadSumOfLine(pts: seq<Point>, a: real, b: real)
    requires |pts| > 0
    requires OnLine(pts, a, b)
    ensures YSpreadSum(pts) == (b * b) * XSpreadSum(pts)
  {
    MeanOfLine(pts, a, b);
    YSpreadSummandsOfLine(pts, a, b, MeanX(pts), MeanY(pts));
    SumByScaled(pts, YSpread(MeanY(pts)), XSpread(MeanX(pts)), b * b);
  }

  /** Points lying exactly on `y = a + b x` (with two distinct x) give back
      that line; r2 is 1, except that a horizontal line makes ssYY zero and
      r2 the NaN of 0/0. */
  lemma FitOfLine(pts: seq<Point>, a: real, b: real, i: nat, j: nat)
    requires i < j < |pts| && pts[i].x != pts[j].x
    requires OnLine(pts, a, b)
    ensures LinearRegression(pts).slope == Defined(b)
    ensures LinearRegression(pts).intercept == Defined(a)
    ensures LinearRegression(pts).r2 == if b == 0.0 then Undefined else Defined(1.0)
  {
    MeanOfLine(pts, a, b);
    CrossSumOfLine(pts, a, b);
    YSpreadSumOfLine(pts, a, b);
    SpreadPositive(pts, MeanX(pts), i, j);
    MomentsOfLine(MeanX(pts), MeanY(pts), CrossSum(pts), XSpreadSum(pts), YSpreadSum(pts), a, b);
  }

  /** The moments of a line with positive ssXX give back its slope and
      intercept, and r2 = 1 unless the slope is 0. */
  lemma MomentsOfLine(meanX: real, meanY: real, ssXY: real, ssXX: real, ssYY: real, a: real, b: real)
    requires ssXX > 0.0 && meanY == a + b * meanX
    requires ssXY == b * ssXX && ssYY == (b * b) * ssXX
    ensures FitOfMoments(meanX, meanY, ssXY, ssXX, ssYY)
      == Fit(Defined(b), Defined(a), if b == 0.0 then Undefined else Defined(1.0))
  {
    assert FitOfMoments(meanX, meanY, ssXY, ssXX, ssYY) == FitOfMoments(meanX, meanY, b * ssXX, ssXX, (b * b) * ssXX);
    var fit := FitOfMoments(meanX, meanY, b * ssXX, ssXX, (b * b) * ssXX);
    QuotientOfMultiple(b, ssXX);
    assert fit.slope == Divide(b * ssXX, ssXX) == Defined(b);
    assert fit.intercept == Defined(a);
    RatioOfSquares(b, ssXX);
    assert fit.r2 == Divide((b * ssXX) * (b * ssXX), ssXX * ((b * b) * ssXX));
  }

  /** The two sides of r2 for a line: the denominator equals the numerator,
      which vanishes exactly with the slope. */
  lemma SquaredProduct(b: real, s: real)
    requires s > 0.0
    ensures s * ((b * b) * s) == (b * s) * (b * s)
    ensures b != 0.0 ==> (b * s) * (b * s) != 0.0
    ensures b == 0.0 ==> (b * s) * (b * s) == 0.0
  {
    assert s * ((b * b) * s) == (b * s) * (b * s);
    if b != 0.0 {
      assert b * s != 0.0;
      SquareNonzero(b * s);
      assert (b * s) * (b * s) != 0.0;
    }
  }

  /** `(b s)^2 / (s * b^2 s)` is 1, or 0/0 when `b` is 0. */
  lemma RatioOfSquares(b: real, s: real)
    requires s > 0.0
    ensures Divide((b * s) * (b * s), s * ((b * b) * s)) == if b == 0.0 then Undefined else Defined(1.0)
  {
    SquaredProduct(b, s);
    DivideSelf((b * s) * (b * s));
  }

  // ---------------------------------------------------------------------------
  // Regressions over a series against its indices, as every caller does.

  /** Each value paired with its index as the x coordinate. */
  function IndexPoints(ys: seq<real>): seq<Point>
  {
    seq(|ys|, k requires 0 <= k < |ys| => Point(k as real, ys[k]))
  }

  function IndexRegression(ys: seq<real>): Fit
  {
    LinearRegression(IndexPoints(ys))
  }

  /** With x = 0, 1, ..., n-1 ssXX is never zero, so slope and intercept are
      always numbers. */
  lemma IndexFitDefined(ys: seq<real>)
    ensures IndexRegression(ys).slope.Defined?
    ensures IndexRegression(ys).intercept.Defined?
  {
    var pts := IndexPoints(ys);
    if |ys| >= 2 {
      SpreadPositive(pts, MeanX(pts), 0, 1);
    }
  }

  /** The slope of a series against its indices. */
  function Trend(ys: seq<real>): (b: real)
    ensures IndexRegression(ys).slope == Defined(b)
  {
    IndexFitDefined(ys);
    IndexRegression(ys).slope.value
  }

  /** The intercept of a series against its indices. */
  function Intercept(ys: seq<real>): (a: real)
    ensures IndexRegression(ys).intercept == Defined(a)
  {
    IndexFitDefined(ys);
    IndexRegression(ys).intercept.value
  }

  /** A series `a + b * i` of length at least 2 has trend `b` and intercept `a`. */
  lemma LinearSeriesFit(ys: seq<real>, a: real, b: real)
    requires |ys| >= 2
    requires forall k :: 0 <= k < |ys| ==> ys[k] == a + b * k as real
    ensures Trend(ys) == b && Intercept(ys) == a
    ensures IndexRegression(ys).r2 == if b == 0.0 then Undefined else Defined(1.0)
  {
    FitOfLine(IndexPoints(ys), a, b, 0, 1);
  }

  /** A constant series is flat: slope 0, intercept the constant, and (from
      two points on) an r2 of 0/0. */
  lemma ConstantSeriesFit(ys: seq<real>, c: real)
    requires forall k :: 0 <= k < |ys| ==> ys[k] == c
    ensures Trend(ys) == 0.0
    ensures |ys| >= 2 ==> Intercept(ys) == c && IndexRegression(ys).r2 == Undefined
  {
    if |ys| >= 2 {
      LinearSeriesFit(ys, c, 0.0);
    }
  }

  // ---------------------------------------------------------------------------
  // Forecast

  /** The trend line `intercept + slope * x` at `x`, to one decimal, never
      below 0. */
  function LineValue(slope: real, intercept: real, x: real): (v: real)
    ensures v >= 0.0
    ensures slope * x + intercept >= 0.0 ==> v == Round1(slope * x + intercept)
  {
    RealMax(0.0, Round1(slope * x + intercept))
  }

  /** `forecastValues(data, periods)`; `null` entries are `None`. Entry `i`
      is the trend line at x = n + i. */
  function Forecast(data: seq<real>, periods: nat): (r: seq<Option<real>>)
    ensures |r| == periods
    ensures |data| < 10 ==> forall i :: 0 <= i < periods ==> r[i] == None
    ensures |data| >= 10 ==> forall i :: 0 <= i < periods ==>
      r[i] == Some(LineValue(Trend(data), Intercept(data), (|data| + i) as real))
  {
    if |data| < 10 then seq(periods, _ => None)
    else seq(periods, i requires 0 <= i => Some(LineValue(Trend(data), Intercept(data), (|data| + i) as real)))
  }

  /** A series that lies on a line is extended along that line, cut off at 0. */
  lemma ForecastExtendsLine(data: seq<real>, a: real, b: real, periods: nat)
    requires |data| >= 10
    requires forall k :: 0 <= k < |data| ==> data[k] == a + b * k as real
    ensures forall i :: 0 <= i < periods ==>
      Forecast(data, periods)[i] == Some(RealMax(0.0, Round1(a + b * (|data| + i) as real)))
  {
    LinearSeriesFit(data, a, b);
    forall i | 0 <= i < periods
      ensures Forecast(data, periods)[i] == Some(RealMax(0.0, Round1(a + b * (|data| + i) as real)))
    {
      assert Forecast(data, periods)[i] == Some(LineValue(b, a, (|data| + i) as real));
      assert b * (|data| + i) as real + a == a + b * (|data| + i) as real;
    }
  }
}
