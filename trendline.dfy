/** The least-squares trendline of the vibemeter trend chart
    (frontend/src/components/charts/VibemeterTrendChart.tsx, lines 99-117):
    an ordinary-least-squares line through the points (i, ys[i]), the x-values
    being the positions 0 .. n-1 of the daily averages. Every sum is the
    left-to-right `reduce` of the source, on exact reals. */
module Trendline {
  import opened Common

  /** `xValues.reduce((sum, x) => sum + x, 0)` for `xValues = [0, 1, .., n-1]`. */
  function IndexSum(n: nat): real
  {
    if n == 0 then 0.0 else IndexSum(n - 1) + (n - 1) as real
  }

  /** `xMean`. */
  function XMean(n: nat): real
    requires n > 0
  {
    IndexSum(n) / n as real
  }

  /** `yMean`. */
  function YMean(ys: seq<real>): real
    requires |ys| > 0
  {
    Mean(ys)
  }

  /** The first `k` terms of `Σ (x - xMean)(y - yMean)`. */
  function Numerator(ys: seq<real>, k: nat, xMean: real, yMean: real): real
    requires k <= |ys|
  {
    if k == 0 then 0.0
    else Numerator(ys, k - 1, xMean, yMean) + ((k - 1) as real - xMean) * (ys[k - 1] - yMean)
  }

  /** The first `k` terms of `Σ (x - xMean)²`. */
  function Denominator(k: nat, xMean: real): real
  {
    if k == 0 then 0.0
    else Denominator(k - 1, xMean) + ((k - 1) as real - xMean) * ((k - 1) as real - xMean)
  }

  lemma {:induction false} IndexSumClosedForm(n: nat)
    ensures IndexSum(n) == (n as real) * (n as real - 1.0) / 2.0
  {
    if n > 0 {
      IndexSumClosedForm(n - 1);
    }
  }

  /** The mean of the x-values is the midpoint (n - 1) / 2. */
  lemma XMeanMidpoint(n: nat)
    requires n > 0
    ensures XMean(n) == (n as real - 1.0) / 2.0
  {
    IndexSumClosedForm(n);
    var m := n as real;
    var half := (m - 1.0) / 2.0;
    assert IndexSum(n) == m * half;
    DivideProduct(m, half);
  }

  lemma DivideProduct(m: real, c: real)
    requires m != 0.0
    ensures (m * c) / m == c
  {
  }

  lemma SquareNonNegative(x: real)
    ensures x * x >= 0.0
  {
    if x < 0.0 {
      assert x * x == (-x) * (-x);
    }
  }

  lemma {:induction false} DenominatorGrows(k: nat, xMean: real)
    requires k >= 1
    ensures Denominator(k, xMean) >= xMean * xMean
  {
    if k > 1 {
      DenominatorGrows(k - 1, xMean);
      SquareNonNegative((k - 1) as real - xMean);
    }
  }

  /** With more than one point the divisor `Σ (x - xMean)²` is positive, so
      the slope is a real number. */
  lemma DenominatorPositive(n: nat)
    requires n > 1
    ensures Denominator(n, XMean(n)) > 0.0
  {
    XMeanMidpoint(n);
    DenominatorGrows(n, XMean(n));
  }

  /** `slope = numerator / denominator`, defined only for more than one point
      (the source computes a trendline only then). */
  function Slope(ys: seq<real>): real
    requires |ys| > 1
  {
    DenominatorPositive(|ys|);
    Numerator(ys, |ys|, XMean(|ys|), YMean(ys)) / Denominator(|ys|, XMean(|ys|))
  }

  /** `intercept = yMean - slope * xMean`. */
  function Intercept(ys: seq<real>): real
    requires |ys| > 1
  {
    YMean(ys) - Slope(ys) * XMean(|ys|)
  }

  /** The value of the line with the given slope and intercept at position `i`. */
  function LineAt(slope: real, intercept: real, i: int): real
  {
    slope * (i as real) + intercept
  }

  /** The trendline's value at position `i`: `slope * i + intercept`. */
  function Fitted(ys: seq<real>, i: nat): real
    requires |ys| > 1
  {
    LineAt(Slope(ys), Intercept(ys), i)
  }

  /** The y-values lie on the line a·x + b. */
  ghost predicate OnLine(ys: seq<real>, a: real, b: real)
  {
    forall i :: 0 <= i < |ys| ==> ys[i] == a * (i as real) + b
  }

  lemma {:induction false} SumOnLine(ys: seq<real>, a: real, b: real)
    requires OnLine(ys, a, b)
    ensures Sum(ys) == a * IndexSum(|ys|) + (|ys| as real) * b
    decreases |ys|
  {
    if ys != [] {
      var init := ys[..|ys| - 1];
      assert OnLine(init, a, b) by {
        forall i | 0 <= i < |init| ensures init[i] == a * (i as real) + b {
          assert init[i] == ys[i];
        }
      }
      SumOnLine(init, a, b);
    }
  }

  lemma {:induction false} NumeratorOnLine(ys: seq<real>, k: nat, a: real, b: real, xMean: real)
    requires k <= |ys|
    requires OnLine(ys, a, b)
    ensures Numerator(ys, k, xMean, a * xMean + b) == a * Denominator(k, xMean)
  {
    if k > 0 {
      NumeratorOnLine(ys, k - 1, a, b, xMean);
      var x := (k - 1) as real;
      assert ys[k - 1] - (a * xMean + b) == a * (x - xMean);
      assert (x - xMean) * (a * (x - xMean)) == a * ((x - xMean) * (x - xMean));
    }
  }

  /** For y-values on a·x + b the least-squares slope is a. */
  lemma SlopeOnLine(ys: seq<real>, a: real, b: real)
    requires |ys| > 1
    requires OnLine(ys, a, b)
    ensures Slope(ys) == a
  {
    var n := |ys|;
    var xMean := XMean(n);
    YMeanOnLine(ys, a, b);
    NumeratorOnLine(ys, n, a, b, xMean);
    DenominatorPositive(n);
    var d := Denominator(n, xMean);
    var yMean := YMean(ys);
    assert yMean == a * xMean + b;
    assert Numerator(ys, n, xMean, yMean) == Numerator(ys, n, xMean, a * xMean + b);
    assert Numerator(ys, n, xMean, YMean(ys)) == a * d;
    assert Slope(ys) == Numerator(ys, n, xMean, YMean(ys)) / d;
    DivideProduct(d, a);
  }

  /** Least squares reproduces a line exactly: for y-values on a·x + b the
      slope is a, the intercept b, and every fitted value the y-value itself. */
  lemma FitReproducesLine(ys: seq<real>, a: real, b: real)
    requires |ys| > 1
    requires OnLine(ys, a, b)
    ensures Slope(ys) == a
    ensures Intercept(ys) == b
    ensures forall i :: 0 <= i < |ys| ==> Fitted(ys, i) == ys[i]
  {
    SlopeOnLine(ys, a, b);
    YMeanOnLine(ys, a, b);
    assert Intercept(ys) == (a * XMean(|ys|) + b) - a * XMean(|ys|);
    assert Intercept(ys) == b;
    forall i | 0 <= i < |ys| ensures Fitted(ys, i) == ys[i] {
      assert Fitted(ys, i) == LineAt(Slope(ys), Intercept(ys), i);
      assert ys[i] == a * (i as real) + b;
    }
  }

  /** For y-values on a·x + b, yMean is the line's value at xMean. */
  lemma YMeanOnLine(ys: seq<real>, a: real, b: real)
    requires |ys| > 0
    requires OnLine(ys, a, b)
    ensures YMean(ys) == a * XMean(|ys|) + b
  {
    var m := |ys| as real;
    SumOnLine(ys, a, b);
    var c := a * XMean(|ys|) + b;
    assert IndexSum(|ys|) == m * XMean(|ys|);
    assert Sum(ys) == m * c;
    DivideProduct(m, c);
  }

  /** Five daily averages 1, 2, 3, 4, 5 give slope 1 and fitted values i + 1. */
  lemma RisingSeriesExample()
    ensures Slope([1.0, 2.0, 3.0, 4.0, 5.0]) == 1.0
    ensures forall i :: 0 <= i < 5 ==> Fitted([1.0, 2.0, 3.0, 4.0, 5.0], i) == i as real + 1.0
  {
    FitReproducesLine([1.0, 2.0, 3.0, 4.0, 5.0], 1.0, 1.0);
  }
}
