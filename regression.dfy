/** Degree-one least-squares fit, `np.polyfit(x, y, 1)`, in closed form over the reals. */
module Regression {
  import opened Results

  // ---------------------------------------------------------------------------
  // Pointwise arithmetic on samples

  function Plus(u: seq<real>, v: seq<real>): (w: seq<real>)
    requires |u| == |v|
    ensures |w| == |u|
  {
    seq(|u|, i requires 0 <= i < |u| => u[i] + v[i])
  }

  function Minus(u: seq<real>, v: seq<real>): (w: seq<real>)
    requires |u| == |v|
    ensures |w| == |u|
  {
    seq(|u|, i requires 0 <= i < |u| => u[i] - v[i])
  }

  function Scaled(u: seq<real>, c: real): (w: seq<real>)
    ensures |w| == |u|
  {
    seq(|u|, i requires 0 <= i < |u| => c * u[i])
  }

  function Constant(n: nat, c: real): (w: seq<real>)
    ensures |w| == n
  {
    seq(n, i => c)
  }

  // ---------------------------------------------------------------------------
  // Sums over a prefix

  /** Sum of the first `k` elements. */
  function SumTo(s: seq<real>, k: nat): real
    requires k <= |s|
  {
    if k == 0 then 0.0 else SumTo(s, k - 1) + s[k - 1]
  }

  /** Sum of the first `k` pairwise products. */
  function DotTo(u: seq<real>, v: seq<real>, k: nat): real
    requires k <= |u| && k <= |v|
  {
    if k == 0 then 0.0 else DotTo(u, v, k - 1) + u[k - 1] * v[k - 1]
  }

  /** Sum of the first `k` squared distances to `x`. */
  function DeviationTo(s: seq<real>, x: real, k: nat): real
    requires k <= |s|
  {
    if k == 0 then 0.0 else DeviationTo(s, x, k - 1) + (s[k - 1] - x) * (s[k - 1] - x)
  }

  predicate AllEqual(s: seq<real>) {
    forall i :: 0 <= i < |s| ==> s[i] == s[0]
  }

  /** Two distinct values need two samples. */
  lemma SpreadNonempty(s: seq<real>)
    requires !AllEqual(s)
    ensures |s| >= 2
  {
  }

  // ---------------------------------------------------------------------------
  // The fit

  /** A fitted line `y = slope * x + intercept`. */
  datatype Line = Line(slope: real, intercept: real)

  /** Why `np.polyfit` gives no usable line. */
  datatype FitError =
    | EmptySample      // "expected non-empty vector for x"
    | LengthMismatch   // "expected x and y to have same length"
    | RankDeficient    // every x equal: the normal equations are singular

  /** The line's value above every abscissa. */
  function LineAt(xs: seq<real>, line: Line): (ys: seq<real>)
    ensures |ys| == |xs|
  {
    Plus(Scaled(xs, line.slope), Constant(|xs|, line.intercept))
  }

  /** `ys[i] - (slope * xs[i] + intercept)` for every sample. */
  function Residuals(xs: seq<real>, ys: seq<real>, line: Line): (r: seq<real>)
    requires |xs| == |ys|
    ensures |r| == |xs|
  {
    Minus(ys, LineAt(xs, line))
  }

  /** Sum of squared residuals: what least squares minimises. */
  function SquaredError(xs: seq<real>, ys: seq<real>, line: Line): real
    requires |xs| == |ys|
  {
    var r := Residuals(xs, ys, line);
    DotTo(r, r, |xs|)
  }

  /** The normal equations of least squares over all samples. */
  predicate NormalEquations(xs: seq<real>, ys: seq<real>, line: Line)
    requires |xs| == |ys|
  {
    NormalEquationsTo(xs, ys, line, |xs|)
  }

  /** The normal equations over the first `k` samples. */
  predicate NormalEquationsTo(xs: seq<real>, ys: seq<real>, line: Line, k: nat)
    requires k <= |xs| && k <= |ys|
  {
    SumBalance(xs, ys, line, k) && DotBalance(xs, ys, line, k)
  }

  /** First normal equation: `sum(y) = slope * sum(x) + k * intercept`. */
  predicate SumBalance(xs: seq<real>, ys: seq<real>, line: Line, k: nat)
    requires k <= |xs| && k <= |ys|
  {
    FirstEquation(k as real, SumTo(xs, k), SumTo(ys, k), line)
  }

  /** Second normal equation: `sum(x * y) = slope * sum(x * x) + intercept * sum(x)`. */
  predicate DotBalance(xs: seq<real>, ys: seq<real>, line: Line, k: nat)
    requires k <= |xs| && k <= |ys|
  {
    SecondEquation(SumTo(xs, k), DotTo(xs, xs, k), DotTo(xs, ys, k), line)
  }

  /** `sy = slope * sx + n * intercept`, for sample count `n` and sums `sx`, `sy`. */
  predicate FirstEquation(n: real, sx: real, sy: real, line: Line) {
    sy == line.slope * sx + n * line.intercept
  }

  /** `sxy = slope * sxx + intercept * sx`, for sums `sx`, `sxx`, `sxy`. */
  predicate SecondEquation(sx: real, sxx: real, sxy: real, line: Line) {
    sxy == line.slope * sxx + line.intercept * sx
  }

  /** `n * sum(x^2) - sum(x)^2`, the determinant of the normal equations. */
  function Denominator(xs: seq<real>): real {
    (|xs| as real) * DotTo(xs, xs, |xs|) - SumTo(xs, |xs|) * SumTo(xs, |xs|)
  }

  /** `np.polyfit(xs, ys, 1)` as `(slope, intercept)`. */
  function Fit(xs: seq<real>, ys: seq<real>): (r: Result<Line, FitError>)
    ensures r == Err(EmptySample) <==> |xs| == 0
    ensures r == Err(LengthMismatch) <==> |xs| > 0 && |xs| != |ys|
    ensures r == Err(RankDeficient) <==> 0 < |xs| == |ys| && AllEqual(xs)
    ensures r.Ok? ==> |xs| == |ys| && NormalEquations(xs, ys, r.value)
  {
    if |xs| == 0 then Err(EmptySample)
    else if |xs| != |ys| then Err(LengthMismatch)
    else if AllEqual(xs) then Err(RankDeficient)
    else Ok(FitLine(xs, ys))
  }

  /** The fitted line of samples whose normal equations have a unique solution. */
  function FitLine(xs: seq<real>, ys: seq<real>): (line: Line)
    requires 0 < |xs| == |ys| && !AllEqual(xs)
    ensures NormalEquations(xs, ys, line)
  {
    DenominatorPositive(xs);
    ClosedForm(|xs| as real, SumTo(xs, |xs|), SumTo(ys, |xs|), DotTo(xs, xs, |xs|), DotTo(xs, ys, |xs|))
  }

  /** Solution of the normal equations `sy = slope * sx + n * intercept`,
      `sxy = slope * sxx + intercept * sx` by Cramer's rule. */
  function ClosedForm(n: real, sx: real, sy: real, sxx: real, sxy: real): (c: Line)
    requires n > 0.0 && n * sxx - sx * sx > 0.0
    ensures FirstEquation(n, sx, sy, c) && SecondEquation(sx, sxx, sxy, c)
  {
    var slope := (n * sxy - sx * sy) / (n * sxx - sx * sx);
    var intercept := (sy - slope * sx) / n;
    CramerSolves(n, sx, sy, sxx, sxy, slope, intercept);
    Line(slope, intercept)
  }

  // ---------------------------------------------------------------------------
  // What the fit is

  /** The fit is the one line that solves the normal equations, whenever
      there are samples of equal length and two distinct abscissae. */
  lemma FitCharacterized(xs: seq<real>, ys: seq<real>, line: Line)
    ensures Fit(xs, ys) == Ok(line) <==> 0 < |xs| == |ys| && !AllEqual(xs) && NormalEquations(xs, ys, line)
  {
    if 0 < |xs| == |ys| && !AllEqual(xs) && NormalEquations(xs, ys, line) {
      DenominatorPositive(xs);
      SolveExact(|xs| as real, SumTo(xs, |xs|), SumTo(ys, |xs|), DotTo(xs, xs, |xs|), DotTo(xs, ys, |xs|), line);
    }
  }

  /** The normal equations say that the residuals sum to zero and are orthogonal to the abscissae. */
  lemma ResidualsBalanced(xs: seq<real>, ys: seq<real>, line: Line)
    requires |xs| == |ys|
    ensures NormalEquations(xs, ys, line)
        <==> SumTo(Residuals(xs, ys, line), |xs|) == 0.0 && DotTo(xs, Residuals(xs, ys, line), |xs|) == 0.0
  {
    ResidualsBalancedTo(xs, ys, line, |xs|);
  }

  lemma ResidualsBalancedTo(xs: seq<real>, ys: seq<real>, line: Line, k: nat)
    requires |xs| == |ys| && k <= |xs|
    ensures NormalEquationsTo(xs, ys, line, k)
        <==> SumTo(Residuals(xs, ys, line), k) == 0.0 && DotTo(xs, Residuals(xs, ys, line), k) == 0.0
  {
    SumResidualsZero(xs, ys, line, k);
    DotResidualsZero(xs, ys, line, k);
  }

  lemma SumResidualsZero(xs: seq<real>, ys: seq<real>, line: Line, k: nat)
    requires |xs| == |ys| && k <= |xs|
    ensures SumTo(Residuals(xs, ys, line), k) == 0.0 <==> SumBalance(xs, ys, line, k)
  {
    SumResiduals(xs, ys, line, k);
  }

  lemma DotResidualsZero(xs: seq<real>, ys: seq<real>, line: Line, k: nat)
    requires |xs| == |ys| && k <= |xs|
    ensures DotTo(xs, Residuals(xs, ys, line), k) == 0.0 <==> DotBalance(xs, ys, line, k)
  {
    DotResiduals(xs, ys, line, k);
  }

  /** No line has a smaller squared error than the fitted one. */
  lemma FitIsLeastSquares(xs: seq<real>, ys: seq<real>, other: Line)
    requires Fit(xs, ys).Ok?
    ensures SquaredError(xs, ys, Fit(xs, ys).value) <= SquaredError(xs, ys, other)
  {
    var fit := Fit(xs, ys).value;
    var rf := Residuals(xs, ys, fit);
    var gap := Line(other.slope - fit.slope, other.intercept - fit.intercept);
    var d := LineAt(xs, gap);
    ResidualsBalanced(xs, ys, fit);
    ResidualsOfOther(xs, ys, fit, other);
    DotSquare(rf, d, |xs|);
    CrossTermVanishes(xs, rf, gap);
    DotSelfNonnegative(d, |xs|);
  }

  /** Residuals against `other` are those against `fit` minus the gap between the two lines. */
  lemma ResidualsOfOther(xs: seq<real>, ys: seq<real>, fit: Line, other: Line)
    requires |xs| == |ys|
    ensures Residuals(xs, ys, other)
         == Minus(Residuals(xs, ys, fit), LineAt(xs, Line(other.slope - fit.slope, other.intercept - fit.intercept)))
  {
    forall i | 0 <= i < |xs|
      ensures Residuals(xs, ys, other)[i]
           == Minus(Residuals(xs, ys, fit), LineAt(xs, Line(other.slope - fit.slope, other.intercept - fit.intercept)))[i]
    {
      ResidualShift(xs[i], ys[i], fit, other);
    }
  }

  /** Residuals that satisfy the normal equations are orthogonal to every line over the abscissae. */
  lemma CrossTermVanishes(xs: seq<real>, r: seq<real>, line: Line)
    requires |xs| == |r|
    requires SumTo(r, |xs|) == 0.0 && DotTo(xs, r, |xs|) == 0.0
    ensures DotTo(r, LineAt(xs, line), |xs|) == 0.0
  {
    DotLineAt(r, xs, line, |xs|);
    DotSymmetric(r, xs, |xs|);
    ZeroProduct(line.slope, DotTo(r, xs, |xs|));
    ZeroProduct(line.intercept, SumTo(r, |xs|));
  }

  /** Every line solves the normal equations of its own samples. */
  lemma LineSolvesItsEquations(xs: seq<real>, line: Line)
    ensures NormalEquations(xs, LineAt(xs, line), line)
  {
    LineSolvesItsEquationsTo(xs, line, |xs|);
  }

  lemma LineSolvesItsEquationsTo(xs: seq<real>, line: Line, k: nat)
    requires k <= |xs|
    ensures NormalEquationsTo(xs, LineAt(xs, line), line, k)
  {
    SumLineAt(xs, line, k);
    DotLineAt(xs, xs, line, k);
  }

  /** Samples that lie exactly on a line with two distinct abscissae give that line back. */
  lemma FitRecoversLine(xs: seq<real>, ys: seq<real>, line: Line)
    requires 0 < |xs| == |ys| && !AllEqual(xs)
    requires forall i :: 0 <= i < |xs| ==> ys[i] == line.slope * xs[i] + line.intercept
    ensures Fit(xs, ys) == Ok(line)
  {
    var l := LineAt(xs, line);
    forall i | 0 <= i < |xs|
      ensures ys[i] == l[i]
    {
    }
    assert ys == l;
    LineSolvesItsEquations(xs, line);
    FitCharacterized(xs, ys, line);
  }

  /** Fitting samples against themselves gives slope 1 and intercept 0. */
  lemma FitIdentity(xs: seq<real>)
    requires |xs| > 0 && !AllEqual(xs)
    ensures Fit(xs, xs) == Ok(Line(1.0, 0.0))
  {
    FitRecoversLine(xs, xs, Line(1.0, 0.0));
  }

  // ---------------------------------------------------------------------------
  // The algebra of the closed form

  /** With a positive determinant the closed form is the only solution of the normal equations. */
  lemma SolveExact(n: real, sx: real, sy: real, sxx: real, sxy: real, line: Line)
    requires n > 0.0 && n * sxx - sx * sx > 0.0
    requires FirstEquation(n, sx, sy, line) && SecondEquation(sx, sxx, sxy, line)
    ensures ClosedForm(n, sx, sy, sxx, sxy) == line
  {
    var d := n * sxx - sx * sx;
    assert n * sxy - sx * sy == line.slope * d;
  }

  /** Cramer's rule: the quotients of the determinants solve the normal equations. */
  lemma CramerSolves(n: real, sx: real, sy: real, sxx: real, sxy: real, slope: real, intercept: real)
    requires n > 0.0 && n * sxx - sx * sx > 0.0
    requires slope == (n * sxy - sx * sy) / (n * sxx - sx * sx)
    requires intercept == (sy - slope * sx) / n
    ensures sy == slope * sx + n * intercept
    ensures sxy == slope * sxx + intercept * sx
  {
    var d := n * sxx - sx * sx;
    assert n * intercept == sy - slope * sx;
    assert slope * d == n * sxy - sx * sy;
    calc {
      n * (sxy - (slope * sxx + intercept * sx));
      n * sxy - slope * (n * sxx) - (n * intercept) * sx;
      n * sxy - slope * (n * sxx) - (sy - slope * sx) * sx;
      n * sxy - sx * sy - slope * (n * sxx - sx * sx);
      0.0;
    }
  }

  /** Residuals against another line differ by that line's offset from the first. */
  lemma ResidualShift(x: real, y: real, fit: Line, other: Line)
    ensures y - (other.slope * x + other.intercept)
         == (y - (fit.slope * x + fit.intercept)) - ((other.slope - fit.slope) * x + (other.intercept - fit.intercept))
  {
  }

  lemma ZeroProduct(c: real, z: real)
    requires z == 0.0
    ensures c * z == 0.0
  {
  }

  lemma SquareOfDifference(a: real, b: real, c: real)
    requires c == a - b
    ensures c * c == a * a - 2.0 * (a * b) + b * b
  {
  }

  // ---------------------------------------------------------------------------
  // Sums of lines and residuals

  /** `sum(a xs + b) == a sum(xs) + n b` over the first `k` samples. */
  lemma SumLineAt(xs: seq<real>, line: Line, k: nat)
    requires k <= |xs|
    ensures SumTo(LineAt(xs, line), k) == line.slope * SumTo(xs, k) + (k as real) * line.intercept
  {
    SumPlus(Scaled(xs, line.slope), Constant(|xs|, line.intercept), k);
    SumScaled(xs, line.slope, k);
    SumConstant(|xs|, line.intercept, k);
  }

  /** `sum(u (a xs + b)) == a sum(u xs) + b sum(u)` over the first `k` samples. */
  lemma DotLineAt(u: seq<real>, xs: seq<real>, line: Line, k: nat)
    requires |u| == |xs| && k <= |xs|
    ensures DotTo(u, LineAt(xs, line), k) == line.slope * DotTo(u, xs, k) + line.intercept * SumTo(u, k)
  {
    DotPlus(u, Scaled(xs, line.slope), Constant(|xs|, line.intercept), k);
    DotScaled(u, xs, line.slope, k);
    DotConstant(u, |xs|, line.intercept, k);
  }

  lemma SumResiduals(xs: seq<real>, ys: seq<real>, line: Line, k: nat)
    requires |xs| == |ys| && k <= |xs|
    ensures SumTo(Residuals(xs, ys, line), k) == SumTo(ys, k) - (line.slope * SumTo(xs, k) + (k as real) * line.intercept)
  {
    SumMinus(ys, LineAt(xs, line), k);
    SumLineAt(xs, line, k);
  }

  lemma DotResiduals(xs: seq<real>, ys: seq<real>, line: Line, k: nat)
    requires |xs| == |ys| && k <= |xs|
    ensures DotTo(xs, Residuals(xs, ys, line), k) == DotTo(xs, ys, k) - (line.slope * DotTo(xs, xs, k) + line.intercept * SumTo(xs, k))
  {
    DotMinus(xs, ys, LineAt(xs, line), k);
    DotLineAt(xs, xs, line, k);
  }

  // ---------------------------------------------------------------------------
  // Linearity of the sums

  lemma {:induction false} SumPlus(u: seq<real>, v: seq<real>, k: nat)
    requires |u| == |v| && k <= |u|
    ensures SumTo(Plus(u, v), k) == SumTo(u, k) + SumTo(v, k)
  {
    if k > 0 {
      SumPlus(u, v, k - 1);
    }
  }

  lemma {:induction false} SumMinus(u: seq<real>, v: seq<real>, k: nat)
    requires |u| == |v| && k <= |u|
    ensures SumTo(Minus(u, v), k) == SumTo(u, k) - SumTo(v, k)
  {
    if k > 0 {
      SumMinus(u, v, k - 1);
    }
  }

  lemma {:induction false} SumScaled(u: seq<real>, c: real, k: nat)
    requires k <= |u|
    ensures SumTo(Scaled(u, c), k) == c * SumTo(u, k)
  {
    if k > 0 {
      SumScaled(u, c, k - 1);
    }
  }

  lemma {:induction false} SumConstant(n: nat, c: real, k: nat)
    requires k <= n
    ensures SumTo(Constant(n, c), k) == (k as real) * c
  {
    if k > 0 {
      SumConstant(n, c, k - 1);
    }
  }

  lemma {:induction false} DotPlus(x: seq<real>, u: seq<real>, v: seq<real>, k: nat)
    requires |u| == |v| && k <= |x| && k <= |u|
    ensures DotTo(x, Plus(u, v), k) == DotTo(x, u, k) + DotTo(x, v, k)
  {
    if k > 0 {
      DotPlus(x, u, v, k - 1);
      assert x[k - 1] * Plus(u, v)[k - 1] == x[k - 1] * u[k - 1] + x[k - 1] * v[k - 1];
    }
  }

  lemma {:induction false} DotMinus(x: seq<real>, u: seq<real>, v: seq<real>, k: nat)
    requires |u| == |v| && k <= |x| && k <= |u|
    ensures DotTo(x, Minus(u, v), k) == DotTo(x, u, k) - DotTo(x, v, k)
  {
    if k > 0 {
      DotMinus(x, u, v, k - 1);
      assert x[k - 1] * Minus(u, v)[k - 1] == x[k - 1] * u[k - 1] - x[k - 1] * v[k - 1];
    }
  }

  lemma {:induction false} DotScaled(x: seq<real>, u: seq<real>, c: real, k: nat)
    requires k <= |x| && k <= |u|
    ensures DotTo(x, Scaled(u, c), k) == c * DotTo(x, u, k)
  {
    if k > 0 {
      DotScaled(x, u, c, k - 1);
      assert x[k - 1] * Scaled(u, c)[k - 1] == c * (x[k - 1] * u[k - 1]);
    }
  }

  lemma {:induction false} DotConstant(x: seq<real>, n: nat, c: real, k: nat)
    requires k <= |x| && k <= n
    ensures DotTo(x, Constant(n, c), k) == c * SumTo(x, k)
  {
    if k > 0 {
      DotConstant(x, n, c, k - 1);
    }
  }

  lemma {:induction false} DotSymmetric(u: seq<real>, v: seq<real>, k: nat)
    requires k <= |u| && k <= |v|
    ensures DotTo(u, v, k) == DotTo(v, u, k)
  {
    if k > 0 {
      DotSymmetric(u, v, k - 1);
    }
  }

  /** `sum((u - v)^2) = sum(u^2) - 2 sum(u v) + sum(v^2)` */
  lemma {:induction false} DotSquare(u: seq<real>, v: seq<real>, k: nat)
    requires |u| == |v| && k <= |u|
    ensures DotTo(Minus(u, v), Minus(u, v), k) == DotTo(u, u, k) - 2.0 * DotTo(u, v, k) + DotTo(v, v, k)
  {
    if k > 0 {
      DotSquare(u, v, k - 1);
      SquareOfDifference(u[k - 1], v[k - 1], Minus(u, v)[k - 1]);
    }
  }

  // ---------------------------------------------------------------------------
  // Signs of sums of squares

  lemma NonnegativeSquare(x: real)
    ensures x * x >= 0.0
  {
    if x < 0.0 {
      var y := -x;
      assert x * x == y * y;
    }
  }

  lemma PositivePair(x: real, y: real) returns (q: real)
    requires x > 0.0 && y > 0.0
    ensures q == x * y && q > 0.0
  {
    q := x * y;
  }

  lemma NegativePair(x: real, y: real) returns (q: real)
    requires x < 0.0 && y < 0.0
    ensures q == x * y && q > 0.0
  {
    q := x * y;
  }

  /** The square of a non-zero number, named, and positive. */
  lemma PositiveSquare(x: real) returns (q: real)
    requires x != 0.0
    ensures q == x * x && q > 0.0
  {
    if x > 0.0 {
      q := PositivePair(x, x);
    } else {
      q := NegativePair(x, x);
    }
  }

  lemma {:induction false} DotSelfNonnegative(u: seq<real>, k: nat)
    requires k <= |u|
    ensures DotTo(u, u, k) >= 0.0
  {
    if k > 0 {
      DotSelfNonnegative(u, k - 1);
      NonnegativeSquare(u[k - 1]);
    }
  }

  lemma {:induction false} DeviationNonnegative(s: seq<real>, x: real, k: nat)
    requires k <= |s|
    ensures DeviationTo(s, x, k) >= 0.0
  {
    if k > 0 {
      DeviationNonnegative(s, x, k - 1);
      NonnegativeSquare(s[k - 1] - x);
    }
  }

  /** One sample away from `x` makes the squared distances positive. */
  lemma {:induction false} DeviationPositive(s: seq<real>, x: real, k: nat, i: nat)
    requires i < k <= |s| && s[i] != x
    ensures DeviationTo(s, x, k) > 0.0
  {
    DeviationNonnegative(s, x, k - 1);
    if i == k - 1 {
      var q := PositiveSquare(s[k - 1] - x);
      assert DeviationTo(s, x, k) == DeviationTo(s, x, k - 1) + q;
    } else {
      DeviationPositive(s, x, k - 1, i);
      NonnegativeSquare(s[k - 1] - x);
    }
  }

  /** Squared distances expand into the plain sums. */
  lemma {:induction false} DeviationExpands(s: seq<real>, x: real, k: nat)
    requires k <= |s|
    ensures DeviationTo(s, x, k) == DotTo(s, s, k) - 2.0 * x * SumTo(s, k) + (k as real) * (x * x)
  {
    if k > 0 {
      DeviationExpands(s, x, k - 1);
      DeviationStep(DeviationTo(s, x, k - 1), DotTo(s, s, k - 1), SumTo(s, k - 1), (k - 1) as real, s[k - 1], x,
                    DeviationTo(s, x, k), DotTo(s, s, k), SumTo(s, k), k as real);
    }
  }

  lemma DeviationStep(dev: real, q: real, sm: real, n: real, y: real, x: real,
                      dev': real, q': real, sm': real, n': real)
    requires dev == q - 2.0 * x * sm + n * (x * x)
    requires dev' == dev + (y - x) * (y - x) && q' == q + y * y && sm' == sm + y && n' == n + 1.0
    ensures dev' == q' - 2.0 * x * sm' + n' * (x * x)
  {
    SquareOfDifference(y, x, y - x);
  }

  /** `k * sum(s^2) - sum(s)^2` over the first `k` samples. */
  function DeterminantTo(s: seq<real>, k: nat): real
    requires k <= |s|
  {
    (k as real) * DotTo(s, s, k) - SumTo(s, k) * SumTo(s, k)
  }

  /** A new sample adds its squared distances to the earlier ones. */
  lemma DeterminantStep(s: seq<real>, k: nat)
    requires 0 < k <= |s|
    ensures DeterminantTo(s, k) == DeterminantTo(s, k - 1) + DeviationTo(s, s[k - 1], k - 1)
  {
    DeviationExpands(s, s[k - 1], k - 1);
    DeterminantAlgebra((k - 1) as real, DotTo(s, s, k - 1), SumTo(s, k - 1), s[k - 1], DeviationTo(s, s[k - 1], k - 1),
                       k as real, DotTo(s, s, k), SumTo(s, k));
  }

  lemma DeterminantAlgebra(n: real, q: real, sm: real, x: real, dev: real, n': real, q': real, sm': real)
    requires dev == q - 2.0 * x * sm + n * (x * x)
    requires n' == n + 1.0 && q' == q + x * x && sm' == sm + x
    ensures n' * q' - sm' * sm' == (n * q - sm * sm) + dev
  {
  }

  lemma {:induction false} DeterminantNonnegative(s: seq<real>, k: nat)
    requires k <= |s|
    ensures DeterminantTo(s, k) >= 0.0
  {
    if k > 0 {
      DeterminantNonnegative(s, k - 1);
      DeterminantStep(s, k);
      DeviationNonnegative(s, s[k - 1], k - 1);
    }
  }

  /** Two different samples among the first `k` make the determinant positive. */
  lemma {:induction false} DeterminantPositive(s: seq<real>, k: nat, i: nat, j: nat)
    requires i < j < k <= |s| && s[i] != s[j]
    ensures DeterminantTo(s, k) > 0.0
  {
    DeterminantStep(s, k);
    if j == k - 1 {
      DeterminantNonnegative(s, k - 1);
      DeviationPositive(s, s[k - 1], k - 1, i);
    } else {
      DeterminantPositive(s, k - 1, i, j);
      DeviationNonnegative(s, s[k - 1], k - 1);
    }
  }

  /** Equal samples make the determinant vanish. */
  lemma {:induction false} DeterminantZero(s: seq<real>, k: nat)
    requires 0 < k <= |s|
    requires forall i :: 0 <= i < k ==> s[i] == s[0]
    ensures DeterminantTo(s, k) == 0.0
  {
    DeterminantStep(s, k);
    if k > 1 {
      DeterminantZero(s, k - 1);
      DeviationZero(s, s[k - 1], k - 1);
    }
  }

  lemma {:induction false} DeviationZero(s: seq<real>, x: real, k: nat)
    requires k <= |s|
    requires forall i :: 0 <= i < k ==> s[i] == x
    ensures DeviationTo(s, x, k) == 0.0
  {
    if k > 0 {
      DeviationZero(s, x, k - 1);
      ZeroProduct(s[k - 1] - x, s[k - 1] - x);
    }
  }

  /** The normal equations are singular exactly when every abscissa is the same. */
  lemma DenominatorZeroIff(xs: seq<real>)
    requires |xs| > 0
    ensures Denominator(xs) >= 0.0
    ensures Denominator(xs) == 0.0 <==> AllEqual(xs)
  {
    DeterminantNonnegative(xs, |xs|);
    if AllEqual(xs) {
      DeterminantZero(xs, |xs|);
    } else {
      DenominatorPositive(xs);
    }
  }

  lemma DenominatorPositive(xs: seq<real>)
    requires |xs| > 0 && !AllEqual(xs)
    ensures Denominator(xs) > 0.0
  {
    var j :| 0 <= j < |xs| && xs[j] != xs[0];
    DeterminantPositive(xs, |xs|, 0, j);
  }
}
