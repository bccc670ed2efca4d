/** Log densities of a Gaussian mixture parameterised by the Cholesky factors
    of its precision matrices (`_estimate_log_gaussian_prob` and
    `_compute_log_det_cholesky` in autocase3d/fmin_autograd.py), and the
    per-sample mixture log density from which both the objective `prob` and
    the mixture's own `score` are built. */
module Density {
  import opened RealFunctions
  import opened Matrices

  /** The Python exceptions the evaluator can raise. */
  datatype PyError =
    | ValueError         // a shape NumPy refuses (unpacking, reshaping, `np.diag`, an axis)
    | UnboundLocalError  // `return log_prob` when no branch bound `log_prob`

  datatype Result<T> = Ok(value: T) | Err(error: PyError)

  /** A NumPy array of rank zero to three. */
  datatype NdArray =
    | Scalar(x: real)
    | Vec(v: seq<real>)
    | Mat(m: Matrix)
    | Cube(c: seq<Matrix>)

  /** Every matrix of `c` has shape `rows`-by-`cols`. */
  predicate IsCube(c: seq<Matrix>, rows: nat, cols: nat) {
    forall k :: 0 <= k < |c| ==> IsMatrix(c[k], rows, cols)
  }

  /** NumPy arrays are rectangular. */
  predicate Rectangular(a: NdArray) {
    match a
    case Scalar(_) => true
    case Vec(_) => true
    case Mat(m) => IsMatrix(m, |m|, Width(m))
    case Cube(c) => |c| > 0 ==> IsCube(c, |c[0]|, Width(c[0]))
  }

  /** `np.sum(np.log(s))`. */
  function SumLog(e: Elementary, s: seq<real>): real {
    if |s| == 0 then 0.0 else e.log(s[0]) + SumLog(e, s[1..])
  }

  function ScaleLog(e: Elementary, a: real, s: seq<real>): (r: seq<real>)
    ensures |r| == |s|
  {
    seq(|s|, j requires 0 <= j < |s| => a * e.log(s[j]))
  }

  /** Branch 'full': each flattened factor, sliced with stride `nFeatures + 1`. */
  function FullLogDet(e: Elementary, c: seq<Matrix>, nFeatures: nat): (r: seq<real>)
    ensures |r| == |c|
  {
    seq(|c|, k requires 0 <= k < |c| => SumLog(e, StrideSlice(Flatten(c[k]), nFeatures + 1)))
  }

  /** `_compute_log_det_cholesky(matrix_chol, covariance_type, n_features)`:
      any covariance type other than 'full', 'tied' and 'diag' takes the
      'spherical' branch. */
  function ComputeLogDetCholesky(e: Elementary, matrixChol: NdArray, covarianceType: string, nFeatures: nat): (r: Result<NdArray>)
    requires Rectangular(matrixChol)
    ensures covarianceType == "full" ==>
              (r.Ok? <==> matrixChol.Cube? && |matrixChol.c| > 0)
              && (r.Ok? ==> r.value.Vec? && |r.value.v| == |matrixChol.c|)
  {
    if covarianceType == "full" then
      // `n_components, _, _ = matrix_chol.shape`, then `reshape(n_components, -1)`,
      // which NumPy refuses for an empty array
      match matrixChol
      case Cube(c) => if |c| > 0 then Ok(Vec(FullLogDet(e, c, nFeatures))) else Err(ValueError)
      case _ => Err(ValueError)
    else if covarianceType == "tied" then
      match matrixChol
      case Mat(m) => Ok(Scalar(SumLog(e, Diagonal(m, Width(m)))))
      // `np.diag` of a vector is the square matrix with that diagonal; every
      // entry, the off-diagonal zeros included, goes through `np.log`
      case Vec(v) => Ok(Scalar(SumLog(e, Flatten(DiagOf(v)))))
      case _ => Err(ValueError)
    else if covarianceType == "diag" then
      match matrixChol
      case Mat(m) => Ok(Vec(seq(|m|, k requires 0 <= k < |m| => SumLog(e, m[k]))))
      case Cube(c) =>
        if |c| == 0 then Ok(Mat([])) else
        var cols := Width(c[0]);
        Ok(Mat(seq(|c|, k requires 0 <= k < |c| =>
                 seq(cols, j requires 0 <= j < cols => SumLog(e, Column(c[k], j))))))
      case _ => Err(ValueError)  // there is no axis 1
    else
      var n := nFeatures as real;
      match matrixChol
      case Scalar(x) => Ok(Scalar(n * e.log(x)))
      case Vec(v) => Ok(Vec(ScaleLog(e, n, v)))
      case Mat(m) => Ok(Mat(seq(|m|, i requires 0 <= i < |m| => ScaleLog(e, n, m[i]))))
      case Cube(c) => Ok(Cube(seq(|c|, k requires 0 <= k < |c| =>
                                seq(|c[k]|, i requires 0 <= i < |c[k]| => ScaleLog(e, n, c[k][i])))))
  }

  /** The shape conditions under which the 'full' branch of
      `_estimate_log_gaussian_prob` is defined: `X` has `nFeatures` columns,
      and every factor has `nFeatures` rows, like every mean. */
  predicate FullShapes(X: Matrix, nFeatures: nat, means: Matrix, c: seq<Matrix>) {
    && IsMatrix(X, |X|, nFeatures)
    && IsMatrix(means, |means|, nFeatures)
    && (|c| > 0 ==> IsCube(c, nFeatures, Width(c[0])))
  }

  /** Log density of every row of `X` under one component. */
  function ComponentLogProb(e: Elementary, X: Matrix, nFeatures: nat, mu: seq<real>, precChol: Matrix, logDet: real): (r: seq<real>)
    requires IsMatrix(X, |X|, nFeatures) && |mu| == nFeatures
    requires IsMatrix(precChol, nFeatures, Width(precChol))
    ensures |r| == |X|
  {
    var p := Width(precChol);
    var y := SubRow(MatMul(X, precChol, p), VecMat(mu, precChol, p));
    seq(|X|, i requires 0 <= i < |X| =>
      -0.5 * (nFeatures as real * e.log(2.0 * e.pi) + SumSquares(y[i])) + logDet)
  }

  /** The 'full' branch: one entry per pair of `zip(means, precisions_chol)`. */
  function FullLogProb(e: Elementary, X: Matrix, nFeatures: nat, means: Matrix, c: seq<Matrix>): (r: Matrix)
    requires FullShapes(X, nFeatures, means, c)
    ensures IsMatrix(r, if |means| < |c| then |means| else |c|, |X|)
  {
    var logDet := FullLogDet(e, c, nFeatures);
    var K := if |means| < |c| then |means| else |c|;
    seq(K, k requires 0 <= k < K => ComponentLogProb(e, X, nFeatures, means[k], c[k], logDet[k]))
  }

  /** Whether the two `np.dot` calls of the first pass of the 'full' loop
      accept their operands: that pass happens only when `means` has a row,
      and then `X` needs as many columns, and the mean as many entries, as
      the factors have rows. */
  predicate FullDotsAgree(nFeatures: nat, means: Matrix, c: seq<Matrix>) {
    |means| == 0 || (|c| > 0 && |c[0]| == nFeatures && Width(means) == nFeatures)
  }

  /** `_estimate_log_gaussian_prob(X, means, precisions_chol, covariance_type)`
      for a 2-D `X` with `nFeatures` columns and a 2-D `means`: the
      log-determinant is computed first, so its errors come first; every
      covariance type but 'full' then fails at `return log_prob`; in the
      'full' loop, factors whose shape does not fit make `np.dot` raise. */
  function LogGaussianProb(e: Elementary, X: Matrix, nFeatures: nat, means: Matrix, precisionsChol: NdArray, covarianceType: string): (r: Result<Matrix>)
    requires Rectangular(precisionsChol) && IsMatrix(X, |X|, nFeatures) && IsMatrix(means, |means|, Width(means))
    ensures r.Ok? <==> && covarianceType == "full" && precisionsChol.Cube? && |precisionsChol.c| > 0
                       && FullDotsAgree(nFeatures, means, precisionsChol.c)
    ensures covarianceType != "full" ==>
              r == Err(if ComputeLogDetCholesky(e, precisionsChol, covarianceType, nFeatures).Err?
                       then ComputeLogDetCholesky(e, precisionsChol, covarianceType, nFeatures).error
                       else UnboundLocalError)
    ensures (covarianceType == "full" && precisionsChol.Cube? && |precisionsChol.c| > 0
             && !FullDotsAgree(nFeatures, means, precisionsChol.c)) ==> r == Err(ValueError)
    ensures r.Ok? ==> |r.value| == (if |means| < |precisionsChol.c| then |means| else |precisionsChol.c|)
  {
    match ComputeLogDetCholesky(e, precisionsChol, covarianceType, nFeatures)
    case Err(err) => Err(err)
    case Ok(_) =>
      if covarianceType != "full" then Err(UnboundLocalError)
      else if |means| == 0 then Ok([])  // `zip` yields nothing
      else if !FullDotsAgree(nFeatures, means, precisionsChol.c) then Err(ValueError)
      else Ok(FullLogProb(e, X, nFeatures, means, precisionsChol.c))
  }

  /** `_estimate_log_gaussian_prob`, building the result one component at a
      time as the source does. */
  method EstimateLogGaussianProb(e: Elementary, X: Matrix, nFeatures: nat, means: Matrix, precisionsChol: NdArray, covarianceType: string)
    returns (r: Result<Matrix>)
    requires Rectangular(precisionsChol) && IsMatrix(X, |X|, nFeatures) && IsMatrix(means, |means|, Width(means))
    ensures r == LogGaussianProb(e, X, nFeatures, means, precisionsChol, covarianceType)
  {
    var logDet := ComputeLogDetCholesky(e, precisionsChol, covarianceType, nFeatures);
    if logDet.Err? {
      return Err(logDet.error);
    }
    if covarianceType != "full" {
      return Err(UnboundLocalError);
    }
    if |means| == 0 {
      return Ok([]);
    }
    var c := precisionsChol.c;
    if |c[0]| != nFeatures || Width(means) != nFeatures {
      // `np.dot(X, prec_chol)` or `np.dot(mu, prec_chol)` in the first pass
      return Err(ValueError);
    }
    var logProb := FullLoop(e, X, nFeatures, means, precisionsChol.c, logDet.value.v);
    return Ok(logProb);
  }

  /** The loop of the 'full' branch over `zip(means, precisions_chol)`,
      appending one row of log densities per component. */
  method FullLoop(e: Elementary, X: Matrix, nFeatures: nat, means: Matrix, c: seq<Matrix>, logDet: seq<real>)
    returns (logProb: Matrix)
    requires FullShapes(X, nFeatures, means, c) && |c| > 0
    requires logDet == FullLogDet(e, c, nFeatures)
    ensures logProb == FullLogProb(e, X, nFeatures, means, c)
  {
    var p := Width(c[0]);
    var K := if |means| < |c| then |means| else |c|;
    ghost var full := FullLogProb(e, X, nFeatures, means, c);
    logProb := [];
    var k := 0;
    while k < K
      invariant 0 <= k <= K
      invariant logProb == full[..k]
    {
      assert Width(c[k]) == p by {
        if nFeatures > 0 { assert |c[k][0]| == p; } else { assert c[k] == [] && c[0] == []; }
      }
      var y := SubRow(MatMul(X, c[k], p), VecMat(means[k], c[k], p));
      var row := seq(|X|, i requires 0 <= i < |X| =>
        -0.5 * (nFeatures as real * e.log(2.0 * e.pi) + SumSquares(y[i])) + logDet[k]);
      ComponentRow(e, X, nFeatures, means[k], c[k], logDet[k], y, row);
      assert full[..k + 1] == full[..k] + [full[k]];
      logProb := logProb + [row];
      k := k + 1;
    }
    assert full[..K] == full;
  }

  /** Bridges the loop body of `FullLoop` to the function it is proved
      against: the row appended by iteration `k` is `ComponentLogProb`. */
  lemma ComponentRow(e: Elementary, X: Matrix, nFeatures: nat, mu: seq<real>, precChol: Matrix, logDet: real,
                     y: Matrix, row: seq<real>)
    requires IsMatrix(X, |X|, nFeatures) && |mu| == nFeatures
    requires IsMatrix(precChol, nFeatures, Width(precChol))
    requires y == SubRow(MatMul(X, precChol, Width(precChol)), VecMat(mu, precChol, Width(precChol)))
    requires row == seq(|X|, i requires 0 <= i < |X| =>
                          -0.5 * (nFeatures as real * e.log(2.0 * e.pi) + SumSquares(y[i])) + logDet)
    ensures row == ComponentLogProb(e, X, nFeatures, mu, precChol, logDet)
  {
    var expected := ComponentLogProb(e, X, nFeatures, mu, precChol, logDet);
    forall i | 0 <= i < |X| ensures row[i] == expected[i] {
    }
  }

  // ---------------------------------------------------------------------
  // The mixture

  /** A fitted mixture: `weights_`, `means_` and `precisions_cholesky_`. */
  datatype Mixture = Mixture(weights: seq<real>, means: Matrix, precisionsChol: seq<Matrix>)

  /** `K > 0` components over `d` features, each with a `d`-by-`d` factor. */
  predicate WellFormed(g: Mixture, d: nat) {
    && |g.weights| > 0
    && |g.means| == |g.weights|
    && |g.precisionsChol| == |g.weights|
    && IsMatrix(g.means, |g.means|, d)
    && IsCube(g.precisionsChol, d, d)
  }

  /** `np.exp` of every entry. */
  function Exps(e: Elementary, m: Matrix): (r: Matrix)
    ensures |r| == |m| && forall k :: 0 <= k < |m| ==> |r[k]| == |m[k]|
  {
    seq(|m|, k requires 0 <= k < |m| => seq(|m[k]|, i requires 0 <= i < |m[k]| => e.exp(m[k][i])))
  }

  /** The 'full' log densities of the rows of `X` under every component of `g`. */
  function ComponentLogProbs(e: Elementary, g: Mixture, X: Matrix, d: nat): (r: Matrix)
    requires WellFormed(g, d) && IsMatrix(X, |X|, d)
    ensures IsMatrix(r, |g.weights|, |X|)
  {
    FullLogProb(e, X, d, g.means, g.precisionsChol)
  }

  /** Per sample, `log(np.dot(np.exp(log_prob).T, weights))`: the logarithm
      of the weighted sum of the component densities. */
  function LogDensity(e: Elementary, g: Mixture, X: Matrix, d: nat): (r: seq<real>)
    requires WellFormed(g, d) && IsMatrix(X, |X|, d)
    ensures |r| == |X|
  {
    var p := Exps(e, ComponentLogProbs(e, g, X, d));
    seq(|X|, i requires 0 <= i < |X| => e.log(Dot(Column(p, i), g.weights)))
  }

  /** The mixture's `score(X)`: the mean per-sample log density. */
  function GmmScore(e: Elementary, g: Mixture, X: Matrix, d: nat): real
    requires WellFormed(g, d) && IsMatrix(X, |X|, d) && |X| > 0
  {
    Mean(LogDensity(e, g, X, d))
  }

  // ---------------------------------------------------------------------
  // Lemmas

  /** log(1) = 0, from the laws of exp and log. */
  lemma LogOne(e: Elementary)
    requires Lawful(e)
    ensures e.log(1.0) == 0.0
  {
    assert e.log(e.exp(0.0)) == 0.0;
  }

  /** For a square factor the stride slice is the diagonal, so the 'full'
      log-determinant of component `k` is the sum of the logs of the diagonal
      entries of its factor. */
  lemma FullLogDetIsDiagonal(e: Elementary, c: seq<Matrix>, n: nat, k: nat)
    requires IsCube(c, n, n) && k < |c|
    ensures FullLogDet(e, c, n)[k] == SumLog(e, Diagonal(c[k], n))
  {
    DiagonalByStride(c[k], n);
  }

  /** `n` copies of `x` have log-sum `n * log(x)`. */
  lemma {:induction false} SumLogConstant(e: Elementary, n: nat, x: real)
    ensures SumLog(e, seq(n, j => x)) == n as real * e.log(x)
  {
    if n > 0 {
      assert seq(n, j => x)[1..] == seq(n - 1, j => x);
      SumLogConstant(e, n - 1, x);
    }
  }

  /** Branch 'tied' is branch 'full' on the single shared factor. */
  lemma TiedIsFullOfShared(e: Elementary, m: Matrix, n: nat)
    requires IsMatrix(m, n, n)
    ensures Rectangular(Mat(m))
    ensures ComputeLogDetCholesky(e, Mat(m), "tied", n) == Ok(Scalar(FullLogDet(e, [m], n)[0]))
  {
    assert Width(m) == n by {
      if n > 0 { assert |m[0]| == n; }
    }
    FullLogDetIsDiagonal(e, [m], n, 0);
  }

  /** Branch 'diag' is branch 'full' on the diagonal factors whose diagonals
      are the rows of `m`. */
  lemma DiagIsFullOfDiagonalFactors(e: Elementary, m: Matrix, n: nat)
    requires IsMatrix(m, |m|, n)
    ensures Rectangular(Mat(m))
    ensures ComputeLogDetCholesky(e, Mat(m), "diag", n)
         == Ok(Vec(FullLogDet(e, seq(|m|, k requires 0 <= k < |m| => DiagOf(m[k])), n)))
  {
    var c := seq(|m|, k requires 0 <= k < |m| => DiagOf(m[k]));
    var r := ComputeLogDetCholesky(e, Mat(m), "diag", n).value.v;
    forall k | 0 <= k < |m| ensures r[k] == FullLogDet(e, c, n)[k] {
      FullLogDetIsDiagonal(e, c, n, k);
      assert Diagonal(c[k], n) == m[k];
    }
    assert r == FullLogDet(e, c, n);
  }

  /** The 'full' log-determinant of `x` times the `n`-by-`n` identity is `n * log(x)`. */
  lemma ScaledIdentityLogDet(e: Elementary, x: real, n: nat)
    ensures SumLog(e, StrideSlice(Flatten(DiagOf(seq(n, j => x))), n + 1)) == n as real * e.log(x)
  {
    DiagonalByStride(DiagOf(seq(n, j => x)), n);
    assert Diagonal(DiagOf(seq(n, j => x)), n) == seq(n, j => x);
    SumLogConstant(e, n, x);
  }

  /** Branch 'spherical' is branch 'full' on the factors `v[k]` times the identity. */
  lemma SphericalIsFullOfScaledIdentities(e: Elementary, v: seq<real>, n: nat)
    ensures ComputeLogDetCholesky(e, Vec(v), "spherical", n)
         == Ok(Vec(FullLogDet(e, seq(|v|, k requires 0 <= k < |v| => DiagOf(seq(n, j => v[k]))), n)))
  {
    var c := seq(|v|, k requires 0 <= k < |v| => DiagOf(seq(n, j => v[k])));
    var r := ScaleLog(e, n as real, v);
    assert ComputeLogDetCholesky(e, Vec(v), "spherical", n) == Ok(Vec(r));
    forall k | 0 <= k < |v| ensures r[k] == FullLogDet(e, c, n)[k] {
      ScaledIdentityLogDet(e, v[k], n);
    }
    assert r == FullLogDet(e, c, n);
  }

  /** The row `y` of the source, `X·P − μ·P`, is the centred row `(x − μ)·P`. */
  lemma {:induction false} CentredProduct(x: seq<real>, mu: seq<real>, P: Matrix, p: nat)
    requires |x| == |mu| && IsMatrix(P, |x|, p)
    ensures VecSub(VecMat(x, P, p), VecMat(mu, P, p)) == VecMat(VecSub(x, mu), P, p)
  {
    forall j | 0 <= j < p
      ensures VecSub(VecMat(x, P, p), VecMat(mu, P, p))[j] == VecMat(VecSub(x, mu), P, p)[j]
    {
      DotSubLeft(x, mu, Column(P, j));
    }
  }

  /** The density formula: for square factors, entry `(k, i)` of the 'full'
      result is `-0.5 * (n log 2π + |(x_i − μ_k)·P_k|²) + Σ_j log P_k[j][j]`. */
  lemma FullLogProbEntry(e: Elementary, X: Matrix, n: nat, means: Matrix, c: seq<Matrix>, k: nat, i: nat)
    requires IsMatrix(X, |X|, n) && IsMatrix(means, |means|, n) && IsCube(c, n, n)
    requires k < |means| && k < |c| && i < |X|
    ensures FullShapes(X, n, means, c)
    ensures FullLogProb(e, X, n, means, c)[k][i]
         == -0.5 * (n as real * e.log(2.0 * e.pi) + SumSquares(VecMat(VecSub(X[i], means[k]), c[k], n)))
            + SumLog(e, Diagonal(c[k], n))
  {
    assert Width(c[k]) == n by {
      if n == 0 { assert c[k] == []; } else { assert |c[k][0]| == n; }
    }
    ComponentLogProbEntry(e, X, n, means[k], c[k], FullLogDet(e, c, n)[k], i);
    FullLogDetIsDiagonal(e, c, n, k);
  }

  /** Entry `i` of one component's row, with the centred product written out. */
  lemma ComponentLogProbEntry(e: Elementary, X: Matrix, n: nat, mu: seq<real>, P: Matrix, logDet: real, i: nat)
    requires IsMatrix(X, |X|, n) && |mu| == n && IsMatrix(P, n, n) && Width(P) == n && i < |X|
    ensures ComponentLogProb(e, X, n, mu, P, logDet)[i]
         == -0.5 * (n as real * e.log(2.0 * e.pi) + SumSquares(VecMat(VecSub(X[i], mu), P, n))) + logDet
  {
    var y := SubRow(MatMul(X, P, n), VecMat(mu, P, n));
    assert y[i] == VecSub(VecMat(X[i], P, n), VecMat(mu, P, n));
    CentredProduct(X[i], mu, P, n);
  }

  /** Closed form: one component with identity factor and zero mean gives the
      zero feature vector the log density `-0.5 * n * log(2π)`. */
  lemma StandardNormalAtOrigin(e: Elementary, n: nat)
    requires Lawful(e)
    ensures var zero := seq(n, j => 0.0);
            LogGaussianProb(e, [zero], n, [zero], Cube([Identity(n)]), "full")
              == Ok([[-0.5 * (n as real * e.log(2.0 * e.pi))]])
  {
    var zero := seq(n, j => 0.0);
    var c := [Identity(n)];
    FullLogProbEntry(e, [zero], n, [zero], c, 0, 0);
    var y := VecMat(VecSub(zero, zero), Identity(n), n);
    forall j | 0 <= j < n ensures y[j] == 0.0 {
      DotZero(Column(Identity(n), j), VecSub(zero, zero));
      assert Dot(VecSub(zero, zero), Column(Identity(n), j)) == 0.0 by {
        DotZeroLeft(VecSub(zero, zero), Column(Identity(n), j));
      }
    }
    DotZero(y, y);
    SumLogOnes(e, Diagonal(Identity(n), n));
    var r := FullLogProb(e, [zero], n, [zero], c);
    MatrixExt(r, [[-0.5 * (n as real * e.log(2.0 * e.pi))]], 1, 1);
  }

  lemma {:induction false} SumLogOnes(e: Elementary, s: seq<real>)
    requires Lawful(e)
    requires forall j :: 0 <= j < |s| ==> s[j] == 1.0
    ensures SumLog(e, s) == 0.0
  {
    if |s| > 0 {
      LogOne(e);
      SumLogOnes(e, s[1..]);
    }
  }

  /** A single component of weight one: the mixture log density of each
      sample is that component's log density. */
  lemma SingleComponentDensity(e: Elementary, g: Mixture, X: Matrix, d: nat, i: nat)
    requires Lawful(e)
    requires WellFormed(g, d) && IsMatrix(X, |X|, d) && i < |X|
    requires g.weights == [1.0]
    ensures LogDensity(e, g, X, d)[i] == ComponentLogProbs(e, g, X, d)[0][i]
  {
    var lp := ComponentLogProbs(e, g, X, d);
    var col := Column(Exps(e, lp), i);
    assert Dot(col, g.weights) == e.exp(lp[0][i]) * 1.0 + Dot(col[1..], g.weights[1..]);
  }

  /** A well-formed mixture is evaluated by the 'full' branch, whose rows are
      the component log densities `ComponentLogProbs`. */
  lemma FullBranchOfMixture(e: Elementary, g: Mixture, X: Matrix, d: nat)
    requires WellFormed(g, d) && IsMatrix(X, |X|, d)
    ensures Rectangular(Cube(g.precisionsChol)) && FullShapes(X, d, g.means, g.precisionsChol)
    ensures LogGaussianProb(e, X, d, g.means, Cube(g.precisionsChol), "full") == Ok(ComponentLogProbs(e, g, X, d))
  {
  }
}
