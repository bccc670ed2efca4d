/** The objective `prob` of autocase3d/fmin_autograd.py, which moves all six
    feature channels at once through a 6-by-6 block operator, and the
    gradient-based driver `fit_xfm_autograd`. */
module FminAutograd {
  import opened RealFunctions
  import opened Matrices
  import Density
  import Autocase

  /** `np.eye(6)[:3]`: the first three rows of the 6-by-6 identity. */
  function I63(): (m: Matrix)
    ensures IsMatrix(m, 3, 6)
  {
    Identity(6)[..3]
  }

  /** `np.diag([0, 0, 0, 1, 1, 1])`. */
  function D6(): (m: Matrix)
    ensures IsMatrix(m, 6, 6)
  {
    DiagOf([0.0, 0.0, 0.0, 1.0, 1.0, 1.0])
  }

  /** `big_rmat = np.dot(i63.T, np.dot(rmat, i63)) + d6`. */
  function BigRmat(rmat: Matrix): (r: Matrix)
    requires IsMatrix(rmat, 3, 3)
    ensures IsMatrix(r, 6, 6)
  {
    MatAdd(MatMul(Transpose(I63(), 6), MatMul(rmat, I63(), 6), 6), D6())
  }

  /** `big_trans = np.dot(i63.T, trans)`. */
  function BigTrans(trans: seq<real>): (t: seq<real>)
    requires |trans| == 3
    ensures |t| == 6
  {
    MatVec(Transpose(I63(), 6), trans)
  }

  /** `xfm_feats = np.dot(new_feats, big_rmat) + big_trans` for the rotation
      `rot3(*params[:3])` and the translation `params[3:]`. */
  function XfmFeats(e: Elementary, params: seq<real>, X: Matrix): (r: Matrix)
    requires |params| == 6 && IsMatrix(X, |X|, 6)
    ensures IsMatrix(r, |X|, 6)
  {
    AddRow(MatMul(X, BigRmat(Autocase.Rot3(e, params[0], params[1], params[2])), 6), BigTrans(params[3..]))
  }

  /** `prob(params, new_feats, the_gmm)`: minus the mean over the rows of
      `log(np.dot(np.exp(log_prob).T, weights))`, where `log_prob` is the
      'full' evaluation of the transformed features. */
  function Prob(e: Elementary, params: seq<real>, X: Matrix, g: Density.Mixture): real
    requires |params| == 6 && IsMatrix(X, |X|, 6) && |X| > 0 && Density.WellFormed(g, 6)
  {
    -Mean(Density.LogDensity(e, g, XfmFeats(e, params, X), 6))
  }

  // ---------------------------------------------------------------------
  // The block operator

  /** `rmat · i63` is `rmat` followed by three zero columns. */
  lemma RmatI63(rmat: Matrix, i: nat, j: nat)
    requires IsMatrix(rmat, 3, 3) && i < 3 && j < 6
    ensures MatMul(rmat, I63(), 6)[i][j] == if j < 3 then rmat[i][j] else 0.0
  {
    var col := Column(I63(), j);
    assert forall k :: 0 <= k < 3 ==> col[k] == if k == j then 1.0 else 0.0;
    if j < 3 {
      DotSelect(rmat[i], col, j);
    } else {
      DotZero(rmat[i], col);
    }
  }

  /** `big_rmat` holds `rmat` in its top-left block, the identity in its
      bottom-right block and zeros elsewhere. */
  lemma BigRmatBlocks(rmat: Matrix, i: nat, j: nat)
    requires IsMatrix(rmat, 3, 3) && i < 6 && j < 6
    ensures BigRmat(rmat)[i][j]
         == if i < 3 && j < 3 then rmat[i][j] else if i >= 3 && i == j then 1.0 else 0.0
  {
    var t := Transpose(I63(), 6);
    var ri := MatMul(rmat, I63(), 6);
    var col := Column(ri, j);
    assert forall k :: 0 <= k < 3 ==> col[k] == ri[k][j];
    assert forall k :: 0 <= k < 3 ==> t[i][k] == I63()[k][i];
    if i < 3 {
      assert forall k :: 0 <= k < 3 ==> t[i][k] == if k == i then 1.0 else 0.0;
      DotCommutes(t[i], col);
      DotSelect(col, t[i], i);
      RmatI63(rmat, i, j);
    } else {
      assert forall k :: 0 <= k < 3 ==> t[i][k] == 0.0;
      DotZeroLeft(t[i], col);
    }
  }

  /** `big_trans` is `trans` followed by three zeros. */
  lemma BigTransPadded(trans: seq<real>)
    requires |trans| == 3
    ensures BigTrans(trans) == trans + [0.0, 0.0, 0.0]
  {
    var t := Transpose(I63(), 6);
    var b := BigTrans(trans);
    forall i | 0 <= i < 6 ensures b[i] == (trans + [0.0, 0.0, 0.0])[i] {
      assert forall k :: 0 <= k < 3 ==> t[i][k] == I63()[k][i];
      if i < 3 {
        assert forall k :: 0 <= k < 3 ==> t[i][k] == if k == i then 1.0 else 0.0;
        DotCommutes(t[i], trans);
        DotSelect(trans, t[i], i);
      } else {
        assert forall k :: 0 <= k < 3 ==> t[i][k] == 0.0;
        DotZeroLeft(t[i], trans);
      }
    }
  }

  // ---------------------------------------------------------------------
  // The transformed features

  /** A row times `big_rmat`: the spatial part is rotated, the rest copied. */
  lemma RowTimesBigRmat(x: seq<real>, rmat: Matrix, j: nat)
    requires |x| == 6 && IsMatrix(rmat, 3, 3) && j < 6
    ensures Dot(x, Column(BigRmat(rmat), j)) == if j < 3 then Dot(x[..3], Column(rmat, j)) else x[j]
  {
    var col := Column(BigRmat(rmat), j);
    forall k | 0 <= k < 6
      ensures col[k] == if k < 3 && j < 3 then rmat[k][j] else if k >= 3 && k == j then 1.0 else 0.0
    {
      BigRmatBlocks(rmat, k, j);
    }
    if j < 3 {
      DotPrefix(x, col, 3);
      assert col[..3] == Column(rmat, j);
    } else {
      DotSelect(x, col, j);
    }
  }

  /** Columns 0 to 2 of `xfm_feats` are `rot_trans` of the spatial columns and
      columns 3 to 5 are the input's own. */
  lemma XfmFeatsColumns(e: Elementary, params: seq<real>, X: Matrix, i: nat, j: nat)
    requires |params| == 6 && IsMatrix(X, |X|, 6) && i < |X| && j < 6
    ensures XfmFeats(e, params, X)[i][j]
         == if j < 3 then Autocase.RotTrans(e, TakeCols(X, 0, 3), params[..3], params[3..])[i][j]
            else X[i][j]
  {
    var rmat := Autocase.Rot3(e, params[0], params[1], params[2]);
    RowTimesBigRmat(X[i], rmat, j);
    BigTransPadded(params[3..]);
    assert params[..3] == [params[0], params[1], params[2]];
    assert TakeCols(X, 0, 3)[i] == X[i][..3];
  }

  /** `xfm_feats` are exactly the features `score` builds, and which
      `fit_xfm_autograd` scores after optimising. */
  lemma XfmFeatsAreScoredFeatures(e: Elementary, params: seq<real>, X: Matrix)
    requires |params| == 6 && IsMatrix(X, |X|, 6)
    ensures XfmFeats(e, params, X) == Autocase.ScoredFeatures(e, params, X, 6)
  {
    var a, b := XfmFeats(e, params, X), Autocase.ScoredFeatures(e, params, X, 6);
    forall i, j | 0 <= i < |X| && 0 <= j < 6 ensures a[i][j] == b[i][j] {
      XfmFeatsColumns(e, params, X, i, j);
      Autocase.ScoredFeaturesColumns(e, params, X, 6, i, j);
      assert TakeCols(X, 0, 3)[i] == X[i][..3];
    }
    MatrixExt(a, b, |X|, 6);
  }

  /** The two objectives agree: `prob` is `score` on six channels. */
  lemma ProbIsScore(e: Elementary, params: seq<real>, X: Matrix, g: Density.Mixture)
    requires |params| == 6 && IsMatrix(X, |X|, 6) && |X| > 0 && Density.WellFormed(g, 6)
    ensures Prob(e, params, X, g) == Autocase.Score(e, params, X, 6, g)
  {
    XfmFeatsAreScoredFeatures(e, params, X);
  }

  /** At the BFGS seed `np.zeros(6)` the transformed features are the input,
      so the objective there is the initial score. */
  lemma ProbAtSeed(e: Elementary, X: Matrix, g: Density.Mixture)
    requires Lawful(e) && IsMatrix(X, |X|, 6) && |X| > 0 && Density.WellFormed(g, 6)
    ensures XfmFeats(e, [0.0, 0.0, 0.0, 0.0, 0.0, 0.0], X) == X
    ensures Prob(e, [0.0, 0.0, 0.0, 0.0, 0.0, 0.0], X, g) == -Density.GmmScore(e, g, X, 6)
  {
    XfmFeatsAreScoredFeatures(e, [0.0, 0.0, 0.0, 0.0, 0.0, 0.0], X);
    Autocase.ScoredFeaturesAtZero(e, X, 6);
  }

  // ---------------------------------------------------------------------
  // The gradient-based driver

  /** `fit_xfm_autograd`: as `fit_xfm_fmin`, but the optimiser starts from
      `np.zeros(6)` and minimises `prob`, which `ProbIsScore` shows is the
      same objective. */
  method FitXfmAutograd(e: Elementary, newFeatures: array2<real>, newPolys: Autocase.Polys, g: Density.Mixture,
                        means: seq<real>, stds: seq<real>, minimise: (Matrix, seq<real>) -> seq<real>)
    returns (unsqNewXyz: array2<real>, polys: Autocase.Polys, optParams: seq<real>, report: Autocase.Report)
    requires newFeatures.Length0 > 0 && newFeatures.Length1 == 6
    requires Autocase.NormStats(means, stds, 6) && Density.WellFormed(g, 6)
    requires forall m, s :: |minimise(m, s)| == |s|
    ensures var sq := Autocase.Squashed(e, ArrayRows(newFeatures), 6, means, stds, Autocase.DefaultTanh);
            && report.initScore == -Density.GmmScore(e, g, sq, 6)
            && (report.misaligned <==> report.initScore > Autocase.MisalignmentThreshold)
            && optParams == minimise(sq, [0.0, 0.0, 0.0, 0.0, 0.0, 0.0])
            && report.finalScore == Autocase.Score(e, optParams, sq, 6, g) == Prob(e, optParams, sq, g)
            && polys == newPolys
            && fresh(unsqNewXyz)
            && ArrayRows(unsqNewXyz)
               == Autocase.Unsquashed(Autocase.RotTrans(e, TakeCols(sq, 0, 3), optParams[..3], optParams[3..]),
                                      3, means, stds)
  {
    ghost var sq := Autocase.Squashed(e, ArrayRows(newFeatures), 6, means, stds, Autocase.DefaultTanh);
    unsqNewXyz, polys, optParams, report :=
      Autocase.FitXfmFmin(e, newFeatures, newPolys, g, means, stds, minimise);
    ProbIsScore(e, optParams, sq, g);
  }

  /** The spatial columns of `xfm_feats` are `rot_trans` of the input's. */
  lemma XfmSpatialColumns(e: Elementary, params: seq<real>, X: Matrix)
    requires |params| == 6 && IsMatrix(X, |X|, 6)
    ensures TakeCols(XfmFeats(e, params, X), 0, 3) == Autocase.RotTrans(e, TakeCols(X, 0, 3), params[..3], params[3..])
  {
    var a := TakeCols(XfmFeats(e, params, X), 0, 3);
    var b := Autocase.RotTrans(e, TakeCols(X, 0, 3), params[..3], params[3..]);
    forall i, j | 0 <= i < |X| && 0 <= j < 3 ensures a[i][j] == b[i][j] {
      XfmFeatsColumns(e, params, X, i, j);
    }
    MatrixExt(a, b, |X|, 3);
  }
}
