# Statistical rigid alignment of a head scan (autocase3d)

This project models the alignment core of autocase3d. A head scan arrives as
one feature row per vertex, `[x, y, z, c1, c2, c3]`: three spatial
coordinates followed by three curvature channels. The alignment z-scores
every channel with fixed population statistics and squashes the curvature
channels with `tanh`. It then looks for the rotation (three Euler angles) and
translation (three offsets) of the spatial channels that maximise the mean
log density of a pretrained full-covariance Gaussian mixture. Finally it
undoes the z-score on the moved coordinates. There are two drivers:

- `fit_xfm_fmin`, a derivative-free driver whose objective is `score`;
- `fit_xfm_autograd`, a gradient-based driver whose objective is `prob`.
  `prob` embeds the 3-by-3 rotation in a 6-by-6 block operator that lets the
  curvature channels through unchanged.

The mixture's density is computed from the Cholesky factors of its precision
matrices. `_compute_log_det_cholesky` gives the log-determinant, and
`_estimate_log_gaussian_prob` gives one row of log densities per component.

Modules:

- `RealFunctions` (real_functions.dfy) supplies sine, cosine, tanh, exp, log
  and π as a record of functions. The laws the proofs use are collected in
  `Lawful`: `sin 0 = 0`, `cos 0 = 1`, `sin² + cos² = 1`, `-1 < tanh x < 1`,
  `exp x > 0`, `exp 0 = 1` and `log(exp x) = x`. Nothing is assumed of π.
  A witness shows that these laws are consistent.
- `Matrices` (matrices.dfy) covers the NumPy operations used here: dot
  product, `np.dot`, broadcast row addition, column slices, `np.hstack`,
  `np.diag`, `reshape(k, -1)`, the stride slice `[::step]` and `mean`.
- `Autocase` (autocase.dfy) covers autocase3d/__init__.py:
  - `squash_features` and `unsquash_xyz` as methods over `array2<real>`;
  - `rot3`, `rot_trans` and `score`;
  - the arithmetic of `fit_xfm_fmin`.
- `Density` (density.dfy) covers `_compute_log_det_cholesky` and
  `_estimate_log_gaussian_prob`. This includes their error paths for a 2-D
  `X` and a 2-D `means`: NumPy's `ValueError` for factor arrays of the wrong
  rank and for factors whose shape does not fit `np.dot`, the empty result
  when `means` has no row, and the `UnboundLocalError` for any covariance
  type but 'full'. 'tied' on a vector takes `log` of every entry of
  `np.diag(v)`, the off-diagonal zeros included, as the code does. The
  module also holds the per-sample mixture log density
  `log Σ_k w_k exp(log_prob_k)`.
- `FminAutograd` (fmin_autograd.dfy) covers the 6-by-6 embedding, `prob`
  and `fit_xfm_autograd`.

The mixture log density is computed as the code computes it,
`log(np.dot(np.exp(log_prob).T, weights))`, and not through log-sum-exp;
over the reals the two agree. Both drivers of the repository are modelled.

## Model

| member | source | states |
|---|---|---|
| Autocase.Squashed | autocase3d/__init__.py:50-59 | The matrix `squash_features` returns: every channel z-scored with `means` and `stds`, then `tanh` applied to each listed column once per listing; it keeps the input's shape. |
| Autocase.SquashFeatures | autocase3d/__init__.py:50-59 | Returns a fresh array of the input's shape holding every channel z-scored, then `tanh` applied once per listed channel, in the list's order. The input array is unchanged. |
| Autocase.TanhColumnInPlace | autocase3d/__init__.py:55-57 | One pass of the tanh loop: column `c` becomes `tanh` of its old value and every other entry keeps its value. |
| Autocase.SquashedEntry | autocase3d/__init__.py:50-59 | Each squashed entry is its z-score `(f - mean)/std` with `tanh` applied as many times as the channel list names that column. Negative Python indices count from the end. |
| Autocase.SquashPlainChannel | autocase3d/__init__.py:52-53 | A channel that the tanh list does not name holds exactly `(f[i][j] - means[j]) / stds[j]`. |
| Autocase.SquashTanhChannel | autocase3d/__init__.py:55-57 | A channel that the tanh list names lies strictly between -1 and 1. |
| Autocase.SquashDefault | autocase3d/__init__.py:50-57 | With the default channels (3, 4, 5), columns 3 to 5 hold `tanh` of their z-score and every other column holds its z-score. |
| Autocase.Unsquashed | autocase3d/__init__.py:61-66 | The matrix `unsquash_xyz` returns: columns 0 to 2 mapped by `f * std + mean`, every other column as given; it keeps the input's shape. |
| Autocase.UnsquashXyz | autocase3d/__init__.py:61-66 | Returns a fresh array of the input's shape. Columns 0 to 2 become `f * std + mean`, every other column is copied, and the input is unchanged. |
| Autocase.UnsquashSquashSpatial | autocase3d/__init__.py:50-66 | When the tanh list names no spatial column, unsquashing a squashed entry in columns 0 to 2 gives back the original value. |
| Autocase.UnsquashSquashDefault | autocase3d/__init__.py:50-66 | With the default channels, `unsquash_xyz(squash_features(f))` equals `f` on columns 0 to 2, row for row. |
| Autocase.Rot3 | autocase3d/__init__.py:68-71 | The 3-by-3 matrix of sines and cosines of the three Euler angles that `rot3` builds. |
| Autocase.RotTrans | autocase3d/__init__.py:73-77 | `xyz · rot3(*rots) + trans`, with `trans` added to every row; an N-by-3 result for N-by-3 points. |
| Autocase.Rot3Factorization | autocase3d/__init__.py:68-71 | `rot3(ph, th, ps)` is the product `Rz(ps) · Ry(th) · Rx(ph)` of the elementary rotations. |
| Autocase.EulerOrthogonal | autocase3d/__init__.py:68-71 | The closed-form matrix of sines and cosines satisfies `R · Rᵀ = I` whenever every angle's sine and cosine satisfy `s² + c² = 1`. |
| Autocase.Rot3Orthogonal | autocase3d/__init__.py:68-71 | For every angle triple, `rot3 · rot3ᵀ` is the 3-by-3 identity. |
| Autocase.Rot3Zero | autocase3d/__init__.py:68-71 | `rot3(0, 0, 0)` is the identity. |
| Autocase.RotTransZero | autocase3d/__init__.py:73-77 | `rot_trans(xyz, (0,0,0), (0,0,0))` is `xyz`. |
| Autocase.ScoredFeatures | autocase3d/__init__.py:79-85 | The features `score` evaluates: `np.hstack` of `rot_trans` of columns 0 to 2 under `params[:3]`, `params[3:]` with the remaining columns; same shape as the input. |
| Autocase.Score | autocase3d/__init__.py:79-86 | Minus the mixture's `score` (`Density.GmmScore`) of those features. |
| Autocase.ScoredFeaturesColumns | autocase3d/__init__.py:79-85 | Each transformed row has columns 0 to 2 equal to `row[:3] · R + trans` and every further column equal to the input's. |
| Autocase.ScoredFeaturesAtZero | autocase3d/__init__.py:79-85 | At the all-zero parameters, the features `score` evaluates are its input. |
| Autocase.ScoreAtZero | autocase3d/__init__.py:79-86 | `score` at the all-zero parameters equals minus the mixture's mean log density of the untransformed features. |
| Autocase.FitXfmFmin | autocase3d/__init__.py:88-109 | The initial score is minus the mean log density of the squashed features. The warning is raised exactly when that score exceeds 6.0. The parameters are the optimiser's result from the seed, and the final score is `score` at those parameters. The face lists are returned unchanged. The positions are `unsquash_xyz` of `rot_trans` of the squashed spatial columns. |
| Matrices.DiagonalByStride | autocase3d/fmin_autograd.py:90-94 | The stride `n + 1` slice of a flattened `n`-by-`n` matrix is exactly its diagonal. |
| Density.FullLogDet | autocase3d/fmin_autograd.py:90-94 | The 'full' log-determinant: per component, the sum of `log` over the stride `n_features + 1` slice of the flattened factor; one value per factor. |
| Density.ComputeLogDetCholesky | autocase3d/fmin_autograd.py:72-105 | For 'full', the result exists exactly when the input is a non-empty rank-3 array, and it then holds one value per component. |
| Density.FullLogDetIsDiagonal | autocase3d/fmin_autograd.py:90-94 | For square factors, the 'full' log-determinant of component `k` is `Σ_j log P_k[j][j]`. |
| Density.TiedIsFullOfShared | autocase3d/fmin_autograd.py:96-97 | For a square factor, 'tied' gives the 'full' log-determinant of that one factor. |
| Density.DiagIsFullOfDiagonalFactors | autocase3d/fmin_autograd.py:99-100 | 'diag' gives, per component, the 'full' log-determinant of the diagonal factor whose diagonal is that row. |
| Density.SphericalIsFullOfScaledIdentities | autocase3d/fmin_autograd.py:102-103 | The else branch ('spherical') on a vector gives, per component, the 'full' log-determinant of `v[k]` times the identity, which is `n · log v[k]`. |
| Density.ComponentLogProb | autocase3d/fmin_autograd.py:66-67 | The row appended for one component: per sample, `-0.5 · (n_features log 2π + Σ y²) + log_det` with `y = X·P − μ·P`; one entry per sample. |
| Density.FullLogProb | autocase3d/fmin_autograd.py:62-67 | The list the 'full' loop builds: one `ComponentLogProb` row per pair of `zip(means, precisions_chol)`, as many rows as the shorter list, each as long as `X`. |
| Density.LogGaussianProb | autocase3d/fmin_autograd.py:39-70 | The evaluation succeeds exactly for 'full' on a non-empty rank-3 factor array whose factors fit `np.dot`, which they need to do only when `means` has a row. Any other covariance type fails, with the log-determinant's error when there is one and `UnboundLocalError` otherwise. 'full' factors that do not fit give `ValueError`. A success holds one row per pair of mean and factor. |
| Density.EstimateLogGaussianProb | autocase3d/fmin_autograd.py:39-70 | The method computes the log-determinant first, then returns the empty result for empty `means` or `ValueError` for factors that do not fit, and otherwise appends one row per component. Its result is `LogGaussianProb` in every case. |
| Density.FullLoop | autocase3d/fmin_autograd.py:62-67 | The loop over `zip(means, precisions_chol)` appends the rows of `FullLogProb`, one per pair, stopping at the shorter list. |
| Density.ComponentLogProbEntry | autocase3d/fmin_autograd.py:66-67 | Entry `i` of the row appended for a component with mean `μ` and square factor `P` is `-0.5 · (n log 2π + |(x_i − μ) P|²) + logdet`. |
| Density.CentredProduct | autocase3d/fmin_autograd.py:66 | `X·P − μ·P` equals `(X − μ)·P` row by row. |
| Density.FullLogProbEntry | autocase3d/fmin_autograd.py:56-67 | For square factors, entry `(k, i)` is `-0.5 · (n log 2π + |(x_i − μ_k) P_k|²) + Σ_j log P_k[j][j]`. |
| Density.StandardNormalAtOrigin | autocase3d/fmin_autograd.py:56-67 | One component with identity factor and zero mean, evaluated at the zero row, gives `-0.5 · n · log 2π`. |
| Density.LogDensity | autocase3d/fmin_autograd.py:35 | Per sample, `log(np.dot(np.exp(log_prob).T, weights))` over the 'full' component rows; one value per sample. |
| Density.GmmScore | autocase3d/__init__.py:86 | The mixture's `score`: the mean over the samples of `LogDensity`. |
| Density.SingleComponentDensity | autocase3d/fmin_autograd.py:35 | With a single component of weight one, each sample's mixture log density is that component's log density. |
| Density.FullBranchOfMixture | autocase3d/fmin_autograd.py:35 | A well-formed mixture is evaluated without error by the 'full' branch, and its rows are the component log densities. |
| FminAutograd.BigRmat | autocase3d/fmin_autograd.py:26-31 | `big_rmat = i63ᵀ · (rmat · i63) + d6`, a 6-by-6 matrix. |
| FminAutograd.BigTrans | autocase3d/fmin_autograd.py:28-32 | `big_trans = i63ᵀ · trans`, a vector of six entries. |
| FminAutograd.XfmFeats | autocase3d/fmin_autograd.py:22-33 | `xfm_feats = new_feats · big_rmat + big_trans`, with the rotation and translation read from `params`; same shape as `new_feats`. |
| FminAutograd.Prob | autocase3d/fmin_autograd.py:22-35 | Minus the mean over the samples of `LogDensity` of `xfm_feats`. |
| FminAutograd.BigRmatBlocks | autocase3d/fmin_autograd.py:28-31 | `big_rmat` holds `rmat` in its top-left 3-by-3 block, the identity in its bottom-right block and zeros elsewhere. |
| FminAutograd.BigTransPadded | autocase3d/fmin_autograd.py:28-32 | `big_trans` is `trans` followed by three zeros. |
| FminAutograd.XfmFeatsColumns | autocase3d/fmin_autograd.py:22-33 | Columns 0 to 2 of `xfm_feats` are `rot_trans(new_feats[:, :3], rots, trans)`, and columns 3 to 5 are those of `new_feats`. |
| FminAutograd.XfmSpatialColumns | autocase3d/fmin_autograd.py:33 | The spatial columns of `xfm_feats` are exactly the positions that `fit_xfm_autograd` rebuilds after optimising. |
| FminAutograd.XfmFeatsAreScoredFeatures | autocase3d/fmin_autograd.py:22-33 | `xfm_feats` equals the `hstack` of the moved spatial columns with the remaining columns, the features the drivers score. |
| FminAutograd.ProbIsScore | autocase3d/fmin_autograd.py:22-35 | `prob`, which is minus the mean over the rows of `log Σ_k w_k exp(log_prob_k)`, equals the derivative-free objective `score` on six channels. |
| FminAutograd.ProbAtSeed | autocase3d/fmin_autograd.py:22-35 | At the BFGS seed `np.zeros(6)`, `xfm_feats` equals `new_feats`, so `prob` there is the initial score. |
| FminAutograd.FitXfmAutograd | autocase3d/fmin_autograd.py:121-143 | The warning is raised exactly when the initial score exceeds 6.0. The optimiser is seeded with zeros. The final score is `score` at its result, which is also `prob` there. The face lists are returned unchanged. The positions are `unsquash_xyz` of `rot_trans` of the squashed spatial columns. |

## Left out

- Reading the scan (`get_ply_features`), loading the model file (`np.load`, `_load_gmm_model`) and training the mixture (`fit_model`): these are file I/O and offline sklearn training. The scan's features and face lists, the mixture and its statistics come in as values.
- autocase3d/util.py, autocase3d/store_gmm_params.py and the meshing, Blender and web front-end scripts: they orchestrate external tools and carry no alignment arithmetic.
- `scipy.optimize.fmin`, `fmin_bfgs` and the `autograd` gradient `prob_grad`: foreign optimisers and automatic differentiation. The optimiser is a function parameter mapping the squashed features and the seed to a parameter vector of the same length. Convergence, optimality and gradient correctness are not modelled, and neither are the `**fmin_kwargs`.
- The printed "Init score", "Final score" and warning lines become the returned `Report`.
- sklearn's `GaussianMixture.score` is modelled as the mean per-sample log density built from the same 'full' evaluator that `prob` uses. sklearn's own log-sum-exp code is not part of this model.
- Floating point: rounding, overflow of `exp`, `nan` and `inf`. The transcendental functions are exact mathematical functions constrained only by `Lawful`. A zero standard deviation (division by zero) is excluded by `NormStats`, and `log` of a non-positive entry is whatever the supplied `log` returns.
- Autocase.FitXfmFmin: requires at least six channels, because `squash_features` indexes the default channels 3 to 5. It also requires a seed of exactly six parameters (`|init| == 6`; the source would also accept a seed of four, broadcasting its single translation over the three axes), a non-empty scan, the mixture's shapes to match the channel count, and the weights to number as many as the components. With any of these missing the source raises an `IndexError`/`ValueError` or yields `nan`; the model does not express those outcomes.
- FminAutograd.FitXfmAutograd: requires exactly six channels, because `prob`'s 6-by-6 operator does not admit any other width (NumPy would raise a shape error). It carries the same preconditions as `FitXfmFmin` otherwise.
- `rot3` and `rot_trans` are written twice in the repository (autocase3d/__init__.py:68-77 and autocase3d/fmin_autograd.py:13-20) with identical formulas. They are modelled once, as `Autocase.Rot3` and `Autocase.RotTrans`.
- Autocase.SquashFeatures: requires `means` and `stds` to cover every channel and every listed tanh channel to be a valid Python index. Without these the source raises `IndexError`; the model does not express that outcome.
- Autocase.UnsquashXyz: requires at least three channels and three entries in `means` and `stds`. Without these the source raises `IndexError`; the model does not express that outcome.
- Density.LogGaussianProb: requires `X` and `means` to be 2-D and the factor array not to be ragged. A 1-D or ragged input makes NumPy raise before or during the evaluation, and these inputs are not represented.
- Density.ComputeLogDetCholesky: its contract states the 'full' branch. The 'tied', 'diag' and other branches are characterised by the three lemmas that relate them to 'full'. For non-square factors the 'full' branch is defined through the stride slice but no closed form is given.
- Arrays of rank above three, and ragged arrays, are not represented: `NdArray` holds ranks zero to three and `Rectangular` excludes ragged ones.
