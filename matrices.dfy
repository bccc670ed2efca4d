/** Dense real vectors and matrices, with the handful of NumPy operations the
    alignment uses.  A matrix is a sequence of rows; `IsMatrix` states its
    shape.  Products follow NumPy's `dot` for 1-D and 2-D operands. */
module Matrices {

  type Matrix = seq<seq<real>>

  predicate IsMatrix(m: Matrix, rows: nat, cols: nat) {
    |m| == rows && forall i :: 0 <= i < rows ==> |m[i]| == cols
  }

  /** The number of columns of a matrix, read off its first row. */
  function Width(m: Matrix): nat {
    if |m| == 0 then 0 else |m[0]|
  }

  /** Sum of the entries of a vector (`np.sum`). */
  function Sum(s: seq<real>): real {
    if |s| == 0 then 0.0 else s[0] + Sum(s[1..])
  }

  /** Inner product of two vectors of equal length. */
  function Dot(u: seq<real>, v: seq<real>): real
    requires |u| == |v|
  {
    if |u| == 0 then 0.0 else u[0] * v[0] + Dot(u[1..], v[1..])
  }

  /** Sum of the squares of the entries (`np.sum(np.square(v))`). */
  function SumSquares(v: seq<real>): real {
    Dot(v, v)
  }

  function VecAdd(u: seq<real>, v: seq<real>): (w: seq<real>)
    requires |u| == |v|
    ensures |w| == |u|
  {
    seq(|u|, j requires 0 <= j < |u| => u[j] + v[j])
  }

  function VecSub(u: seq<real>, v: seq<real>): (w: seq<real>)
    requires |u| == |v|
    ensures |w| == |u|
  {
    seq(|u|, j requires 0 <= j < |u| => u[j] - v[j])
  }

  /** Column `j` of `m` (`m[:, j]`). */
  function Column(m: Matrix, j: nat): (c: seq<real>)
    requires forall i :: 0 <= i < |m| ==> j < |m[i]|
    ensures |c| == |m|
  {
    seq(|m|, i requires 0 <= i < |m| => m[i][j])
  }

  /** Row vector times matrix: `np.dot(v, b)` for a `|v|`-by-`cols` matrix `b`. */
  function VecMat(v: seq<real>, b: Matrix, cols: nat): (w: seq<real>)
    requires IsMatrix(b, |v|, cols)
    ensures |w| == cols
  {
    seq(cols, j requires 0 <= j < cols => Dot(v, Column(b, j)))
  }

  /** Matrix product `np.dot(a, b)` for `b` of shape `|b|`-by-`cols`. */
  function MatMul(a: Matrix, b: Matrix, cols: nat): (c: Matrix)
    requires IsMatrix(b, |b|, cols)
    requires forall i :: 0 <= i < |a| ==> |a[i]| == |b|
    ensures IsMatrix(c, |a|, cols)
  {
    seq(|a|, i requires 0 <= i < |a| => VecMat(a[i], b, cols))
  }

  function MatAdd(a: Matrix, b: Matrix): (c: Matrix)
    requires |a| == |b| && forall i :: 0 <= i < |a| ==> |a[i]| == |b[i]|
    ensures |c| == |a| && forall i :: 0 <= i < |a| ==> |c[i]| == |a[i]|
  {
    seq(|a|, i requires 0 <= i < |a| => VecAdd(a[i], b[i]))
  }

  /** `m + v` with `v` broadcast over the rows of `m`. */
  function AddRow(m: Matrix, v: seq<real>): (c: Matrix)
    requires forall i :: 0 <= i < |m| ==> |m[i]| == |v|
    ensures IsMatrix(c, |m|, |v|)
  {
    seq(|m|, i requires 0 <= i < |m| => VecAdd(m[i], v))
  }

  /** `m - v` with `v` broadcast over the rows of `m`. */
  function SubRow(m: Matrix, v: seq<real>): (c: Matrix)
    requires forall i :: 0 <= i < |m| ==> |m[i]| == |v|
    ensures IsMatrix(c, |m|, |v|)
  {
    seq(|m|, i requires 0 <= i < |m| => VecSub(m[i], v))
  }

  /** Matrix times column vector: `np.dot(m, v)` for a 2-D `m` and a 1-D `v`. */
  function MatVec(m: Matrix, v: seq<real>): (w: seq<real>)
    requires forall i :: 0 <= i < |m| ==> |m[i]| == |v|
    ensures |w| == |m|
  {
    seq(|m|, i requires 0 <= i < |m| => Dot(m[i], v))
  }

  /** The transpose of a matrix with `cols` columns. */
  function Transpose(m: Matrix, cols: nat): (t: Matrix)
    requires IsMatrix(m, |m|, cols)
    ensures IsMatrix(t, cols, |m|)
  {
    seq(cols, j requires 0 <= j < cols => Column(m, j))
  }

  /** The `j`-th standard basis vector of length `n`. */
  function Unit(n: nat, j: nat): (u: seq<real>)
    ensures |u| == n
  {
    seq(n, k requires 0 <= k < n => if k == j then 1.0 else 0.0)
  }

  /** The `n`-by-`n` identity (`np.eye(n)`). */
  function Identity(n: nat): (m: Matrix)
    ensures IsMatrix(m, n, n)
  {
    seq(n, i requires 0 <= i < n => Unit(n, i))
  }

  /** The square matrix with `v` on its diagonal (`np.diag` of a 1-D array). */
  function DiagOf(v: seq<real>): (m: Matrix)
    ensures IsMatrix(m, |v|, |v|)
  {
    seq(|v|, i requires 0 <= i < |v| => seq(|v|, j requires 0 <= j < |v| => if i == j then v[i] else 0.0))
  }

  /** Columns `lo` to `hi` (exclusive) of every row (`m[:, lo:hi]`). */
  function TakeCols(m: Matrix, lo: nat, hi: nat): (c: Matrix)
    requires lo <= hi
    requires forall i :: 0 <= i < |m| ==> hi <= |m[i]|
    ensures IsMatrix(c, |m|, hi - lo)
  {
    seq(|m|, i requires 0 <= i < |m| => m[i][lo..hi])
  }

  /** Row-wise concatenation (`np.hstack([a, b])`). */
  function HStack(a: Matrix, b: Matrix): (c: Matrix)
    requires |a| == |b|
    ensures |c| == |a| && forall i :: 0 <= i < |a| ==> |c[i]| == |a[i]| + |b[i]|
  {
    seq(|a|, i requires 0 <= i < |a| => a[i] + b[i])
  }

  /** The main diagonal of a `rows`-by-`cols` matrix (`np.diag` of a 2-D array). */
  function Diagonal(m: Matrix, cols: nat): (d: seq<real>)
    requires IsMatrix(m, |m|, cols)
    ensures |d| == if |m| < cols then |m| else cols
  {
    var n := if |m| < cols then |m| else cols;
    seq(n, j requires 0 <= j < n => m[j][j])
  }

  /** The rows of `m` laid end to end (one row of `reshape(n_components, -1)`). */
  function Flatten(m: Matrix): seq<real> {
    if |m| == 0 then [] else m[0] + Flatten(m[1..])
  }

  /** Every `step`-th entry starting at the first (`s[::step]`). */
  function StrideSlice(s: seq<real>, step: nat): seq<real>
    requires step > 0
    decreases |s|
  {
    if |s| == 0 then [] else [s[0]] + StrideSlice(s[if step < |s| then step else |s|..], step)
  }

  /** The ordinary arithmetic mean (`np.mean`). */
  function Mean(s: seq<real>): real
    requires |s| > 0
  {
    Sum(s) / |s| as real
  }

  /** The rows of a two-dimensional array, as a matrix value. */
  function ArrayRows(a: array2<real>): (m: Matrix)
    reads a
    ensures IsMatrix(m, a.Length0, a.Length1)
  {
    seq(a.Length0, i requires 0 <= i < a.Length0 reads a =>
      seq(a.Length1, j requires 0 <= j < a.Length1 reads a => a[i, j]))
  }

  // ---------------------------------------------------------------------
  // Lemmas

  /** Two matrices of one shape with equal entries are equal. */
  lemma MatrixExt(a: Matrix, b: Matrix, rows: nat, cols: nat)
    requires IsMatrix(a, rows, cols) && IsMatrix(b, rows, cols)
    requires forall i, j :: 0 <= i < rows && 0 <= j < cols ==> a[i][j] == b[i][j]
    ensures a == b
  {
    forall i | 0 <= i < rows ensures a[i] == b[i] {
      assert forall j :: 0 <= j < cols ==> a[i][j] == b[i][j];
    }
  }

  lemma {:induction false} DotZero(u: seq<real>, v: seq<real>)
    requires |u| == |v|
    requires forall k :: 0 <= k < |v| ==> v[k] == 0.0
    ensures Dot(u, v) == 0.0
  {
    if |u| > 0 {
      DotZero(u[1..], v[1..]);
    }
  }

  /** A dot product whose left factor is zero vanishes. */
  lemma {:induction false} DotZeroLeft(u: seq<real>, v: seq<real>)
    requires |u| == |v|
    requires forall k :: 0 <= k < |u| ==> u[k] == 0.0
    ensures Dot(u, v) == 0.0
  {
    if |u| > 0 {
      DotZeroLeft(u[1..], v[1..]);
    }
  }

  /** A dot product with a vector that is one at `j` and zero elsewhere picks
      out entry `j`. */
  lemma {:induction false} DotSelect(u: seq<real>, v: seq<real>, j: nat)
    requires |u| == |v| && j < |u|
    requires forall k :: 0 <= k < |v| ==> v[k] == if k == j then 1.0 else 0.0
    ensures Dot(u, v) == u[j]
  {
    if j == 0 {
      DotZero(u[1..], v[1..]);
    } else {
      DotSelect(u[1..], v[1..], j - 1);
    }
  }

  /** Trailing zeros of `v` do not contribute to a dot product. */
  lemma {:induction false} DotPrefix(u: seq<real>, v: seq<real>, m: nat)
    requires |u| == |v| && m <= |u|
    requires forall k :: m <= k < |v| ==> v[k] == 0.0
    ensures Dot(u, v) == Dot(u[..m], v[..m])
  {
    if m == 0 {
      DotZero(u, v);
    } else {
      DotPrefix(u[1..], v[1..], m - 1);
      assert u[1..][..m - 1] == u[..m][1..];
      assert v[1..][..m - 1] == v[..m][1..];
    }
  }

  /** `np.dot(u, w) - np.dot(v, w) == np.dot(u - v, w)`. */
  lemma {:induction false} DotSubLeft(u: seq<real>, v: seq<real>, w: seq<real>)
    requires |u| == |v| == |w|
    ensures Dot(u, w) - Dot(v, w) == Dot(VecSub(u, v), w)
  {
    if |u| > 0 {
      DotSubLeft(u[1..], v[1..], w[1..]);
      assert VecSub(u, v)[1..] == VecSub(u[1..], v[1..]);
    }
  }

  lemma {:induction false} DotCommutes(u: seq<real>, v: seq<real>)
    requires |u| == |v|
    ensures Dot(u, v) == Dot(v, u)
  {
    if |u| > 0 {
      DotCommutes(u[1..], v[1..]);
    }
  }

  /** The dot product of two 3-vectors written out. */
  lemma Dot3(u: seq<real>, v: seq<real>)
    requires |u| == |v| == 3
    ensures Dot(u, v) == u[0] * v[0] + u[1] * v[1] + u[2] * v[2]
  {
    assert Dot(u[2..], v[2..]) == u[2] * v[2] + Dot(u[2..][1..], v[2..][1..]);
    assert Dot(u[1..], v[1..]) == u[1] * v[1] + Dot(u[1..][1..], v[1..][1..]);
    assert u[1..][1..] == u[2..] && v[1..][1..] == v[2..];
  }

  /** Entry `i*cols + j` of the flattened matrix is entry `(i, j)`. */
  lemma {:induction false} FlattenIndex(m: Matrix, rows: nat, cols: nat, i: nat, j: nat)
    requires IsMatrix(m, rows, cols) && i < rows && j < cols
    ensures |Flatten(m)| == rows * cols
    ensures i * cols + j < rows * cols && Flatten(m)[i * cols + j] == m[i][j]
  {
    FlattenLength(m, rows, cols);
    if i > 0 {
      FlattenIndex(m[1..], rows - 1, cols, i - 1, j);
      assert i * cols + j == cols + ((i - 1) * cols + j);
    }
  }

  lemma {:induction false} FlattenLength(m: Matrix, rows: nat, cols: nat)
    requires IsMatrix(m, rows, cols)
    ensures |Flatten(m)| == rows * cols
  {
    if rows > 0 {
      FlattenLength(m[1..], rows - 1, cols);
      assert rows * cols == cols + (rows - 1) * cols;
    }
  }

  /** `s[::step]` has an entry `k` exactly when `k * step` indexes `s`, and
      that entry is `s[k * step]`. */
  lemma {:induction false} StrideSliceIndex(s: seq<real>, step: nat, k: nat)
    requires step > 0
    ensures k < |StrideSlice(s, step)| <==> k * step < |s|
    ensures k * step < |s| ==> StrideSlice(s, step)[k] == s[k * step]
    decreases |s|
  {
    if |s| > 0 && k > 0 {
      var rest := s[if step < |s| then step else |s|..];
      StrideSliceIndex(rest, step, k - 1);
      assert k * step == (k - 1) * step + step;
      if step < |s| {
        if k * step < |s| {
          assert rest[(k - 1) * step] == s[k * step];
        }
      } else {
        assert k * step >= step;
      }
    }
  }

  /** The stride-`(n+1)` slice of a flattened `n`-by-`n` matrix has `n` entries. */
  lemma StrideDiagonalLength(s: seq<real>, n: nat)
    requires |s| == n * n
    ensures |StrideSlice(s, n + 1)| == n
  {
    if n > 0 {
      StrideSliceIndex(s, n + 1, n);
      assert n * (n + 1) == n * n + n;
      StrideSliceIndex(s, n + 1, n - 1);
      assert (n - 1) * (n + 1) == n * n - 1;
    } else {
      assert s == [];
    }
  }

  /** The stride-`(n+1)` slice of a flattened `n`-by-`n` matrix is its diagonal. */
  lemma DiagonalByStride(m: Matrix, n: nat)
    requires IsMatrix(m, n, n)
    ensures StrideSlice(Flatten(m), n + 1) == Diagonal(m, n)
  {
    var f := Flatten(m);
    var s := StrideSlice(f, n + 1);
    FlattenLength(m, n, n);
    StrideDiagonalLength(f, n);
    forall j | 0 <= j < n ensures s[j] == m[j][j] {
      DiagonalEntryByStride(m, n, j);
    }
  }

  lemma DiagonalEntryByStride(m: Matrix, n: nat, j: nat)
    requires IsMatrix(m, n, n) && j < n
    ensures j < |StrideSlice(Flatten(m), n + 1)| && StrideSlice(Flatten(m), n + 1)[j] == m[j][j]
  {
    FlattenIndex(m, n, n, j, j);
    assert j * (n + 1) == j * n + j;
    StrideSliceIndex(Flatten(m), n + 1, j);
  }

  /** Multiplying by the identity changes nothing. */
  lemma MatMulIdentity(m: Matrix, n: nat)
    requires IsMatrix(m, |m|, n)
    ensures MatMul(m, Identity(n), n) == m
  {
    var p := MatMul(m, Identity(n), n);
    forall i, j | 0 <= i < |m| && 0 <= j < n ensures p[i][j] == m[i][j] {
      var col := Column(Identity(n), j);
      assert forall k :: 0 <= k < n ==> col[k] == if k == j then 1.0 else 0.0;
      DotSelect(m[i], col, j);
    }
    MatrixExt(p, m, |m|, n);
  }

  /** Adding a zero row vector changes nothing. */
  lemma AddRowZero(m: Matrix, n: nat)
    requires IsMatrix(m, |m|, n)
    ensures AddRow(m, seq(n, j => 0.0)) == m
  {
    var p := AddRow(m, seq(n, j => 0.0));
    forall i, j | 0 <= i < |m| && 0 <= j < n ensures p[i][j] == m[i][j] {
    }
    MatrixExt(p, m, |m|, n);
  }
}
