/** Feature normalisation, the Euler rotation, the rigid transform of the
    spatial channels, the scoring function and the derivative-free alignment
    driver of autocase3d/__init__.py. */
module Autocase {
  import opened RealFunctions
  import opened Matrices
  import Density

  /** The channels `squash_features` passes through tanh by default. */
  const DefaultTanh: seq<int> := [3, 4, 5]

  /** Above this initial score the drivers warn that the scan looks misaligned. */
  const MisalignmentThreshold: real := 6.0

  /** Face lists pass through the alignment untouched. */
  type Polys = seq<seq<nat>>

  /** What the drivers print: both scores and whether the warning was shown. */
  datatype Report = Report(initScore: real, finalScore: real, misaligned: bool)

  // ---------------------------------------------------------------------
  // Feature normalisation

  /** Population statistics usable for `d` channels: Python indexes
      `means[fi]` and `stds[fi]` for every channel and divides by the
      latter. */
  predicate NormStats(means: seq<real>, stds: seq<real>, d: nat) {
    |means| >= d && |stds| >= d && forall j :: 0 <= j < d ==> stds[j] != 0.0
  }

  /** Every entry of `whichTanh` is a valid Python index of one of `d` columns
      (negative indices count from the end). */
  predicate ValidChannels(whichTanh: seq<int>, d: nat) {
    forall k :: 0 <= k < |whichTanh| ==> -(d as int) <= whichTanh[k] < d
  }

  /** The column a Python index selects among `d` columns. */
  function ColumnIndex(t: int, d: nat): (c: nat)
    requires -(d as int) <= t < d
    ensures c < d && (t >= 0 ==> c == t)
  {
    if t < 0 then t + d else t
  }

  /** How often the loop over `whichTanh` visits column `j`. */
  function Occurrences(whichTanh: seq<int>, d: nat, j: nat): nat
    requires ValidChannels(whichTanh, d)
  {
    if |whichTanh| == 0 then 0
    else Occurrences(whichTanh[..|whichTanh| - 1], d, j)
         + (if ColumnIndex(whichTanh[|whichTanh| - 1], d) == j then 1 else 0)
  }

  /** The first loop of `squash_features`: every channel z-scored. */
  function ZScores(f: Matrix, d: nat, means: seq<real>, stds: seq<real>): (r: Matrix)
    requires IsMatrix(f, |f|, d) && NormStats(means, stds, d)
    ensures IsMatrix(r, |f|, d)
  {
    seq(|f|, i requires 0 <= i < |f| => seq(d, j requires 0 <= j < d => (f[i][j] - means[j]) / stds[j]))
  }

  /** One pass of the second loop: tanh of column `c`. */
  function TanhColumn(e: Elementary, m: Matrix, d: nat, c: nat): (r: Matrix)
    requires IsMatrix(m, |m|, d)
    ensures IsMatrix(r, |m|, d)
  {
    seq(|m|, i requires 0 <= i < |m| => seq(d, j requires 0 <= j < d => if j == c then e.tanh(m[i][j]) else m[i][j]))
  }

  /** The second loop of `squash_features`, one pass per entry of `whichTanh`. */
  function TanhColumns(e: Elementary, m: Matrix, d: nat, whichTanh: seq<int>): (r: Matrix)
    requires IsMatrix(m, |m|, d) && ValidChannels(whichTanh, d)
    ensures IsMatrix(r, |m|, d)
  {
    if |whichTanh| == 0 then m
    else TanhColumn(e, TanhColumns(e, m, d, whichTanh[..|whichTanh| - 1]), d,
                    ColumnIndex(whichTanh[|whichTanh| - 1], d))
  }

  /** What `squash_features(f, means, stds, which_tanh)` returns. */
  function Squashed(e: Elementary, f: Matrix, d: nat, means: seq<real>, stds: seq<real>, whichTanh: seq<int>): (r: Matrix)
    requires IsMatrix(f, |f|, d) && NormStats(means, stds, d) && ValidChannels(whichTanh, d)
    ensures IsMatrix(r, |f|, d)
  {
    TanhColumns(e, ZScores(f, d, means, stds), d, whichTanh)
  }

  /** What `unsquash_xyz(f, means, stds)` returns: the z-score undone on
      columns 0 to 2, every other column copied. */
  function Unsquashed(f: Matrix, d: nat, means: seq<real>, stds: seq<real>): (r: Matrix)
    requires IsMatrix(f, |f|, d) && d >= 3 && |means| >= 3 && |stds| >= 3
    ensures IsMatrix(r, |f|, d)
  {
    seq(|f|, i requires 0 <= i < |f| =>
      seq(d, j requires 0 <= j < d => if j < 3 then f[i][j] * stds[j] + means[j] else f[i][j]))
  }

  /** `squash_features`: copy the features, z-score every column in place,
      then apply tanh in place to each column named in `whichTanh`. */
  method SquashFeatures(e: Elementary, f: array2<real>, means: seq<real>, stds: seq<real>,
                        whichTanh: seq<int> := DefaultTanh)
    returns (newF: array2<real>)
    requires NormStats(means, stds, f.Length1) && ValidChannels(whichTanh, f.Length1)
    ensures fresh(newF) && newF.Length0 == f.Length0 && newF.Length1 == f.Length1 && unchanged(f)
    ensures ArrayRows(newF) == Squashed(e, ArrayRows(f), f.Length1, means, stds, whichTanh)
  {
    var n, d := f.Length0, f.Length1;
    newF := new real[n, d]((i, j) reads f => if 0 <= i < n && 0 <= j < d then f[i, j] else 0.0);
    ghost var z := ZScores(ArrayRows(f), d, means, stds);
    for fi := 0 to d
      invariant forall i, j :: 0 <= i < n && 0 <= j < d ==> newF[i, j] == if j < fi then z[i][j] else f[i, j]
    {
      for r := 0 to n
        invariant forall i, j :: 0 <= i < n && 0 <= j < d ==>
                    newF[i, j] == if j < fi || (j == fi && i < r) then z[i][j] else f[i, j]
      {
        newF[r, fi] := (f[r, fi] - means[fi]) / stds[fi];
      }
    }
    MatrixExt(ArrayRows(newF), z, n, d);
    for k := 0 to |whichTanh|
      invariant ArrayRows(newF) == TanhColumns(e, z, d, whichTanh[..k])
    {
      TanhColumnInPlace(e, newF, ColumnIndex(whichTanh[k], d));
      assert whichTanh[..k + 1][..k] == whichTanh[..k];
    }
    assert whichTanh[..|whichTanh|] == whichTanh;
  }

  /** One pass of the second loop of `squash_features`: tanh applied in place
      to every entry of column `c`. */
  method TanhColumnInPlace(e: Elementary, a: array2<real>, c: nat)
    requires c < a.Length1
    modifies a
    ensures ArrayRows(a) == TanhColumn(e, old(ArrayRows(a)), a.Length1, c)
  {
    ghost var prev := ArrayRows(a);
    for r := 0 to a.Length0
      invariant forall i, j :: 0 <= i < a.Length0 && 0 <= j < a.Length1 ==>
                  a[i, j] == if j == c && i < r then e.tanh(prev[i][j]) else prev[i][j]
    {
      a[r, c] := e.tanh(a[r, c]);
    }
    MatrixExt(ArrayRows(a), TanhColumn(e, prev, a.Length1, c), a.Length0, a.Length1);
  }

  /** `unsquash_xyz`: copy, then undo the z-score in place on columns 0 to 2. */
  method UnsquashXyz(f: array2<real>, means: seq<real>, stds: seq<real>) returns (newF: array2<real>)
    requires f.Length1 >= 3 && |means| >= 3 && |stds| >= 3
    ensures fresh(newF) && newF.Length0 == f.Length0 && newF.Length1 == f.Length1 && unchanged(f)
    ensures ArrayRows(newF) == Unsquashed(ArrayRows(f), f.Length1, means, stds)
  {
    var n, d := f.Length0, f.Length1;
    newF := new real[n, d]((i, j) reads f => if 0 <= i < n && 0 <= j < d then f[i, j] else 0.0);
    ghost var u := Unsquashed(ArrayRows(f), d, means, stds);
    for fi := 0 to 3
      invariant forall i, j :: 0 <= i < n && 0 <= j < d ==> newF[i, j] == if j < fi then u[i][j] else f[i, j]
    {
      for r := 0 to n
        invariant forall i, j :: 0 <= i < n && 0 <= j < d ==>
                    newF[i, j] == if j < fi || (j == fi && i < r) then u[i][j] else f[i, j]
      {
        newF[r, fi] := f[r, fi] * stds[fi] + means[fi];
      }
    }
    MatrixExt(ArrayRows(newF), u, n, d);
  }

  // ---------------------------------------------------------------------
  // Lemmas about normalisation

  /** Each squashed entry is its z-score with tanh applied once per visit of
      its column by the loop over `whichTanh`: z-score first, squash second. */
  lemma {:induction false} SquashedEntry(e: Elementary, f: Matrix, d: nat, means: seq<real>, stds: seq<real>,
                                         whichTanh: seq<int>, i: nat, j: nat)
    requires IsMatrix(f, |f|, d) && NormStats(means, stds, d) && ValidChannels(whichTanh, d)
    requires i < |f| && j < d
    ensures Squashed(e, f, d, means, stds, whichTanh)[i][j]
         == Iterate(e.tanh, Occurrences(whichTanh, d, j), (f[i][j] - means[j]) / stds[j])
  {
    if |whichTanh| > 0 {
      SquashedEntry(e, f, d, means, stds, whichTanh[..|whichTanh| - 1], i, j);
    }
  }

  lemma {:induction false} OccurrencesZero(whichTanh: seq<int>, d: nat, j: nat)
    requires ValidChannels(whichTanh, d)
    requires forall k :: 0 <= k < |whichTanh| ==> ColumnIndex(whichTanh[k], d) != j
    ensures Occurrences(whichTanh, d, j) == 0
  {
    if |whichTanh| > 0 {
      OccurrencesZero(whichTanh[..|whichTanh| - 1], d, j);
    }
  }

  lemma {:induction false} OccurrencesPositive(whichTanh: seq<int>, d: nat, j: nat, k: nat)
    requires ValidChannels(whichTanh, d)
    requires k < |whichTanh| && ColumnIndex(whichTanh[k], d) == j
    ensures Occurrences(whichTanh, d, j) > 0
  {
    if k < |whichTanh| - 1 {
      OccurrencesPositive(whichTanh[..|whichTanh| - 1], d, j, k);
    }
  }

  /** A channel that `whichTanh` does not name holds exactly its z-score. */
  lemma SquashPlainChannel(e: Elementary, f: Matrix, d: nat, means: seq<real>, stds: seq<real>,
                           whichTanh: seq<int>, i: nat, j: nat)
    requires IsMatrix(f, |f|, d) && NormStats(means, stds, d) && ValidChannels(whichTanh, d)
    requires i < |f| && j < d
    requires forall k :: 0 <= k < |whichTanh| ==> ColumnIndex(whichTanh[k], d) != j
    ensures Squashed(e, f, d, means, stds, whichTanh)[i][j] == (f[i][j] - means[j]) / stds[j]
  {
    SquashedEntry(e, f, d, means, stds, whichTanh, i, j);
    OccurrencesZero(whichTanh, d, j);
  }

  /** A channel that `whichTanh` names lies strictly between -1 and 1. */
  lemma SquashTanhChannel(e: Elementary, f: Matrix, d: nat, means: seq<real>, stds: seq<real>,
                          whichTanh: seq<int>, i: nat, j: nat, k: nat)
    requires Lawful(e)
    requires IsMatrix(f, |f|, d) && NormStats(means, stds, d) && ValidChannels(whichTanh, d)
    requires i < |f| && j < d
    requires k < |whichTanh| && ColumnIndex(whichTanh[k], d) == j
    ensures -1.0 < Squashed(e, f, d, means, stds, whichTanh)[i][j] < 1.0
  {
    SquashedEntry(e, f, d, means, stds, whichTanh, i, j);
    OccurrencesPositive(whichTanh, d, j, k);
    var n := Occurrences(whichTanh, d, j);
    assert Iterate(e.tanh, n, (f[i][j] - means[j]) / stds[j])
        == e.tanh(Iterate(e.tanh, n - 1, (f[i][j] - means[j]) / stds[j]));
  }

  /** With the default channels, columns 3 to 5 hold tanh of the z-score
      and every other column its z-score. */
  lemma SquashDefault(e: Elementary, f: Matrix, d: nat, means: seq<real>, stds: seq<real>, i: nat, j: nat)
    requires IsMatrix(f, |f|, d) && NormStats(means, stds, d) && d >= 6
    requires i < |f| && j < d
    ensures ValidChannels(DefaultTanh, d)
    ensures Squashed(e, f, d, means, stds, DefaultTanh)[i][j]
         == if 3 <= j <= 5 then e.tanh((f[i][j] - means[j]) / stds[j]) else (f[i][j] - means[j]) / stds[j]
  {
    SquashedEntry(e, f, d, means, stds, DefaultTanh, i, j);
    assert DefaultTanh[..2] == [3, 4] && [3, 4][..1] == [3] && [3][..0] == [];
    assert Occurrences([3], d, j) == if j == 3 then 1 else 0;
    assert Occurrences([3, 4], d, j) == if 3 <= j <= 4 then 1 else 0;
    assert Occurrences(DefaultTanh, d, j) == if 3 <= j <= 5 then 1 else 0;
  }

  /** Undoing the z-score on columns 0 to 2 recovers the original coordinates
      whenever `whichTanh` leaves those columns alone. */
  lemma UnsquashSquashSpatial(e: Elementary, f: Matrix, d: nat, means: seq<real>, stds: seq<real>,
                              whichTanh: seq<int>, i: nat, j: nat)
    requires IsMatrix(f, |f|, d) && d >= 3 && NormStats(means, stds, d) && ValidChannels(whichTanh, d)
    requires forall k :: 0 <= k < |whichTanh| ==> ColumnIndex(whichTanh[k], d) >= 3
    requires i < |f| && j < 3
    ensures Unsquashed(Squashed(e, f, d, means, stds, whichTanh), d, means, stds)[i][j] == f[i][j]
  {
    SquashPlainChannel(e, f, d, means, stds, whichTanh, i, j);
    var z := (f[i][j] - means[j]) / stds[j];
    assert z * stds[j] == f[i][j] - means[j];
  }

  /** The round trip with the default channels, row for row. */
  lemma UnsquashSquashDefault(e: Elementary, f: Matrix, d: nat, means: seq<real>, stds: seq<real>)
    requires IsMatrix(f, |f|, d) && d >= 6 && NormStats(means, stds, d)
    ensures ValidChannels(DefaultTanh, d)
    ensures TakeCols(Unsquashed(Squashed(e, f, d, means, stds, DefaultTanh), d, means, stds), 0, 3)
         == TakeCols(f, 0, 3)
  {
    var r := TakeCols(Unsquashed(Squashed(e, f, d, means, stds, DefaultTanh), d, means, stds), 0, 3);
    forall i, j | 0 <= i < |f| && 0 <= j < 3 ensures r[i][j] == TakeCols(f, 0, 3)[i][j] {
      UnsquashSquashSpatial(e, f, d, means, stds, DefaultTanh, i, j);
    }
    MatrixExt(r, TakeCols(f, 0, 3), |f|, 3);
  }

  // ---------------------------------------------------------------------
  // Rotation and rigid transform

  /** `rot3(ph, th, ps)`: the closed-form Euler rotation, built from the
      sines and cosines of the three angles. */
  function Rot3(e: Elementary, ph: real, th: real, ps: real): (r: Matrix)
    ensures IsMatrix(r, 3, 3)
  {
    EulerMatrix(e.sin(ph), e.cos(ph), e.sin(th), e.cos(th), e.sin(ps), e.cos(ps))
  }

  /** The entries of `rot3` in terms of `sp, cp` (angle `ph`), `st, ct`
      (angle `th`) and `ss, cs` (angle `ps`). */
  function EulerMatrix(sp: real, cp: real, st: real, ct: real, ss: real, cs: real): (r: Matrix)
    ensures IsMatrix(r, 3, 3)
  {
    [[ct * cs, -cp * ss + sp * st * cs, sp * ss + cp * st * cs],
     [ct * ss, cp * cs + sp * st * ss, -sp * cs + cp * st * ss],
     [-st, sp * ct, cp * ct]]
  }

  /** The elementary rotation about the first axis. */
  function RotX(e: Elementary, a: real): (r: Matrix)
    ensures IsMatrix(r, 3, 3)
  {
    [[1.0, 0.0, 0.0], [0.0, e.cos(a), -e.sin(a)], [0.0, e.sin(a), e.cos(a)]]
  }

  /** The elementary rotation about the second axis. */
  function RotY(e: Elementary, a: real): (r: Matrix)
    ensures IsMatrix(r, 3, 3)
  {
    [[e.cos(a), 0.0, e.sin(a)], [0.0, 1.0, 0.0], [-e.sin(a), 0.0, e.cos(a)]]
  }

  /** The elementary rotation about the third axis. */
  function RotZ(e: Elementary, a: real): (r: Matrix)
    ensures IsMatrix(r, 3, 3)
  {
    [[e.cos(a), -e.sin(a), 0.0], [e.sin(a), e.cos(a), 0.0], [0.0, 0.0, 1.0]]
  }

  /** `rot_trans(xyz, rots, trans)`: `xyz · rot3(*rots) + trans` on row vectors. */
  function RotTrans(e: Elementary, xyz: Matrix, rots: seq<real>, trans: seq<real>): (r: Matrix)
    requires IsMatrix(xyz, |xyz|, 3) && |rots| == 3 && |trans| == 3
    ensures IsMatrix(r, |xyz|, 3)
  {
    AddRow(MatMul(xyz, Rot3(e, rots[0], rots[1], rots[2]), 3), trans)
  }

  /** Entry `(i, j)` of a product of 3-by-3 matrices written out. */
  lemma MatMul3Entry(a: Matrix, b: Matrix, i: nat, j: nat)
    requires IsMatrix(a, 3, 3) && IsMatrix(b, 3, 3) && i < 3 && j < 3
    ensures MatMul(a, b, 3)[i][j] == a[i][0] * b[0][j] + a[i][1] * b[1][j] + a[i][2] * b[2][j]
  {
    Dot3(a[i], Column(b, j));
  }

  /** Entry `(i, j)` of a product of 3-by-3 matrices, for a known row of the
      left factor and a known column of the right one. */
  lemma MatMul3EntryOf(a: Matrix, b: Matrix, i: nat, j: nat,
                       a0: real, a1: real, a2: real, b0: real, b1: real, b2: real)
    requires IsMatrix(a, 3, 3) && IsMatrix(b, 3, 3) && i < 3 && j < 3
    requires a[i] == [a0, a1, a2] && b[0][j] == b0 && b[1][j] == b1 && b[2][j] == b2
    ensures MatMul(a, b, 3)[i][j] == a0 * b0 + a1 * b1 + a2 * b2
  {
    Dot3Of(a[i], Column(b, j), a0, a1, a2, b0, b1, b2);
  }

  /** `Ry · Rx` on the sines and cosines of the two angles. */
  lemma YXProduct(sp: real, cp: real, st: real, ct: real)
    ensures MatMul([[ct, 0.0, st], [0.0, 1.0, 0.0], [-st, 0.0, ct]],
                   [[1.0, 0.0, 0.0], [0.0, cp, -sp], [0.0, sp, cp]], 3)
         == [[ct, st * sp, st * cp], [0.0, cp, -sp], [-st, ct * sp, ct * cp]]
  {
    var y := [[ct, 0.0, st], [0.0, 1.0, 0.0], [-st, 0.0, ct]];
    var x := [[1.0, 0.0, 0.0], [0.0, cp, -sp], [0.0, sp, cp]];
    var m := [[ct, st * sp, st * cp], [0.0, cp, -sp], [-st, ct * sp, ct * cp]];
    forall i, j | 0 <= i < 3 && 0 <= j < 3 ensures MatMul(y, x, 3)[i][j] == m[i][j] {
      MatMul3Entry(y, x, i, j);
    }
    MatrixExt(MatMul(y, x, 3), m, 3, 3);
  }

  /** The nine polynomial identities behind `ZYXProduct`. */
  lemma ZYXAlgebra(sp: real, cp: real, st: real, ct: real, ss: real, cs: real)
    ensures cs * ct + (-ss) * 0.0 + 0.0 * (-st) == ct * cs
    ensures cs * (st * sp) + (-ss) * cp + 0.0 * (ct * sp) == -cp * ss + sp * st * cs
    ensures cs * (st * cp) + (-ss) * (-sp) + 0.0 * (ct * cp) == sp * ss + cp * st * cs
    ensures ss * ct + cs * 0.0 + 0.0 * (-st) == ct * ss
    ensures ss * (st * sp) + cs * cp + 0.0 * (ct * sp) == cp * cs + sp * st * ss
    ensures ss * (st * cp) + cs * (-sp) + 0.0 * (ct * cp) == -sp * cs + cp * st * ss
    ensures 0.0 * ct + 0.0 * 0.0 + 1.0 * (-st) == -st
    ensures 0.0 * (st * sp) + 0.0 * cp + 1.0 * (ct * sp) == sp * ct
    ensures 0.0 * (st * cp) + 0.0 * (-sp) + 1.0 * (ct * cp) == cp * ct
  {
  }

  /** `Rz · (Ry · Rx)` on the sines and cosines of the three angles. */
  lemma ZYXProduct(sp: real, cp: real, st: real, ct: real, ss: real, cs: real)
    ensures MatMul([[cs, -ss, 0.0], [ss, cs, 0.0], [0.0, 0.0, 1.0]],
                   [[ct, st * sp, st * cp], [0.0, cp, -sp], [-st, ct * sp, ct * cp]], 3)
         == EulerMatrix(sp, cp, st, ct, ss, cs)
  {
    var z := [[cs, -ss, 0.0], [ss, cs, 0.0], [0.0, 0.0, 1.0]];
    var yx := [[ct, st * sp, st * cp], [0.0, cp, -sp], [-st, ct * sp, ct * cp]];
    var m := EulerMatrix(sp, cp, st, ct, ss, cs);
    var p := MatMul(z, yx, 3);
    ZYXAlgebra(sp, cp, st, ct, ss, cs);
    forall i, j | 0 <= i < 3 && 0 <= j < 3 ensures p[i][j] == m[i][j] {
      if i == 0 && j == 0 {
        MatMul3EntryOf(z, yx, 0, 0, cs, -ss, 0.0, ct, 0.0, -st);
      } else if i == 0 && j == 1 {
        MatMul3EntryOf(z, yx, 0, 1, cs, -ss, 0.0, st * sp, cp, ct * sp);
      } else if i == 0 && j == 2 {
        MatMul3EntryOf(z, yx, 0, 2, cs, -ss, 0.0, st * cp, -sp, ct * cp);
      } else if i == 1 && j == 0 {
        MatMul3EntryOf(z, yx, 1, 0, ss, cs, 0.0, ct, 0.0, -st);
      } else if i == 1 && j == 1 {
        MatMul3EntryOf(z, yx, 1, 1, ss, cs, 0.0, st * sp, cp, ct * sp);
      } else if i == 1 && j == 2 {
        MatMul3EntryOf(z, yx, 1, 2, ss, cs, 0.0, st * cp, -sp, ct * cp);
      } else if i == 2 && j == 0 {
        MatMul3EntryOf(z, yx, 2, 0, 0.0, 0.0, 1.0, ct, 0.0, -st);
      } else if i == 2 && j == 1 {
        MatMul3EntryOf(z, yx, 2, 1, 0.0, 0.0, 1.0, st * sp, cp, ct * sp);
      } else {
        MatMul3EntryOf(z, yx, 2, 2, 0.0, 0.0, 1.0, st * cp, -sp, ct * cp);
      }
    }
    MatrixExt(p, m, 3, 3);
  }

  /** `rot3(ph, th, ps)` is the product `Rz(ps) · Ry(th) · Rx(ph)`. */
  lemma Rot3Factorization(e: Elementary, ph: real, th: real, ps: real)
    ensures Rot3(e, ph, th, ps) == MatMul(RotZ(e, ps), MatMul(RotY(e, th), RotX(e, ph), 3), 3)
  {
    var sp, cp, st, ct, ss, cs := e.sin(ph), e.cos(ph), e.sin(th), e.cos(th), e.sin(ps), e.cos(ps);
    assert RotX(e, ph) == [[1.0, 0.0, 0.0], [0.0, cp, -sp], [0.0, sp, cp]];
    assert RotY(e, th) == [[ct, 0.0, st], [0.0, 1.0, 0.0], [-st, 0.0, ct]];
    assert RotZ(e, ps) == [[cs, -ss, 0.0], [ss, cs, 0.0], [0.0, 0.0, 1.0]];
    YXProduct(sp, cp, st, ct);
    ZYXProduct(sp, cp, st, ct, ss, cs);
  }

  /** The dot product of two 3-vectors written out entry by entry. */
  lemma Dot3Of(u: seq<real>, v: seq<real>, u0: real, u1: real, u2: real, v0: real, v1: real, v2: real)
    requires u == [u0, u1, u2] && v == [v0, v1, v2]
    ensures Dot(u, v) == u0 * v0 + u1 * v1 + u2 * v2
  {
    Dot3(u, v);
  }

  /** The polynomial identities behind `EulerOrthogonal`: the rows of
      `EulerMatrix` are orthonormal once each angle's sine and cosine satisfy
      the Pythagorean identity. */
  lemma EulerAlgebra(sp: real, cp: real, st: real, ct: real, ss: real, cs: real)
    requires sp * sp + cp * cp == 1.0 && st * st + ct * ct == 1.0 && ss * ss + cs * cs == 1.0
    ensures (ct * cs) * (ct * cs) + (-cp * ss + sp * st * cs) * (-cp * ss + sp * st * cs)
          + (sp * ss + cp * st * cs) * (sp * ss + cp * st * cs) == 1.0
    ensures (ct * cs) * (ct * ss) + (-cp * ss + sp * st * cs) * (cp * cs + sp * st * ss)
          + (sp * ss + cp * st * cs) * (-sp * cs + cp * st * ss) == 0.0
    ensures (ct * cs) * (-st) + (-cp * ss + sp * st * cs) * (sp * ct)
          + (sp * ss + cp * st * cs) * (cp * ct) == 0.0
    ensures (ct * ss) * (ct * ss) + (cp * cs + sp * st * ss) * (cp * cs + sp * st * ss)
          + (-sp * cs + cp * st * ss) * (-sp * cs + cp * st * ss) == 1.0
    ensures (ct * ss) * (-st) + (cp * cs + sp * st * ss) * (sp * ct)
          + (-sp * cs + cp * st * ss) * (cp * ct) == 0.0
    ensures (-st) * (-st) + (sp * ct) * (sp * ct) + (cp * ct) * (cp * ct) == 1.0
  {
    assert (-cp * ss + sp * st * cs) * (-cp * ss + sp * st * cs)
         + (sp * ss + cp * st * cs) * (sp * ss + cp * st * cs)
        == (sp * sp + cp * cp) * (ss * ss + st * st * cs * cs);
    assert (-cp * ss + sp * st * cs) * (cp * cs + sp * st * ss)
          + (sp * ss + cp * st * cs) * (-sp * cs + cp * st * ss)
        == (sp * sp + cp * cp) * (st * st - 1.0) * cs * ss;
    assert (-cp * ss + sp * st * cs) * (sp * ct) + (sp * ss + cp * st * cs) * (cp * ct)
        == (sp * sp + cp * cp) * st * cs * ct;
    assert (cp * cs + sp * st * ss) * (cp * cs + sp * st * ss)
         + (-sp * cs + cp * st * ss) * (-sp * cs + cp * st * ss)
        == (sp * sp + cp * cp) * (cs * cs + st * st * ss * ss);
    assert (cp * cs + sp * st * ss) * (sp * ct) + (-sp * cs + cp * st * ss) * (cp * ct)
        == (sp * sp + cp * cp) * st * ss * ct;
    assert (sp * ct) * (sp * ct) + (cp * ct) * (cp * ct) == (sp * sp + cp * cp) * ct * ct;
  }

  /** The dot products of pairs of rows of `EulerMatrix`, written out. */
  lemma EulerRowDot00(sp: real, cp: real, st: real, ct: real, ss: real, cs: real)
    ensures Dot(EulerMatrix(sp, cp, st, ct, ss, cs)[0], EulerMatrix(sp, cp, st, ct, ss, cs)[0])
         == (ct * cs) * (ct * cs) + (-cp * ss + sp * st * cs) * (-cp * ss + sp * st * cs)
          + (sp * ss + cp * st * cs) * (sp * ss + cp * st * cs)
  {
    var r := EulerMatrix(sp, cp, st, ct, ss, cs);
    Dot3Of(r[0], r[0], ct * cs, -cp * ss + sp * st * cs, sp * ss + cp * st * cs,
           ct * cs, -cp * ss + sp * st * cs, sp * ss + cp * st * cs);
  }

  lemma EulerRowDot01(sp: real, cp: real, st: real, ct: real, ss: real, cs: real)
    ensures Dot(EulerMatrix(sp, cp, st, ct, ss, cs)[0], EulerMatrix(sp, cp, st, ct, ss, cs)[1])
         == (ct * cs) * (ct * ss) + (-cp * ss + sp * st * cs) * (cp * cs + sp * st * ss)
          + (sp * ss + cp * st * cs) * (-sp * cs + cp * st * ss)
  {
    var r := EulerMatrix(sp, cp, st, ct, ss, cs);
    Dot3Of(r[0], r[1], ct * cs, -cp * ss + sp * st * cs, sp * ss + cp * st * cs,
           ct * ss, cp * cs + sp * st * ss, -sp * cs + cp * st * ss);
  }

  lemma EulerRowDot02(sp: real, cp: real, st: real, ct: real, ss: real, cs: real)
    ensures Dot(EulerMatrix(sp, cp, st, ct, ss, cs)[0], EulerMatrix(sp, cp, st, ct, ss, cs)[2])
         == (ct * cs) * (-st) + (-cp * ss + sp * st * cs) * (sp * ct)
          + (sp * ss + cp * st * cs) * (cp * ct)
  {
    var r := EulerMatrix(sp, cp, st, ct, ss, cs);
    Dot3Of(r[0], r[2], ct * cs, -cp * ss + sp * st * cs, sp * ss + cp * st * cs,
           -st, sp * ct, cp * ct);
  }

  lemma EulerRowDot11(sp: real, cp: real, st: real, ct: real, ss: real, cs: real)
    ensures Dot(EulerMatrix(sp, cp, st, ct, ss, cs)[1], EulerMatrix(sp, cp, st, ct, ss, cs)[1])
         == (ct * ss) * (ct * ss) + (cp * cs + sp * st * ss) * (cp * cs + sp * st * ss)
          + (-sp * cs + cp * st * ss) * (-sp * cs + cp * st * ss)
  {
    var r := EulerMatrix(sp, cp, st, ct, ss, cs);
    Dot3Of(r[1], r[1], ct * ss, cp * cs + sp * st * ss, -sp * cs + cp * st * ss,
           ct * ss, cp * cs + sp * st * ss, -sp * cs + cp * st * ss);
  }

  lemma EulerRowDot12(sp: real, cp: real, st: real, ct: real, ss: real, cs: real)
    ensures Dot(EulerMatrix(sp, cp, st, ct, ss, cs)[1], EulerMatrix(sp, cp, st, ct, ss, cs)[2])
         == (ct * ss) * (-st) + (cp * cs + sp * st * ss) * (sp * ct)
          + (-sp * cs + cp * st * ss) * (cp * ct)
  {
    var r := EulerMatrix(sp, cp, st, ct, ss, cs);
    Dot3Of(r[1], r[2], ct * ss, cp * cs + sp * st * ss, -sp * cs + cp * st * ss,
           -st, sp * ct, cp * ct);
  }

  lemma EulerRowDot22(sp: real, cp: real, st: real, ct: real, ss: real, cs: real)
    ensures Dot(EulerMatrix(sp, cp, st, ct, ss, cs)[2], EulerMatrix(sp, cp, st, ct, ss, cs)[2])
         == (-st) * (-st) + (sp * ct) * (sp * ct) + (cp * ct) * (cp * ct)
  {
    var r := EulerMatrix(sp, cp, st, ct, ss, cs);
    Dot3Of(r[2], r[2], -st, sp * ct, cp * ct,
           -st, sp * ct, cp * ct);
  }

  /** `EulerMatrix · EulerMatrixᵀ` is the identity under the same identities. */
  lemma EulerOrthogonal(sp: real, cp: real, st: real, ct: real, ss: real, cs: real)
    requires sp * sp + cp * cp == 1.0 && st * st + ct * ct == 1.0 && ss * ss + cs * cs == 1.0
    ensures MatMul(EulerMatrix(sp, cp, st, ct, ss, cs), Transpose(EulerMatrix(sp, cp, st, ct, ss, cs), 3), 3)
         == Identity(3)
  {
    var r := EulerMatrix(sp, cp, st, ct, ss, cs);
    EulerAlgebra(sp, cp, st, ct, ss, cs);
    EulerRowDot00(sp, cp, st, ct, ss, cs);
    EulerRowDot01(sp, cp, st, ct, ss, cs);
    EulerRowDot02(sp, cp, st, ct, ss, cs);
    EulerRowDot11(sp, cp, st, ct, ss, cs);
    EulerRowDot12(sp, cp, st, ct, ss, cs);
    EulerRowDot22(sp, cp, st, ct, ss, cs);
    DotCommutes(r[1], r[0]);
    DotCommutes(r[2], r[0]);
    DotCommutes(r[2], r[1]);
    var t := Transpose(r, 3);
    var p := MatMul(r, t, 3);
    forall i, j | 0 <= i < 3 && 0 <= j < 3 ensures p[i][j] == Identity(3)[i][j] {
      assert Column(t, j) == r[j];
      assert p[i][j] == Dot(r[i], r[j]);
      assert Identity(3)[i][j] == if i == j then 1.0 else 0.0;
    }
    MatrixExt(p, Identity(3), 3, 3);
  }

  /** `rot3` is orthogonal: `R · Rᵀ = I`. */
  lemma Rot3Orthogonal(e: Elementary, ph: real, th: real, ps: real)
    requires Lawful(e)
    ensures MatMul(Rot3(e, ph, th, ps), Transpose(Rot3(e, ph, th, ps), 3), 3) == Identity(3)
  {
    EulerOrthogonal(e.sin(ph), e.cos(ph), e.sin(th), e.cos(th), e.sin(ps), e.cos(ps));
  }

  /** `rot3(0, 0, 0)` is the identity. */
  lemma Rot3Zero(e: Elementary)
    requires Lawful(e)
    ensures Rot3(e, 0.0, 0.0, 0.0) == Identity(3)
  {
    var r := Rot3(e, 0.0, 0.0, 0.0);
    assert r == EulerMatrix(0.0, 1.0, 0.0, 1.0, 0.0, 1.0);
    forall i, j | 0 <= i < 3 && 0 <= j < 3 ensures r[i][j] == Identity(3)[i][j] {
    }
    MatrixExt(r, Identity(3), 3, 3);
  }

  /** With no rotation and no translation `rot_trans` returns its points. */
  lemma RotTransZero(e: Elementary, xyz: Matrix)
    requires Lawful(e) && IsMatrix(xyz, |xyz|, 3)
    ensures RotTrans(e, xyz, [0.0, 0.0, 0.0], [0.0, 0.0, 0.0]) == xyz
  {
    Rot3Zero(e);
    MatMulIdentity(xyz, 3);
    AddRowZero(xyz, 3);
    assert seq(3, j => 0.0) == [0.0, 0.0, 0.0];
  }

  // ---------------------------------------------------------------------
  // The objective of the derivative-free fit

  /** The features `score` hands to the mixture: the spatial columns moved by
      `rot_trans(new_head[:, :3], params[:3], params[3:])`, the others copied. */
  function ScoredFeatures(e: Elementary, params: seq<real>, X: Matrix, d: nat): (r: Matrix)
    requires |params| == 6 && d >= 3 && IsMatrix(X, |X|, d)
    ensures IsMatrix(r, |X|, d)
  {
    HStack(RotTrans(e, TakeCols(X, 0, 3), params[..3], params[3..]), TakeCols(X, 3, d))
  }

  /** `score(params, new_head, the_gmm)`: the negated mean log density of the
      transformed features. */
  function Score(e: Elementary, params: seq<real>, X: Matrix, d: nat, g: Density.Mixture): real
    requires |params| == 6 && d >= 3 && IsMatrix(X, |X|, d) && |X| > 0 && Density.WellFormed(g, d)
  {
    -Density.GmmScore(e, g, ScoredFeatures(e, params, X, d), d)
  }

  /** Row `i` of the scored features: columns 0 to 2 are `row[:3] · R + trans`
      for `R = rot3(*params[:3])` and `trans = params[3:]`, the other columns are
      the row's own. */
  lemma ScoredFeaturesColumns(e: Elementary, params: seq<real>, X: Matrix, d: nat, i: nat, j: nat)
    requires |params| == 6 && d >= 3 && IsMatrix(X, |X|, d) && i < |X| && j < d
    ensures ScoredFeatures(e, params, X, d)[i][j]
         == if j < 3 then Dot(X[i][..3], Column(Rot3(e, params[0], params[1], params[2]), j)) + params[3 + j]
            else X[i][j]
  {
    var xyz := TakeCols(X, 0, 3);
    var moved := RotTrans(e, xyz, params[..3], params[3..]);
    assert ScoredFeatures(e, params, X, d)[i] == moved[i] + X[i][3..d];
    assert xyz[i] == X[i][..3];
  }

  /** At the all-zero parameters the scored features are the input itself. */
  lemma ScoredFeaturesAtZero(e: Elementary, X: Matrix, d: nat)
    requires Lawful(e) && d >= 3 && IsMatrix(X, |X|, d)
    ensures ScoredFeatures(e, [0.0, 0.0, 0.0, 0.0, 0.0, 0.0], X, d) == X
  {
    var zeros := [0.0, 0.0, 0.0, 0.0, 0.0, 0.0];
    var xyz := TakeCols(X, 0, 3);
    assert zeros[..3] == [0.0, 0.0, 0.0] && zeros[3..] == [0.0, 0.0, 0.0];
    RotTransZero(e, xyz);
    var r := ScoredFeatures(e, zeros, X, d);
    forall i | 0 <= i < |X| ensures r[i] == X[i] {
      assert r[i] == xyz[i] + X[i][3..d];
      assert X[i] == X[i][..3] + X[i][3..d];
    }
  }

  /** The objective at the all-zero parameters is the initial score. */
  lemma ScoreAtZero(e: Elementary, X: Matrix, d: nat, g: Density.Mixture)
    requires Lawful(e) && d >= 3 && IsMatrix(X, |X|, d) && |X| > 0 && Density.WellFormed(g, d)
    ensures Score(e, [0.0, 0.0, 0.0, 0.0, 0.0, 0.0], X, d, g) == -Density.GmmScore(e, g, X, d)
  {
    ScoredFeaturesAtZero(e, X, d);
  }

  // ---------------------------------------------------------------------
  // The derivative-free driver

  /** The arithmetic of `fit_xfm_fmin`: the scan's features and face lists,
      the mixture and its normalisation statistics come in as values, and the
      optimiser `minimise` maps the squashed features and the seed to the
      optimal parameters. */
  method FitXfmFmin(e: Elementary, newFeatures: array2<real>, newPolys: Polys, g: Density.Mixture,
                    means: seq<real>, stds: seq<real>, minimise: (Matrix, seq<real>) -> seq<real>,
                    init: seq<real> := [0.0, 0.0, 0.0, 0.0, 0.0, 0.0])
    returns (unsqNewXyz: array2<real>, polys: Polys, optParams: seq<real>, report: Report)
    requires newFeatures.Length0 > 0 && newFeatures.Length1 >= 6
    requires NormStats(means, stds, newFeatures.Length1) && Density.WellFormed(g, newFeatures.Length1)
    requires |init| == 6 && forall m, s :: |minimise(m, s)| == |s|
    ensures var d := newFeatures.Length1;
            var sq := Squashed(e, ArrayRows(newFeatures), d, means, stds, DefaultTanh);
            && report.initScore == -Density.GmmScore(e, g, sq, d)
            && (report.misaligned <==> report.initScore > MisalignmentThreshold)
            && optParams == minimise(sq, init)
            && report.finalScore == Score(e, optParams, sq, d, g)
            && polys == newPolys
            && fresh(unsqNewXyz)
            && ArrayRows(unsqNewXyz)
               == Unsquashed(RotTrans(e, TakeCols(sq, 0, 3), optParams[..3], optParams[3..]), 3, means, stds)
  {
    var n, d := newFeatures.Length0, newFeatures.Length1;
    assert ValidChannels(DefaultTanh, d);
    var sqArr := SquashFeatures(e, newFeatures, means, stds);
    var sq := ArrayRows(sqArr);
    var initScore := -Density.GmmScore(e, g, sq, d);
    var misaligned := initScore > MisalignmentThreshold;
    optParams := minimise(sq, init);
    var newXyz := RotTrans(e, TakeCols(sq, 0, 3), optParams[..3], optParams[3..]);
    var finalScore := -Density.GmmScore(e, g, HStack(newXyz, TakeCols(sq, 3, d)), d);
    var xyzArr := new real[n, 3]((i, j) => if 0 <= i < n && 0 <= j < 3 then newXyz[i][j] else 0.0);
    assert ArrayRows(xyzArr) == newXyz by {
      MatrixExt(ArrayRows(xyzArr), newXyz, n, 3);
    }
    unsqNewXyz := UnsquashXyz(xyzArr, means, stds);
    polys := newPolys;
    report := Report(initScore, finalScore, misaligned);
  }
}
