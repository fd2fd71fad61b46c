/** Dense numpy matrices as sequences of rows of possibly-NaN cells. */
module Matrices {
  import opened Wrappers
  import opened Numeric

  type Matrix = seq<seq<Cell>>

  /** `m` has the shape `rows` x `cols` (a numpy 2-d array is always rectangular). */
  predicate IsMatrix(m: Matrix, rows: nat, cols: nat)
  {
    |m| == rows && forall i :: 0 <= i < |m| ==> |m[i]| == cols
  }

  /** Column `t` of `m`, top to bottom. */
  function Column(m: Matrix, t: nat): (c: seq<Cell>)
    requires forall i :: 0 <= i < |m| ==> t < |m[i]|
    ensures |c| == |m| && forall i :: 0 <= i < |m| ==> c[i] == m[i][t]
  {
    seq(|m|, i requires 0 <= i < |m| => m[i][t])
  }

  /** A matrix with `n` rows and no column. */
  function NoColumns(n: nat): (m: Matrix)
    ensures IsMatrix(m, n, 0)
  {
    seq(n, i => [])
  }

  /** `np.zeros((rows, cols))`. */
  function Zeros(rows: nat, cols: nat): (m: Matrix)
    ensures IsMatrix(m, rows, cols)
    ensures forall i, j :: 0 <= i < rows && 0 <= j < cols ==> m[i][j] == Some(0.0)
  {
    seq(rows, i => seq(cols, j => Some(0.0)))
  }

  /** `np.concatenate((a, b), axis=1)`: the rows of `a` extended by the rows of `b`. */
  function HConcat(a: Matrix, b: Matrix): (r: Matrix)
    requires |a| == |b|
    ensures |r| == |a| && forall i :: 0 <= i < |a| ==> r[i] == a[i] + b[i]
  {
    seq(|a|, i requires 0 <= i < |a| => a[i] + b[i])
  }

  /** `np.delete(m, 0, 1)`: every row without its first entry. */
  function DropFirstColumn(m: Matrix): (r: Matrix)
    requires forall i :: 0 <= i < |m| ==> |m[i]| > 0
    ensures |r| == |m| && forall i :: 0 <= i < |m| ==> r[i] == m[i][1..]
  {
    seq(|m|, i requires 0 <= i < |m| => m[i][1..])
  }

  /** `m * w` for a numeric weight `w`. */
  function Weighted(m: Matrix, w: real): (r: Matrix)
    ensures |r| == |m|
    ensures forall i :: 0 <= i < |m| ==> |r[i]| == |m[i]|
    ensures forall i, j :: 0 <= i < |m| && 0 <= j < |m[i]| ==> r[i][j] == Mul(m[i][j], Some(w))
  {
    seq(|m|, i requires 0 <= i < |m| => seq(|m[i]|, j requires 0 <= j < |m[i]| => Mul(m[i][j], Some(w))))
  }

  /** Element-wise `a + b` of two matrices of the same shape. */
  function Plus(a: Matrix, b: Matrix): (r: Matrix)
    requires |a| == |b| && forall i :: 0 <= i < |a| ==> |a[i]| == |b[i]|
    ensures |r| == |a|
    ensures forall i :: 0 <= i < |a| ==> |r[i]| == |a[i]|
    ensures forall i, j :: 0 <= i < |a| && 0 <= j < |a[i]| ==> r[i][j] == Add(a[i][j], b[i][j])
  {
    seq(|a|, i requires 0 <= i < |a| => seq(|a[i]|, j requires 0 <= j < |a[i]| => Add(a[i][j], b[i][j])))
  }

  /** The matrix whose column `j` is column `cols[j]` of `m` (a label-based column selection). */
  function SelectColumns(m: Matrix, cols: seq<nat>): (r: Matrix)
    requires forall i, j :: 0 <= i < |m| && 0 <= j < |cols| ==> cols[j] < |m[i]|
    ensures IsMatrix(r, |m|, |cols|)
    ensures forall i, j :: 0 <= i < |m| && 0 <= j < |cols| ==> r[i][j] == m[i][cols[j]]
  {
    seq(|m|, i requires 0 <= i < |m| => seq(|cols|, j requires 0 <= j < |cols| => m[i][cols[j]]))
  }

  /** The rows `ids[0], ids[1], ...` of `m`, in that order (numpy fancy indexing). */
  function SelectRows(m: Matrix, ids: seq<nat>): (r: Matrix)
    requires forall k :: 0 <= k < |ids| ==> ids[k] < |m|
    ensures |r| == |ids| && forall k :: 0 <= k < |ids| ==> r[k] == m[ids[k]]
  {
    seq(|ids|, k requires 0 <= k < |ids| => m[ids[k]])
  }

  /** `m.T` for a matrix with `cols` columns. */
  function Transpose(m: Matrix, cols: nat): (r: Matrix)
    requires IsMatrix(m, |m|, cols)
    ensures IsMatrix(r, cols, |m|)
    ensures forall j, i :: 0 <= j < cols && 0 <= i < |m| ==> r[j][i] == m[i][j]
  {
    seq(cols, j requires 0 <= j < cols => Column(m, j))
  }

  /** `b.mean(dim=rows).mean(dim=cols)` for a `|b|` x `cols` block, NaN-skipping at both steps. */
  function BlockMean(b: Matrix, cols: nat): Cell
    requires IsMatrix(b, |b|, cols)
  {
    NanMean(seq(cols, t requires 0 <= t < cols => NanMean(Column(b, t))))
  }

  /**
   * The mean of a block over both of its axes is a number exactly when one of its
   * entries is: a block with some NaN entries still has a mean.
   */
  lemma BlockMeanDefined(b: Matrix, cols: nat)
    requires IsMatrix(b, |b|, cols)
    ensures BlockMean(b, cols).Some? <==> exists i, t :: 0 <= i < |b| && 0 <= t < cols && b[i][t].Some?
  {
    var means := seq(cols, t requires 0 <= t < cols => NanMean(Column(b, t)));
    NanMeanDefined(means);
    forall t | 0 <= t < cols
      ensures means[t].Some? <==> exists i :: 0 <= i < |b| && b[i][t].Some?
    {
      NanMeanDefined(Column(b, t));
    }
    if BlockMean(b, cols).Some? {
      var t :| 0 <= t < cols && means[t].Some?;
      var i :| 0 <= i < |b| && b[i][t].Some?;
    } else {
      forall i, t | 0 <= i < |b| && 0 <= t < cols ensures b[i][t].None? {
        assert means[t].None?;
      }
    }
  }
}
