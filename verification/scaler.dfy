/**
 * The two min-max scalers of the grouping utilities: `matrix_MinMaxScaler`, which scales a
 * whole matrix by its global range, and the per-column scaler (sklearn's `MinMaxScaler`
 * with its default feature range [0, 1]) used for 1-d variables.
 */
module Scaler {
  import opened Wrappers
  import opened Numeric
  import opened Matrices

  /** A matrix with at least one entry: numpy's `max`/`min` reject an empty array. */
  predicate NonEmpty(m: Matrix)
  {
    |m| > 0 && |m[0]| > 0 && IsMatrix(m, |m|, |m[0]|)
  }

  predicate HasNan(m: Matrix)
  {
    exists i, j :: 0 <= i < |m| && 0 <= j < |m[i]| && m[i][j].None?
  }

  /** All the entries of `m`, row after row. */
  function Flat(m: Matrix): seq<Cell>
  {
    if |m| == 0 then [] else Flat(m[..|m| - 1]) + m[|m| - 1]
  }

  lemma {:induction false} FlatMembers(m: Matrix)
    ensures forall i, j :: 0 <= i < |m| && 0 <= j < |m[i]| ==> m[i][j] in Flat(m)
    ensures forall c :: c in Flat(m) ==> exists i, j :: 0 <= i < |m| && 0 <= j < |m[i]| && m[i][j] == c
  {
    if |m| > 0 {
      var init := m[..|m| - 1];
      FlatMembers(init);
      forall i, j | 0 <= i < |m| - 1 && 0 <= j < |m[i]| ensures m[i][j] in Flat(m) {
        assert init[i] == m[i];
      }
      forall c | c in Flat(m)
        ensures exists i, j :: 0 <= i < |m| && 0 <= j < |m[i]| && m[i][j] == c
      {
        if c in Flat(init) {
          var i, j :| 0 <= i < |init| && 0 <= j < |init[i]| && init[i][j] == c;
          assert m[i][j] == c;
        } else {
          assert c in m[|m| - 1];
          var j :| 0 <= j < |m[|m| - 1]| && m[|m| - 1][j] == c;
        }
      }
    }
  }

  /** A NaN-free matrix with an entry has a number to take the minimum and maximum of. */
  lemma FlatHasNumber(m: Matrix)
    requires NonEmpty(m) && !HasNan(m)
    ensures |Present(Flat(m))| > 0
  {
    FlatMembers(m);
    PresentMembers(Flat(m));
    assert m[0][0].value in Present(Flat(m));
  }

  /** `np.min(matrix)` of a NaN-free non-empty matrix. */
  function MatMin(m: Matrix): real
    requires NonEmpty(m) && !HasNan(m)
  {
    FlatHasNumber(m);
    SeqMin(Present(Flat(m)))
  }

  /** `np.max(matrix)` of a NaN-free non-empty matrix. */
  function MatMax(m: Matrix): real
    requires NonEmpty(m) && !HasNan(m)
  {
    FlatHasNumber(m);
    SeqMax(Present(Flat(m)))
  }

  /** The minimum and the maximum bound every entry and are entries themselves. */
  lemma MatBounds(m: Matrix)
    requires NonEmpty(m) && !HasNan(m)
    ensures forall i, j :: 0 <= i < |m| && 0 <= j < |m[i]| ==> MatMin(m) <= m[i][j].value <= MatMax(m)
    ensures exists i, j :: 0 <= i < |m| && 0 <= j < |m[i]| && m[i][j] == Some(MatMin(m))
    ensures exists i, j :: 0 <= i < |m| && 0 <= j < |m[i]| && m[i][j] == Some(MatMax(m))
  {
    FlatMembers(m);
    PresentMembers(Flat(m));
    forall i, j | 0 <= i < |m| && 0 <= j < |m[i]| ensures MatMin(m) <= m[i][j].value <= MatMax(m) {
      assert m[i][j].value in Present(Flat(m));
    }
    assert Some(MatMin(m)) in Flat(m);
    assert Some(MatMax(m)) in Flat(m);
  }

  /** Where `x` lands when [mn, mx] is mapped linearly onto [lo, hi]. */
  function Rescale(x: real, mn: real, mx: real, lo: real, hi: real): real
    requires mn != mx
  {
    (x - mn) / (mx - mn) * (hi - lo) + lo
  }

  /** Each entry of `row` rescaled from [mn, mx] onto [lo, hi]; a NaN stays NaN. */
  function RescaleRow(row: seq<Cell>, mn: real, mx: real, lo: real, hi: real): (r: seq<Cell>)
    requires mn != mx
    ensures |r| == |row|
  {
    if |row| == 0 then []
    else
      var x := row[|row| - 1];
      RescaleRow(row[..|row| - 1], mn, mx, lo, hi) + [if x.None? then None else Some(Rescale(x.value, mn, mx, lo, hi))]
  }

  lemma {:induction false} RescaleRowAt(row: seq<Cell>, mn: real, mx: real, lo: real, hi: real, j: nat)
    requires mn != mx && j < |row| && row[j].Some?
    ensures RescaleRow(row, mn, mx, lo, hi)[j] == Some(Rescale(row[j].value, mn, mx, lo, hi))
  {
    if j < |row| - 1 {
      RescaleRowAt(row[..|row| - 1], mn, mx, lo, hi, j);
    }
  }

  /**
   * `matrix_MinMaxScaler(matrix, scaled_min, scaled_max)`. A NaN entry makes numpy's max
   * and min NaN, so the equality test fails and the arithmetic turns every entry into NaN.
   */
  function MinMaxScale(m: Matrix, lo: real, hi: real): (r: Matrix)
    requires NonEmpty(m)
    ensures IsMatrix(r, |m|, |m[0]|)
  {
    if HasNan(m) then seq(|m|, i requires 0 <= i < |m| => seq(|m[i]|, j => None))
    else if MatMax(m) == MatMin(m) then m
    else
      var mn, mx := MatMin(m), MatMax(m);
      seq(|m|, i requires 0 <= i < |m| => RescaleRow(m[i], mn, mx, lo, hi))
  }

  /** A single NaN entry makes every entry of the scaled matrix NaN. */
  lemma ScaleNan(m: Matrix, lo: real, hi: real)
    requires NonEmpty(m) && HasNan(m)
    ensures forall i, j :: 0 <= i < |m| && 0 <= j < |m[i]| ==> MinMaxScale(m, lo, hi)[i][j].None?
  {
  }

  lemma PositiveProduct(a: real, b: real)
    requires a > 0.0 && b > 0.0
    ensures a * b > 0.0
  {
  }

  lemma UnitQuotient(a: real, d: real)
    requires 0.0 <= a <= d && d > 0.0
    ensures 0.0 <= a / d <= 1.0
  {
  }

  lemma ScaledUnit(t: real, w: real)
    requires 0.0 <= t <= 1.0 && 0.0 <= w
    ensures 0.0 <= t * w <= w
  {
  }

  lemma RescaleBounds(x: real, mn: real, mx: real, lo: real, hi: real)
    requires mn <= x <= mx && mn < mx && lo <= hi
    ensures lo <= Rescale(x, mn, mx, lo, hi) <= hi
    ensures x == mn ==> Rescale(x, mn, mx, lo, hi) == lo
    ensures x == mx ==> Rescale(x, mn, mx, lo, hi) == hi
  {
    UnitQuotient(x - mn, mx - mn);
    ScaledUnit((x - mn) / (mx - mn), hi - lo);
  }

  /** A constant matrix (max equal to min) comes back unchanged. */
  lemma ScaleConstant(m: Matrix, lo: real, hi: real)
    requires NonEmpty(m)
    requires forall i, j :: 0 <= i < |m| && 0 <= j < |m[i]| ==> m[i][j] == m[0][0]
    requires m[0][0].Some?
    ensures MinMaxScale(m, lo, hi) == m
  {
    assert !HasNan(m) by {
      assert forall i, j :: 0 <= i < |m| && 0 <= j < |m[i]| ==> m[i][j].Some?;
    }
    MatBounds(m);
    var mn, mx := MatMin(m), MatMax(m);
    var i, j :| 0 <= i < |m| && 0 <= j < |m[i]| && m[i][j] == Some(mn);
    var i', j' :| 0 <= i' < |m| && 0 <= j' < |m[i']| && m[i'][j'] == Some(mx);
  }

  /** One entry of a NaN-free matrix that is not constant, rescaled into [lo, hi]. */
  lemma ScaleEntry(m: Matrix, lo: real, hi: real, i: nat, j: nat)
    requires NonEmpty(m) && !HasNan(m) && MatMin(m) < MatMax(m) && lo <= hi
    requires i < |m| && j < |m[i]|
    ensures |MinMaxScale(m, lo, hi)[i]| == |m[i]|
    ensures MinMaxScale(m, lo, hi)[i][j].Some?
    ensures lo <= MinMaxScale(m, lo, hi)[i][j].value <= hi
    ensures m[i][j] == Some(MatMin(m)) ==> MinMaxScale(m, lo, hi)[i][j] == Some(lo)
    ensures m[i][j] == Some(MatMax(m)) ==> MinMaxScale(m, lo, hi)[i][j] == Some(hi)
  {
    var mn, mx := MatMin(m), MatMax(m);
    MatBounds(m);
    assert m[i][j].Some?;
    assert MinMaxScale(m, lo, hi)[i] == RescaleRow(m[i], mn, mx, lo, hi);
    RescaleRowAt(m[i], mn, mx, lo, hi, j);
    RescaleBounds(m[i][j].value, mn, mx, lo, hi);
  }

  /**
   * A NaN-free matrix that is not constant is mapped into [lo, hi], its minimum onto `lo`
   * and its maximum onto `hi`; every entry is a number.
   */
  lemma ScaleRange(m: Matrix, lo: real, hi: real)
    requires NonEmpty(m) && !HasNan(m) && lo <= hi
    requires exists i, j :: 0 <= i < |m| && 0 <= j < |m[i]| && m[i][j] != m[0][0]
    ensures var r := MinMaxScale(m, lo, hi);
      && (forall i, j :: 0 <= i < |r| && 0 <= j < |r[i]| ==> r[i][j].Some? && lo <= r[i][j].value <= hi)
      && (exists i, j :: 0 <= i < |r| && 0 <= j < |r[i]| && r[i][j] == Some(lo))
      && (exists i, j :: 0 <= i < |r| && 0 <= j < |r[i]| && r[i][j] == Some(hi))
      && (forall i, j :: 0 <= i < |r| && 0 <= j < |r[i]| && m[i][j] == Some(MatMin(m)) ==> r[i][j] == Some(lo))
      && (forall i, j :: 0 <= i < |r| && 0 <= j < |r[i]| && m[i][j] == Some(MatMax(m)) ==> r[i][j] == Some(hi))
  {
    MatBounds(m);
    var mn, mx := MatMin(m), MatMax(m);
    var i0, j0 :| 0 <= i0 < |m| && 0 <= j0 < |m[i0]| && m[i0][j0] != m[0][0];
    assert mn < mx by {
      assert mn <= m[i0][j0].value <= mx && mn <= m[0][0].value <= mx;
    }
    var r: Matrix := MinMaxScale(m, lo, hi);
    forall i, j | 0 <= i < |r| && 0 <= j < |r[i]|
      ensures r[i][j].Some? && lo <= r[i][j].value <= hi
      ensures m[i][j] == Some(mn) ==> r[i][j] == Some(lo)
      ensures m[i][j] == Some(mx) ==> r[i][j] == Some(hi)
    {
      ScaleEntry(m, lo, hi, i, j);
    }
    var a, b :| 0 <= a < |m| && 0 <= b < |m[a]| && m[a][b] == Some(mn);
    var c, d :| 0 <= c < |m| && 0 <= d < |m[c]| && m[c][d] == Some(mx);
    ScaleEntry(m, lo, hi, a, b);
    ScaleEntry(m, lo, hi, c, d);
  }

  /**
   * sklearn's `MinMaxScaler` on one value of a column: NaNs are ignored when the column's
   * minimum and maximum are taken and kept in the output; a column of zero range is divided
   * by 1 instead, which sends all of it to 0.
   */
  function ScaleInColumn(x: Cell, col: seq<Cell>): Cell
  {
    var p := Present(col);
    if x.None? || |p| == 0 then None
    else
      var mn, mx := SeqMin(p), SeqMax(p);
      if mx == mn then Some(x.value - mn)
      else Some(Rescale(x.value, mn, mx, 0.0, 1.0))
  }

  /** `MinMaxScaler().fit_transform(m)` for a `|m|` x `cols` matrix; sklearn rejects an empty one. */
  function ColumnScale(m: Matrix, cols: nat): (r: Result<Matrix>)
    requires IsMatrix(m, |m|, cols)
    ensures r.Err? <==> |m| == 0 || cols == 0
    ensures r.Ok? ==> IsMatrix(r.value, |m|, cols)
  {
    if |m| == 0 || cols == 0 then Err(ValueError("MinMaxScaler needs at least one sample and one feature"))
    else Ok(seq(|m|, i requires 0 <= i < |m| =>
              seq(cols, j requires 0 <= j < cols => ScaleInColumn(m[i][j], Column(m, j)))))
  }

  /**
   * Column-wise scaling keeps the NaN entries and maps every number into [0, 1]; in a
   * column that is not constant the smallest number becomes 0 and the largest 1, and a
   * constant column becomes all 0.
   */
  lemma ColumnScaleEntry(m: Matrix, cols: nat, i: nat, j: nat)
    requires IsMatrix(m, |m|, cols) && i < |m| && j < cols
    ensures var r := ColumnScale(m, cols).value;
      var p := Present(Column(m, j));
      && (r[i][j].None? <==> m[i][j].None?)
      && (r[i][j].Some? ==> 0.0 <= r[i][j].value <= 1.0)
      && (m[i][j].Some? ==> |p| > 0)
      && (m[i][j].Some? && m[i][j].value == SeqMin(p) ==> r[i][j] == Some(0.0))
      && (m[i][j].Some? && m[i][j].value == SeqMax(p) && SeqMin(p) < SeqMax(p) ==> r[i][j] == Some(1.0))
      && (m[i][j].Some? && SeqMin(p) == SeqMax(p) ==> r[i][j] == Some(0.0))
  {
    var col := Column(m, j);
    PresentMembers(col);
    if m[i][j].Some? {
      assert col[i] == m[i][j];
      var p := Present(col);
      var x, mn, mx := m[i][j].value, SeqMin(p), SeqMax(p);
      assert mn <= x <= mx;
      assert x in p;
      if mx != mn {
        RescaleBounds(x, mn, mx, 0.0, 1.0);
      }
    }
  }
}
