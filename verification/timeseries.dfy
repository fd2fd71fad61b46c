/** `preprocessTimeSeries`: per-component scaled blocks of each time-series variable, side by side. */
module TimeSeries {
  import opened Wrappers
  import opened Numeric
  import opened Matrices
  import opened Scaler
  import opened Dataset

  /** Width of `k` blocks of `steps` columns, kept linear for the solver (see `SpanIsProduct`). */
  function Span(k: nat, steps: nat): nat
  {
    if k == 0 then 0 else Span(k - 1, steps) + steps
  }

  lemma {:induction false} SpanIsProduct(k: nat, steps: nat)
    ensures Span(k, steps) == k * steps
  {
    if k > 0 {
      SpanIsProduct(k - 1, steps);
    }
  }

  lemma {:induction false} SpanMonotone(k: nat, l: nat, steps: nat)
    requires k <= l
    ensures Span(k, steps) <= Span(l, steps)
  {
    if k < l {
      SpanMonotone(k, l - 1, steps);
    }
  }

  /** The block of each of components `ids`: its slice scaled to [0, 1] on its own. */
  function ScaledBlocks(cube: Cube, n: nat, steps: nat, ids: seq<nat>): (r: seq<Matrix>)
    requires IsCube(cube, n, steps) && n > 0 && steps > 0
    requires forall k :: 0 <= k < |ids| ==> ids[k] < |cube|
    ensures |r| == |ids| && forall k :: 0 <= k < |ids| ==> IsMatrix(r[k], n, steps)
  {
    seq(|ids|, k requires 0 <= k < |ids| => MinMaxScale(cube[ids[k]], 0.0, 1.0))
  }

  /** Blocks `blocks[0]`, ..., `blocks[j - 1]`, concatenated column-wise onto `n` empty rows. */
  function ConcatBlocks(blocks: seq<Matrix>, n: nat, steps: nat, j: nat): (r: Matrix)
    requires forall k :: 0 <= k < |blocks| ==> IsMatrix(blocks[k], n, steps)
    requires j <= |blocks|
    ensures IsMatrix(r, n, Span(j, steps))
  {
    if j == 0 then NoColumns(n)
    else HConcat(ConcatBlocks(blocks, n, steps, j - 1), blocks[j - 1])
  }

  /** Column `Span(k, steps) + t` of the concatenation is column `t` of block `k`. */
  lemma {:induction false} ConcatBlocksAt(blocks: seq<Matrix>, n: nat, steps: nat, j: nat, k: nat, i: nat, t: nat)
    requires forall k :: 0 <= k < |blocks| ==> IsMatrix(blocks[k], n, steps)
    requires j <= |blocks| && k < j && i < n && t < steps
    ensures Span(k, steps) + t < Span(j, steps)
    ensures ConcatBlocks(blocks, n, steps, j)[i][Span(k, steps) + t] == blocks[k][i][t]
  {
    var prev := ConcatBlocks(blocks, n, steps, j - 1);
    var x := Span(k, steps) + t;
    assert ConcatBlocks(blocks, n, steps, j)[i] == prev[i] + blocks[j - 1][i];
    SpanMonotone(k + 1, j, steps);
    if k < j - 1 {
      ConcatBlocksAt(blocks, n, steps, j - 1, k, i, t);
    } else {
      assert |prev[i]| == Span(k, steps);
    }
  }

  /**
   * The feature matrix of one time-series variable: its valid components' scaled blocks.
   * A cube without entries has no valid component (`ValidBlocksNonEmpty`), hence no column.
   */
  function Features(cube: Cube, n: nat, steps: nat): (r: Matrix)
    requires IsCube(cube, n, steps)
    ensures |r| == n
  {
    if n == 0 || steps == 0 then NoColumns(n)
    else
      var ids := ValidIds(TimeSeriesMeans(cube, n, steps));
      ConcatBlocks(ScaledBlocks(cube, n, steps, ids), n, steps, |ids|)
  }

  /** The feature matrix has one row per region and `steps` columns per valid component. */
  lemma FeaturesShape(cube: Cube, n: nat, steps: nat)
    requires IsCube(cube, n, steps)
    ensures IsMatrix(Features(cube, n, steps), n, Span(|ValidIds(TimeSeriesMeans(cube, n, steps))|, steps))
  {
    ValidBlocksNonEmpty(cube, n, steps);
  }

  /**
   * The valid components are listed in ascending order, and a component is among them
   * iff one of its entries is a number: one with no number contributes no column.
   */
  lemma FeaturesComponents(cube: Cube, n: nat, steps: nat)
    requires IsCube(cube, n, steps)
    ensures var ids := ValidIds(TimeSeriesMeans(cube, n, steps));
      && (forall k, l :: 0 <= k < l < |ids| ==> ids[k] < ids[l])
      && (forall c :: 0 <= c < |cube| ==>
            (c in ids <==> exists i, t :: 0 <= i < n && 0 <= t < steps && cube[c][i][t].Some?))
  {
    ValidIdsSpec(TimeSeriesMeans(cube, n, steps));
    forall c | 0 <= c < |cube|
      ensures c in ValidIds(TimeSeriesMeans(cube, n, steps))
        <==> exists i, t :: 0 <= i < n && 0 <= t < steps && cube[c][i][t].Some?
    {
      BlockValid(cube, n, steps, c);
    }
  }

  /**
   * The `k`-th valid component (ascending id) owns the `steps` columns from `Span(k, steps)`
   * (that is k * steps) on, which hold its slice scaled to [0, 1] on its own.
   */
  lemma FeaturesBlock(cube: Cube, n: nat, steps: nat, k: nat, i: nat, t: nat)
    requires IsCube(cube, n, steps)
    requires k < |ValidIds(TimeSeriesMeans(cube, n, steps))| && i < n && t < steps
    ensures var ids := ValidIds(TimeSeriesMeans(cube, n, steps));
      && ids[k] < |cube| && NonEmpty(cube[ids[k]])
      && Span(k, steps) + t < Span(|ids|, steps)
      && Features(cube, n, steps)[i][Span(k, steps) + t] == MinMaxScale(cube[ids[k]], 0.0, 1.0)[i][t]
  {
    var ids := ValidIds(TimeSeriesMeans(cube, n, steps));
    ValidBlocksNonEmpty(cube, n, steps);
    ConcatBlocksAt(ScaledBlocks(cube, n, steps, ids), n, steps, |ids|, k, i, t);
  }

  /** Rows of `m` are a zero followed by the rows of the first `j` blocks. */
  ghost predicate ZeroThenBlocks(m: Matrix, blocks: seq<Matrix>, n: nat, steps: nat, j: nat)
    requires forall k :: 0 <= k < |blocks| ==> IsMatrix(blocks[k], n, steps)
    requires j <= |blocks|
  {
    |m| == n && forall i :: 0 <= i < n ==> m[i] == [Some(0.0)] + ConcatBlocks(blocks, n, steps, j)[i]
  }

  lemma ZeroThenBlocksStep(m: Matrix, blocks: seq<Matrix>, n: nat, steps: nat, j: nat)
    requires forall k :: 0 <= k < |blocks| ==> IsMatrix(blocks[k], n, steps)
    requires j < |blocks|
    requires ZeroThenBlocks(m, blocks, n, steps, j)
    ensures ZeroThenBlocks(HConcat(m, blocks[j]), blocks, n, steps, j + 1)
  {
    var next := HConcat(m, blocks[j]);
    forall i | 0 <= i < n
      ensures next[i] == [Some(0.0)] + ConcatBlocks(blocks, n, steps, j + 1)[i]
    {
      var done := ConcatBlocks(blocks, n, steps, j)[i];
      assert ConcatBlocks(blocks, n, steps, j + 1)[i] == done + blocks[j][i];
      assert next[i] == ([Some(0.0)] + done) + blocks[j][i];
    }
  }

  lemma DropZeroColumn(m: Matrix, blocks: seq<Matrix>, n: nat, steps: nat)
    requires forall k :: 0 <= k < |blocks| ==> IsMatrix(blocks[k], n, steps)
    requires ZeroThenBlocks(m, blocks, n, steps, |blocks|)
    ensures forall i :: 0 <= i < |m| ==> |m[i]| > 0
    ensures DropFirstColumn(m) == ConcatBlocks(blocks, n, steps, |blocks|)
  {
    var r := DropFirstColumn(m);
    assert forall i :: 0 <= i < n ==> r[i] == ConcatBlocks(blocks, n, steps, |blocks|)[i];
  }

  /**
   * The body of `preprocessTimeSeries` for the components `ids` of one variable: start
   * from a single column of zeros, append the scaled block of every component in turn,
   * then delete the first column.
   */
  method AppendBlocks(cube: Cube, n: nat, steps: nat, ids: seq<nat>) returns (m: Matrix)
    requires IsCube(cube, n, steps) && n > 0 && steps > 0
    requires forall k :: 0 <= k < |ids| ==> ids[k] < |cube|
    ensures m == ConcatBlocks(ScaledBlocks(cube, n, steps, ids), n, steps, |ids|)
  {
    ghost var blocks := ScaledBlocks(cube, n, steps, ids);
    m := seq(n, i => [Some(0.0)]);
    var j := 0;
    while j < |ids|
      invariant 0 <= j <= |ids|
      invariant ZeroThenBlocks(m, blocks, n, steps, j)
    {
      var block := MinMaxScale(cube[ids[j]], 0.0, 1.0);
      assert block == blocks[j];
      ZeroThenBlocksStep(m, blocks, n, steps, j);
      m := HConcat(m, block);
      j := j + 1;
    }
    DropZeroColumn(m, blocks, n, steps);
    m := DropFirstColumn(m);
  }

  /**
   * One variable of `preprocessTimeSeries`. A cube without entries has no valid component,
   * so its matrix is the column of zeros with that column deleted.
   */
  method VariableFeatures(cube: Cube, n: nat, steps: nat) returns (m: Matrix)
    requires IsCube(cube, n, steps)
    ensures m == Features(cube, n, steps)
  {
    var ids := ValidIds(TimeSeriesMeans(cube, n, steps));
    if n == 0 || steps == 0 {
      ValidBlocksNonEmpty(cube, n, steps);
      m := NoColumns(n);
    } else {
      m := AppendBlocks(cube, n, steps, ids);
    }
  }

  /** The named feature matrices of the first `v` variables. */
  function FeatureList(vars: seq<Named<Cube>>, n: nat, steps: nat, v: nat): (r: seq<Named<Matrix>>)
    requires v <= |vars|
    requires forall k :: 0 <= k < |vars| ==> IsCube(vars[k].value, n, steps)
    ensures |r| == v
    ensures forall k :: 0 <= k < v ==> r[k].name == vars[k].name && |r[k].value| == n
  {
    if v == 0 then []
    else FeatureList(vars, n, steps, v - 1) + [Named(vars[v - 1].name, Features(vars[v - 1].value, n, steps))]
  }

  lemma {:induction false} FeatureListAt(vars: seq<Named<Cube>>, n: nat, steps: nat, v: nat, k: nat)
    requires k < v <= |vars|
    requires forall k :: 0 <= k < |vars| ==> IsCube(vars[k].value, n, steps)
    ensures FeatureList(vars, n, steps, v)[k] == Named(vars[k].name, Features(vars[k].value, n, steps))
  {
    if k < v - 1 {
      FeatureListAt(vars, n, steps, v - 1, k);
    }
  }

  /** `preprocessTimeSeries(vars_dict, n_regions, n_components)`: one feature matrix per variable, in dict order. */
  method PreprocessTimeSeries(vars: seq<Named<Cube>>, n: nat, comps: nat, steps: nat)
    returns (ds: seq<Named<Matrix>>)
    requires forall k :: 0 <= k < |vars| ==> |vars[k].value| == comps && IsCube(vars[k].value, n, steps)
    ensures ds == FeatureList(vars, n, steps, |vars|)
  {
    ds := [];
    var v := 0;
    while v < |vars|
      invariant 0 <= v <= |vars|
      invariant ds == FeatureList(vars, n, steps, v)
    {
      var m := VariableFeatures(vars[v].value, n, steps);
      ds := ds + [Named(vars[v].name, m)];
      v := v + 1;
    }
  }
}
