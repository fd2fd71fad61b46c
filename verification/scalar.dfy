/** `preprocess1dVariables`: the valid components of each 1-d variable, scaled column by column. */
module Scalar {
  import opened Wrappers
  import opened Numeric
  import opened Matrices
  import opened Scaler
  import opened Dataset

  /** Only a grid with regions has a valid component. */
  lemma ScalarIdsInRange(grid: Matrix, n: nat)
    requires IsMatrix(grid, |grid|, n)
    ensures |ValidIds(ScalarMeans(grid))| > 0 ==> n > 0
  {
    var ids := ValidIds(ScalarMeans(grid));
    ValidIdsSpec(ScalarMeans(grid));
    if |ids| > 0 {
      ScalarValid(grid, ids[0]);
    }
  }

  /**
   * The matrix of one 1-d variable: the rows of its valid components, transposed to
   * regions x valid components, then scaled per column. sklearn refuses a matrix without
   * a column, so a variable with no valid component is an error.
   */
  function ScalarFeatures(grid: Matrix, n: nat): (r: Result<Matrix>)
    requires IsMatrix(grid, |grid|, n)
    ensures r.Err? <==> |ValidIds(ScalarMeans(grid))| == 0
    ensures r.Ok? ==> IsMatrix(r.value, n, |ValidIds(ScalarMeans(grid))|)
  {
    ScalarIdsInRange(grid, n);
    var ids := ValidIds(ScalarMeans(grid));
    var data := SelectRows(grid, ids);
    ColumnScale(Transpose(data, n), |ids|)
  }

  /** A 1-d variable fails exactly when none of its entries is a number. */
  lemma ScalarFeaturesError(grid: Matrix, n: nat)
    requires IsMatrix(grid, |grid|, n)
    ensures ScalarFeatures(grid, n).Err?
      <==> forall c, i :: 0 <= c < |grid| && 0 <= i < n ==> grid[c][i].None?
  {
    ValidIdsSpec(ScalarMeans(grid));
    if ScalarFeatures(grid, n).Err? {
      forall c, i | 0 <= c < |grid| && 0 <= i < n ensures grid[c][i].None? {
        ScalarValid(grid, c);
      }
    } else {
      var c := ValidIds(ScalarMeans(grid))[0];
      ScalarValid(grid, c);
    }
  }

  /**
   * Column `k` of the result belongs to the `k`-th valid component `c` (ascending), and
   * row `i` to region `i`: the entry is NaN iff `grid[c][i]` is, lies in [0, 1] otherwise,
   * and is 0 at the component's smallest value and 1 at its largest (0 throughout when the
   * component is constant over the regions).
   */
  lemma ScalarFeaturesEntry(grid: Matrix, n: nat, k: nat, i: nat)
    requires IsMatrix(grid, |grid|, n)
    requires k < |ValidIds(ScalarMeans(grid))| && i < n
    ensures var c := ValidIds(ScalarMeans(grid))[k];
      var r := ScalarFeatures(grid, n).value;
      && c < |grid|
      && var p := Present(grid[c]);
      && (grid[c][i].Some? ==> |p| > 0)
      && (r[i][k].None? <==> grid[c][i].None?)
      && (r[i][k].Some? ==> 0.0 <= r[i][k].value <= 1.0)
      && (grid[c][i].Some? && grid[c][i].value == SeqMin(p) ==> r[i][k] == Some(0.0))
      && (grid[c][i].Some? && grid[c][i].value == SeqMax(p) && SeqMin(p) < SeqMax(p) ==> r[i][k] == Some(1.0))
      && (grid[c][i].Some? && SeqMin(p) == SeqMax(p) ==> r[i][k] == Some(0.0))
  {
    ScalarIdsInRange(grid, n);
    var ids := ValidIds(ScalarMeans(grid));
    var t := Transpose(SelectRows(grid, ids), n);
    assert Column(t, k) == grid[ids[k]];
    ColumnScaleEntry(t, |ids|, i, k);
    assert t[i][k] == grid[ids[k]][i];
  }

  /** The outcome of `preprocess1dVariables`' loop body for each variable, in dict order. */
  function ScalarOutcomes(vars: seq<Named<Matrix>>, n: nat): (r: seq<Result<Matrix>>)
    requires forall k :: 0 <= k < |vars| ==> IsMatrix(vars[k].value, |vars[k].value|, n)
    ensures |r| == |vars| && forall k :: 0 <= k < |vars| ==> r[k] == ScalarFeatures(vars[k].value, n)
  {
    seq(|vars|, k requires 0 <= k < |vars| => ScalarFeatures(vars[k].value, n))
  }

  /** The result of `preprocess1dVariables`. */
  function ScalarDicts(vars: seq<Named<Matrix>>, n: nat): Result<seq<Named<Matrix>>>
    requires forall k :: 0 <= k < |vars| ==> IsMatrix(vars[k].value, |vars[k].value|, n)
  {
    Collect(Names(vars), ScalarOutcomes(vars, n), |vars|)
  }

  /**
   * `preprocess1dVariables` fails exactly when some 1-d variable has no valid component;
   * otherwise entry `k` of its result is variable `k` with its scaled matrix, which has a
   * row per region.
   */
  lemma ScalarDictsSpec(vars: seq<Named<Matrix>>, n: nat)
    requires forall k :: 0 <= k < |vars| ==> IsMatrix(vars[k].value, |vars[k].value|, n)
    ensures ScalarDicts(vars, n).Err? <==> exists k :: 0 <= k < |vars| && ScalarFeatures(vars[k].value, n).Err?
    ensures ScalarDicts(vars, n).Ok? ==> |ScalarDicts(vars, n).value| == |vars| && forall k :: 0 <= k < |vars| ==>
      && ScalarFeatures(vars[k].value, n).Ok?
      && ScalarDicts(vars, n).value[k] == Named(vars[k].name, ScalarFeatures(vars[k].value, n).value)
      && |ScalarDicts(vars, n).value[k].value| == n
  {
    CollectSpec(Names(vars), ScalarOutcomes(vars, n), |vars|);
  }

  /** One more variable either ends `preprocess1dVariables` with its failure or adds its matrix. */
  lemma ScalarStep(vars: seq<Named<Matrix>>, n: nat, v: nat, ds: seq<Named<Matrix>>)
    requires v < |vars|
    requires forall k :: 0 <= k < |vars| ==> IsMatrix(vars[k].value, |vars[k].value|, n)
    requires Collect(Names(vars), ScalarOutcomes(vars, n), v) == Ok(ds)
    ensures ScalarFeatures(vars[v].value, n).Err? ==> ScalarDicts(vars, n) == Err(ScalarFeatures(vars[v].value, n).error)
    ensures ScalarFeatures(vars[v].value, n).Ok? ==>
      Collect(Names(vars), ScalarOutcomes(vars, n), v + 1)
        == Ok(ds + [Named(vars[v].name, ScalarFeatures(vars[v].value, n).value)])
  {
    CollectStep(Names(vars), ScalarOutcomes(vars, n), v, ds);
  }

  /** `preprocess1dVariables(vars_dict, n_components)`: one scaled matrix per variable, in dict order. */
  method Preprocess1d(vars: seq<Named<Matrix>>, n: nat) returns (r: Result<seq<Named<Matrix>>>)
    requires forall k :: 0 <= k < |vars| ==> IsMatrix(vars[k].value, |vars[k].value|, n)
    ensures r == ScalarDicts(vars, n)
  {
    var ds: seq<Named<Matrix>> := [];
    var v := 0;
    while v < |vars|
      invariant 0 <= v <= |vars|
      invariant Collect(Names(vars), ScalarOutcomes(vars, n), v) == Ok(ds)
    {
      var scaled := ScalarFeatures(vars[v].value, n);
      ScalarStep(vars, n, v, ds);
      if scaled.Err? {
        return Err(scaled.error);
      }
      ds := ds + [Named(vars[v].name, scaled.value)];
      v := v + 1;
    }
    r := Ok(ds);
  }
}
