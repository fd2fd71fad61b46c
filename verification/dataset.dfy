/**
 * The labelled dataset the grouping utilities read (an xarray Dataset reduced to what the
 * core uses), the classification of its variables by dimension names, and the rule that
 * decides which components of a variable are valid.
 */
module Dataset {
  import opened Wrappers
  import opened Numeric
  import opened Matrices

  /** Per-component matrices: `cube[c]` is component `c`'s slice. */
  type Cube = seq<Matrix>

  /** A variable's values, component axis first. */
  datatype Tensor =
    | PeriodCube(periods: seq<Cube>)   // Period x component x space x TimeStep
    | Cube3(cube: Cube)                // component x space x space_2
    | Grid(grid: Matrix)               // component x space

  datatype Variable = Variable(name: string, dims: seq<string>, data: Tensor)

  /**
   * The dataset: component names (index = component id), the `space` and `space_2`
   * coordinate labels, the number of time steps, and the variables in dataset order.
   */
  datatype Data = Data(
    components: seq<string>,
    space: seq<string>,
    space2: seq<string>,
    timeSteps: nat,
    variables: seq<Variable>)

  const TimeSeriesDims: seq<string> := ["component", "Period", "TimeStep", "space"]
  const ScalarDims: seq<string> := ["component", "space"]
  const PairwiseDims: seq<string> := ["component", "space", "space_2"]

  datatype Category = TimeSeries | Scalar | Pairwise | NotConsidered

  /**
   * The category of a variable in `preprocessDataset`: its dimension names are compared as
   * sorted lists, which for lists of distinct names is comparison as multisets.
   */
  function Classify(dims: seq<string>): Category
  {
    if multiset(dims) == multiset(TimeSeriesDims) then TimeSeries
    else if multiset(dims) == multiset(ScalarDims) then Scalar
    else if multiset(dims) == multiset(PairwiseDims) then Pairwise
    else NotConsidered
  }

  /** `generateConnectivityMatrix` selects 2-d variables by the dimension tuple as ordered. */
  predicate IsConnectivityVariable(dims: seq<string>)
  {
    dims == PairwiseDims
  }

  /** Every variable the connectivity matrix considers is a 2-d variable for `preprocessDataset`. */
  lemma ConnectivityVariableIsPairwise(dims: seq<string>)
    requires IsConnectivityVariable(dims)
    ensures Classify(dims) == Pairwise
  {
    assert multiset(dims) != multiset(TimeSeriesDims) by {
      assert |multiset(dims)| == 3 && |multiset(TimeSeriesDims)| == 4;
    }
    assert multiset(dims) != multiset(ScalarDims) by {
      assert |multiset(ScalarDims)| == 2;
    }
  }

  /** ... but not conversely: the order of the dimension names matters there. */
  lemma PairwiseNeedNotBeConnectivity()
    ensures Classify(["space", "component", "space_2"]) == Pairwise
    ensures !IsConnectivityVariable(["space", "component", "space_2"])
  {
    var dims: seq<string> := ["space", "component", "space_2"];
    assert dims[0] != PairwiseDims[0];
    assert multiset(dims) == multiset(PairwiseDims);
    assert multiset(dims) != multiset(TimeSeriesDims) by {
      assert |multiset(dims)| == 3 && |multiset(TimeSeriesDims)| == 4;
    }
    assert multiset(dims) != multiset(ScalarDims) by {
      assert |multiset(ScalarDims)| == 2;
    }
  }

  /** Every component slice of `c` is a `rows` x `cols` matrix. */
  predicate IsCube(c: Cube, rows: nat, cols: nat)
  {
    forall k :: 0 <= k < |c| ==> IsMatrix(c[k], rows, cols)
  }

  /** The shape xarray guarantees for a variable of each category of `ds`. */
  predicate Shaped(v: Variable, ds: Data)
  {
    var nc, n := |ds.components|, |ds.space|;
    match Classify(v.dims)
    case TimeSeries =>
      v.data.PeriodCube?
      && forall p :: 0 <= p < |v.data.periods| ==> |v.data.periods[p]| == nc && IsCube(v.data.periods[p], n, ds.timeSteps)
    case Scalar => v.data.Grid? && IsMatrix(v.data.grid, nc, n)
    case Pairwise => v.data.Cube3? && |v.data.cube| == nc && IsCube(v.data.cube, n, |ds.space2|)
    case NotConsidered => true
  }

  /** Variable names are distinct (they are the keys of the dataset) and every variable is shaped. */
  predicate WellFormed(ds: Data)
  {
    && (forall i, j :: 0 <= i < j < |ds.variables| ==> ds.variables[i].name != ds.variables[j].name)
    && (forall i :: 0 <= i < |ds.variables| ==> Shaped(ds.variables[i], ds))
  }

  /** Every time-series variable of `vs` has a first period, so `[0]` on its Period axis succeeds. */
  predicate HasFirstPeriods(vs: seq<Variable>)
  {
    forall i :: 0 <= i < |vs| && Classify(vs[i].dims) == TimeSeries && vs[i].data.PeriodCube? ==>
      |vs[i].data.periods| > 0
  }

  /**
   * The time-series variables in dataset order, each reduced to its first period
   * (`transpose('Period', 'component', 'space', 'TimeStep')[0]`).
   */
  function TimeSeriesVars(vs: seq<Variable>, ds: Data): (r: seq<Named<Cube>>)
    requires forall i :: 0 <= i < |vs| ==> Shaped(vs[i], ds)
    requires HasFirstPeriods(vs)
    ensures forall k :: 0 <= k < |r| ==>
      |r[k].value| == |ds.components| && IsCube(r[k].value, |ds.space|, ds.timeSteps)
  {
    if |vs| == 0 then []
    else
      var v := vs[|vs| - 1];
      assert Shaped(v, ds);
      var init := TimeSeriesVars(vs[..|vs| - 1], ds);
      if Classify(v.dims) == TimeSeries then
        assert |v.data.periods[0]| == |ds.components| && IsCube(v.data.periods[0], |ds.space|, ds.timeSteps);
        init + [Named(v.name, v.data.periods[0])]
      else init
  }

  /** The 1-d variables in dataset order. */
  function ScalarVars(vs: seq<Variable>, ds: Data): (r: seq<Named<Matrix>>)
    requires forall i :: 0 <= i < |vs| ==> Shaped(vs[i], ds)
    ensures forall k :: 0 <= k < |r| ==> IsMatrix(r[k].value, |ds.components|, |ds.space|)
  {
    if |vs| == 0 then []
    else
      var v := vs[|vs| - 1];
      assert Shaped(v, ds);
      var init := ScalarVars(vs[..|vs| - 1], ds);
      if Classify(v.dims) == Scalar then
        assert IsMatrix(v.data.grid, |ds.components|, |ds.space|);
        init + [Named(v.name, v.data.grid)]
      else init
  }

  /** The 2-d variables in dataset order (dimension names compared as sorted lists). */
  function PairwiseVars(vs: seq<Variable>, ds: Data): (r: seq<Named<Cube>>)
    requires forall i :: 0 <= i < |vs| ==> Shaped(vs[i], ds)
    ensures forall k :: 0 <= k < |r| ==> |r[k].value| == |ds.components| && IsCube(r[k].value, |ds.space|, |ds.space2|)
  {
    if |vs| == 0 then []
    else
      var v := vs[|vs| - 1];
      assert Shaped(v, ds);
      var init := PairwiseVars(vs[..|vs| - 1], ds);
      if Classify(v.dims) == Pairwise then
        assert |v.data.cube| == |ds.components| && IsCube(v.data.cube, |ds.space|, |ds.space2|);
        init + [Named(v.name, v.data.cube)]
      else init
  }

  /** The 2-d variables `generateConnectivityMatrix` considers (dimension tuple as ordered). */
  function ConnectivityVars(vs: seq<Variable>, ds: Data): (r: seq<Named<Cube>>)
    requires forall i :: 0 <= i < |vs| ==> Shaped(vs[i], ds)
    ensures forall k :: 0 <= k < |r| ==> |r[k].value| == |ds.components| && IsCube(r[k].value, |ds.space|, |ds.space2|)
  {
    if |vs| == 0 then []
    else
      var v := vs[|vs| - 1];
      assert Shaped(v, ds);
      var init := ConnectivityVars(vs[..|vs| - 1], ds);
      if IsConnectivityVariable(v.dims) then
        ConnectivityVariableIsPairwise(v.dims);
        assert |v.data.cube| == |ds.components| && IsCube(v.data.cube, |ds.space|, |ds.space2|);
        init + [Named(v.name, v.data.cube)]
      else init
  }

  /** Names of variables of `vs` that `Classify` puts in category `cat`, in order. */
  function NamesIn(vs: seq<Variable>, cat: Category): seq<string>
  {
    if |vs| == 0 then []
    else NamesIn(vs[..|vs| - 1], cat) + (if Classify(vs[|vs| - 1].dims) == cat then [vs[|vs| - 1].name] else [])
  }

  /** Each category's dict holds exactly the variables classified into it, in dataset order. */
  lemma {:induction false} CategoryNames(vs: seq<Variable>, ds: Data)
    requires forall i :: 0 <= i < |vs| ==> Shaped(vs[i], ds)
    requires HasFirstPeriods(vs)
    ensures Names(TimeSeriesVars(vs, ds)) == NamesIn(vs, TimeSeries)
    ensures Names(ScalarVars(vs, ds)) == NamesIn(vs, Scalar)
    ensures Names(PairwiseVars(vs, ds)) == NamesIn(vs, Pairwise)
  {
    if |vs| > 0 {
      CategoryNames(vs[..|vs| - 1], ds);
      NamesAppend(TimeSeriesVars(vs[..|vs| - 1], ds), if Classify(vs[|vs| - 1].dims) == TimeSeries then [Named(vs[|vs| - 1].name, vs[|vs| - 1].data.periods[0])] else []);
      NamesAppend(ScalarVars(vs[..|vs| - 1], ds), if Classify(vs[|vs| - 1].dims) == Scalar then [Named(vs[|vs| - 1].name, vs[|vs| - 1].data.grid)] else []);
      NamesAppend(PairwiseVars(vs[..|vs| - 1], ds), if Classify(vs[|vs| - 1].dims) == Pairwise then [Named(vs[|vs| - 1].name, vs[|vs| - 1].data.cube)] else []);
    }
  }

  lemma NamesAppend<V>(a: seq<Named<V>>, b: seq<Named<V>>)
    ensures Names(a + b) == Names(a) + Names(b)
  {
  }

  /** The valid component ids: the positions whose mean is a number, ascending. */
  function ValidIds(means: seq<Cell>): (r: seq<nat>)
    ensures forall k :: 0 <= k < |r| ==> r[k] < |means|
  {
    if |means| == 0 then []
    else ValidIds(means[..|means| - 1]) + (if means[|means| - 1].Some? then [|means| - 1] else [])
  }

  /**
   * `ValidIds` lists, in strictly ascending order, exactly the components whose mean is
   * not missing.
   */
  lemma {:induction false} ValidIdsSpec(means: seq<Cell>)
    ensures forall k, l :: 0 <= k < l < |ValidIds(means)| ==> ValidIds(means)[k] < ValidIds(means)[l]
    ensures forall c :: 0 <= c < |means| ==> (c in ValidIds(means) <==> means[c].Some?)
  {
    if |means| > 0 {
      var init := means[..|means| - 1];
      ValidIdsSpec(init);
      forall c | 0 <= c < |init| ensures init[c] == means[c] { }
    }
  }

  /** Time-series validity: the mean over space, then over time, per component. */
  function TimeSeriesMeans(cube: Cube, n: nat, steps: nat): (r: seq<Cell>)
    requires IsCube(cube, n, steps)
    ensures |r| == |cube|
  {
    seq(|cube|, c requires 0 <= c < |cube| => BlockMean(cube[c], steps))
  }

  /** 1-d validity: the mean over space, per component. */
  function ScalarMeans(grid: Matrix): (r: seq<Cell>)
    ensures |r| == |grid|
  {
    seq(|grid|, c requires 0 <= c < |grid| => NanMean(grid[c]))
  }

  /** A time-series or 2-d component is valid iff one of its entries is a number. */
  lemma BlockValid(cube: Cube, n: nat, cols: nat, c: nat)
    requires IsCube(cube, n, cols) && c < |cube|
    ensures c in ValidIds(TimeSeriesMeans(cube, n, cols))
      <==> exists i, t :: 0 <= i < n && 0 <= t < cols && cube[c][i][t].Some?
  {
    ValidIdsSpec(TimeSeriesMeans(cube, n, cols));
    BlockMeanDefined(cube[c], cols);
  }

  /** Only a cube with entries has a valid component. */
  lemma ValidBlocksNonEmpty(cube: Cube, n: nat, steps: nat)
    requires IsCube(cube, n, steps)
    ensures |ValidIds(TimeSeriesMeans(cube, n, steps))| > 0 ==> n > 0 && steps > 0
  {
    var ids := ValidIds(TimeSeriesMeans(cube, n, steps));
    ValidIdsSpec(TimeSeriesMeans(cube, n, steps));
    if |ids| > 0 {
      BlockValid(cube, n, steps, ids[0]);
    }
  }

  /** A 1-d component is valid iff one of its regions has a number. */
  lemma ScalarValid(grid: Matrix, c: nat)
    requires c < |grid|
    ensures c in ValidIds(ScalarMeans(grid)) <==> exists i :: 0 <= i < |grid[c]| && grid[c][i].Some?
  {
    ValidIdsSpec(ScalarMeans(grid));
    NanMeanDefined(grid[c]);
  }
}
