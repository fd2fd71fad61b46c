/**
 * `selfDistance` and `selfDistanceMatrix`: the custom distance between two regions over the
 * three dicts `preprocessDataset` returns in dissimilarity mode, and the hollow symmetric
 * matrix of it over every pair of regions.
 */
module Distance {
  import opened Wrappers
  import opened Numeric
  import opened Matrices
  import opened Condensed
  import opened Pairwise
  import opened Preprocess
  import opened NdArrays
  import opened Dataset
  import opened TimeSeries
  import opened Scalar

  /** Every matrix of a time-series or 1-d dict has a row per region, all of one width. */
  predicate RowsPerRegion(dicts: seq<Named<Matrix>>, n: nat)
  {
    forall k :: 0 <= k < |dicts| ==>
      |dicts[k].value| == n && forall i :: 0 <= i < n ==> |dicts[k].value[i]| == |dicts[k].value[0]|
  }

  /** Every component of a 2-d dict holds a condensed vector over `n` regions. */
  predicate CondensedDicts(dicts: seq<Named<seq<Keyed<Entry2d>>>>, n: nat)
  {
    forall k, e :: 0 <= k < |dicts| && 0 <= e < |dicts[k].value| ==>
      dicts[k].value[e].value.Distances? && |dicts[k].value[e].value.vector| == CondensedLength(n)
  }

  /** In dissimilarity mode every 2-d component holds a condensed vector over the regions. */
  lemma DissimilarityDictsCondensed(vars: seq<Named<Cube>>, space: seq<string>, space2: seq<string>)
    requires forall k :: 0 <= k < |vars| ==> IsCube(vars[k].value, |space|, |space2|)
    ensures Dicts2d(vars, space, space2, ToDissimilarity).Ok? ==>
      CondensedDicts(Dicts2d(vars, space, space2, ToDissimilarity).value, |space|)
  {
    Dicts2dSpec(vars, space, space2, ToDissimilarity);
    var d := Dicts2d(vars, space, space2, ToDissimilarity);
    if d.Ok? {
      forall k, e | 0 <= k < |d.value| && 0 <= e < |d.value[k].value|
        ensures d.value[k].value[e].value.Distances?
        ensures |d.value[k].value[e].value.vector| == CondensedLength(|space|)
      {
        var es := AffinityEntries(vars[k].value, space, space2).value;
        assert d.value[k].value == Finished(es, ToDissimilarity);
        CondenseFromLength(es[e].value.matrix, 0);
      }
    }
  }

  /** Every time-series matrix has a row per region, all of one width. */
  lemma TimeSeriesRowsPerRegion(vars: seq<Named<Cube>>, n: nat, steps: nat)
    requires forall k :: 0 <= k < |vars| ==> IsCube(vars[k].value, n, steps)
    ensures RowsPerRegion(FeatureList(vars, n, steps, |vars|), n)
  {
    forall k | 0 <= k < |vars|
      ensures IsMatrix(FeatureList(vars, n, steps, |vars|)[k].value, n, Span(|ValidIds(TimeSeriesMeans(vars[k].value, n, steps))|, steps))
    {
      FeatureListAt(vars, n, steps, |vars|, k);
      FeaturesShape(vars[k].value, n, steps);
    }
  }

  /** Every scaled 1-d matrix has a row per region, all of one width. */
  lemma ScalarRowsPerRegion(vars: seq<Named<Matrix>>, n: nat)
    requires forall k :: 0 <= k < |vars| ==> IsMatrix(vars[k].value, |vars[k].value|, n)
    ensures ScalarDicts(vars, n).Ok? ==> RowsPerRegion(ScalarDicts(vars, n).value, n)
  {
    ScalarDictsSpec(vars, n);
  }

  /**
   * What `preprocessDataset` returns in dissimilarity mode has the shapes `selfDistance`
   * reads: a row per region in every time-series and 1-d matrix, and a condensed vector
   * over the regions for every 2-d component.
   */
  lemma PreprocessedFitsDistance(ds: Data, given: Option<Weights>)
    requires forall i :: 0 <= i < |ds.variables| ==> Shaped(ds.variables[i], ds)
    requires PreprocessSpec(ds, ToDissimilarity, given).Ok?
    ensures PreprocessSpec(ds, ToDissimilarity, given).value.Dissimilarities?
    ensures var p := PreprocessSpec(ds, ToDissimilarity, given).value;
      RowsPerRegion(p.ts, |ds.space|) && RowsPerRegion(p.oned, |ds.space|) && CondensedDicts(p.twod, |ds.space|)
  {
    var c := Categorize(ds).value;
    var n := |ds.space|;
    Unfold(c, |ds.components|, ds.space, ds.space2, ds.timeSteps, ToDissimilarity, given);
    AssembleDissimilarity(FeatureList(c.ts, n, ds.timeSteps, |c.ts|), ScalarDicts(c.oned, n),
                          Dicts2d(c.twod, ds.space, ds.space2, ToDissimilarity), Dicts2d(c.twod, ds.space, ds.space2, ToAffinity),
                          n, EffectiveWeights(given, DictNames(c)));
    TimeSeriesRowsPerRegion(c.ts, n, ds.timeSteps);
    ScalarRowsPerRegion(c.oned, n);
    DissimilarityDictsCondensed(c.twod, ds.space, ds.space2);
  }

  // ---------------------------------------------------------------------------------------
  // Time series and 1-d variables (steps 3a and 3b)
  // ---------------------------------------------------------------------------------------

  /**
   * `sum(np.power(a - b, 2))`: the squared differences of two rows added left to right. It
   * is a number exactly when both rows are free of NaN, and then it is not negative.
   */
  function SquaredDistance(a: seq<Cell>, b: seq<Cell>): (r: Cell)
    requires |a| == |b|
    ensures r.Some? <==> forall t :: 0 <= t < |a| ==> a[t].Some? && b[t].Some?
    ensures r.Some? ==> r.value >= 0.0
  {
    if |a| == 0 then Some(0.0)
    else
      var d := Sub(a[|a| - 1], b[|a| - 1]);
      assert forall t :: 0 <= t < |a| - 1 ==> a[..|a| - 1][t] == a[t] && b[..|a| - 1][t] == b[t];
      Add(SquaredDistance(a[..|a| - 1], b[..|a| - 1]), Mul(d, d))
  }

  /** The squared distance does not depend on which row comes first. */
  lemma {:induction false} SquaredDistanceSymmetric(a: seq<Cell>, b: seq<Cell>)
    requires |a| == |b|
    ensures SquaredDistance(a, b) == SquaredDistance(b, a)
  {
    if |a| > 0 {
      SquaredDistanceSymmetric(a[..|a| - 1], b[..|a| - 1]);
      SquareOfDifference(a[|a| - 1], b[|a| - 1]);
      assert b[..|a| - 1] == b[..|b| - 1];
    }
  }

  lemma SquareOfDifference(x: Cell, y: Cell)
    ensures Mul(Sub(x, y), Sub(x, y)) == Mul(Sub(y, x), Sub(y, x))
  {
    if x.Some? && y.Some? {
      var d, e := Sub(x, y), Sub(y, x);
      var m1, m2 := Mul(d, d), Mul(e, e);
      assert m1.value == d.value * d.value && m2.value == e.value * e.value;
      NegatedSquare(d.value, e.value);
      assert m1.Some? && m2.Some? && m1.value == m2.value;
    }
  }

  lemma NegatedSquare(u: real, v: real)
    requires v == -u
    ensures u * u == v * v
  {
  }

  /**
   * The running sum of step 3a (or 3b) after the first `v` variables of a dict: each adds
   * the squared distance of rows `x` and `y` of its matrix times the variable's weight; the
   * first variable without a weight raises a KeyError.
   */
  function PartDistance(dicts: seq<Named<Matrix>>, n: nat, x: nat, y: nat, w: Weights, v: nat): (r: Result<Cell>)
    requires x < n && y < n && v <= |dicts| && RowsPerRegion(dicts, n)
  {
    if v == 0 then Ok(Some(0.0))
    else
      var init := PartDistance(dicts, n, x, y, w, v - 1);
      if init.Err? then init
      else if dicts[v - 1].name !in w then Err(KeyError(dicts[v - 1].name))
      else
        var m := dicts[v - 1].value;
        Ok(Add(init.value, Mul(SquaredDistance(m[x], m[y]), Some(w[dicts[v - 1].name]))))
  }

  /** Once a variable misses its weight, later variables do not change the outcome. */
  lemma {:induction false} PartDistanceErrorStays(dicts: seq<Named<Matrix>>, n: nat, x: nat, y: nat, w: Weights, v: nat, u: nat)
    requires x < n && y < n && v <= u <= |dicts| && RowsPerRegion(dicts, n)
    requires PartDistance(dicts, n, x, y, w, v).Err?
    ensures PartDistance(dicts, n, x, y, w, u) == PartDistance(dicts, n, x, y, w, v)
  {
    if u > v {
      PartDistanceErrorStays(dicts, n, x, y, w, v, u - 1);
    }
  }

  /**
   * The part fails exactly when one of its variables has no weight, with the KeyError of
   * the first such variable, whichever two regions are compared.
   */
  lemma {:induction false} PartDistanceError(dicts: seq<Named<Matrix>>, n: nat, x: nat, y: nat, w: Weights, v: nat)
    requires x < n && y < n && v <= |dicts| && RowsPerRegion(dicts, n)
    ensures PartDistance(dicts, n, x, y, w, v).Err? <==> exists k :: 0 <= k < v && dicts[k].name !in w
    ensures PartDistance(dicts, n, x, y, w, v).Err? ==> exists k :: (0 <= k < v && dicts[k].name !in w
      && PartDistance(dicts, n, x, y, w, v).error == KeyError(dicts[k].name)
      && forall l :: 0 <= l < k ==> dicts[l].name in w)
  {
    if v > 0 {
      PartDistanceError(dicts, n, x, y, w, v - 1);
    }
  }

  /** Which regions are compared does not decide whether, or how, the part fails. */
  lemma {:induction false} PartDistanceSameFailure(dicts: seq<Named<Matrix>>, n: nat, x: nat, y: nat, x': nat, y': nat, w: Weights, v: nat)
    requires x < n && y < n && x' < n && y' < n && v <= |dicts| && RowsPerRegion(dicts, n)
    ensures PartDistance(dicts, n, x, y, w, v).Err? == PartDistance(dicts, n, x', y', w, v).Err?
    ensures PartDistance(dicts, n, x, y, w, v).Err? ==>
      PartDistance(dicts, n, x, y, w, v) == PartDistance(dicts, n, x', y', w, v)
  {
    if v > 0 {
      PartDistanceSameFailure(dicts, n, x, y, x', y', w, v - 1);
    }
  }

  /** The time-series and 1-d parts are symmetric in the two regions. */
  lemma {:induction false} PartDistanceSymmetric(dicts: seq<Named<Matrix>>, n: nat, x: nat, y: nat, w: Weights, v: nat)
    requires x < n && y < n && v <= |dicts| && RowsPerRegion(dicts, n)
    ensures PartDistance(dicts, n, x, y, w, v) == PartDistance(dicts, n, y, x, w, v)
  {
    if v > 0 {
      PartDistanceSymmetric(dicts, n, x, y, w, v - 1);
      var m := dicts[v - 1].value;
      SquaredDistanceSymmetric(m[x], m[y]);
    }
  }

  /** With non-negative weights the part is not negative, when it is a number. */
  lemma {:induction false} PartDistanceNonNegative(dicts: seq<Named<Matrix>>, n: nat, x: nat, y: nat, w: Weights, v: nat)
    requires x < n && y < n && v <= |dicts| && RowsPerRegion(dicts, n)
    requires forall name :: name in w ==> w[name] >= 0.0
    ensures PartDistance(dicts, n, x, y, w, v).Ok? && PartDistance(dicts, n, x, y, w, v).value.Some? ==>
      PartDistance(dicts, n, x, y, w, v).value.value >= 0.0
  {
    if v > 0 {
      PartDistanceNonNegative(dicts, n, x, y, w, v - 1);
      var m := dicts[v - 1].value;
      var s := SquaredDistance(m[x], m[y]);
      if dicts[v - 1].name in w && s.Some? {
        var wt := w[dicts[v - 1].name];
        assert s.value * wt >= 0.0 by {
          NonNegativeProduct(s.value, wt);
        }
      }
    }
  }

  lemma NonNegativeProduct(a: real, b: real)
    requires a >= 0.0 && b >= 0.0
    ensures a * b >= 0.0
  {
  }

  /** Steps 3a and 3b: the running sum over a whole dict, one variable per iteration. */
  method PartSum(dicts: seq<Named<Matrix>>, n: nat, x: nat, y: nat, w: Weights) returns (r: Result<Cell>)
    requires x < n && y < n && RowsPerRegion(dicts, n)
    ensures r == PartDistance(dicts, n, x, y, w, |dicts|)
  {
    var total: Cell := Some(0.0);
    var v := 0;
    while v < |dicts|
      invariant 0 <= v <= |dicts|
      invariant PartDistance(dicts, n, x, y, w, v) == Ok(total)
    {
      var name := dicts[v].name;
      if name !in w {
        PartDistanceErrorStays(dicts, n, x, y, w, v + 1, |dicts|);
        return Err(KeyError(name));
      }
      var m := dicts[v].value;
      total := Add(total, Mul(SquaredDistance(m[x], m[y]), Some(w[name])));
      v := v + 1;
    }
    r := Ok(total);
  }

  // ---------------------------------------------------------------------------------------
  // 2-d variables (step 3c)
  // ---------------------------------------------------------------------------------------

  /**
   * `acc` plus, for each of the first `j` components of one variable whose entry at `idx`
   * is a number c, c*c times the weight; a NaN entry is skipped.
   */
  function AddSquares(acc: real, es: seq<Keyed<Entry2d>>, idx: nat, w: real, j: nat): real
    requires j <= |es|
    requires forall e :: 0 <= e < |es| ==> es[e].value.Distances? && idx < |es[e].value.vector|
  {
    if j == 0 then acc
    else
      var total := AddSquares(acc, es, idx, w, j - 1);
      var c := es[j - 1].value.vector[idx];
      if c.None? then total else total + c.value * c.value * w
  }

  /**
   * The running sum of step 3c after the first `v` variables, reading every component's
   * condensed vector at `idx`; the first variable without a weight raises a KeyError, even
   * one without a component.
   */
  function Distance2d(dicts: seq<Named<seq<Keyed<Entry2d>>>>, n: nat, idx: nat, w: Weights, v: nat): (r: Result<real>)
    requires v <= |dicts| && CondensedDicts(dicts, n) && idx < CondensedLength(n)
  {
    if v == 0 then Ok(0.0)
    else
      var init := Distance2d(dicts, n, idx, w, v - 1);
      if init.Err? then init
      else if dicts[v - 1].name !in w then Err(KeyError(dicts[v - 1].name))
      else Ok(AddSquares(init.value, dicts[v - 1].value, idx, w[dicts[v - 1].name], |dicts[v - 1].value|))
  }

  /** Once a variable misses its weight, later variables do not change the outcome. */
  lemma {:induction false} Distance2dErrorStays(dicts: seq<Named<seq<Keyed<Entry2d>>>>, n: nat, idx: nat, w: Weights, v: nat, u: nat)
    requires v <= u <= |dicts| && CondensedDicts(dicts, n) && idx < CondensedLength(n)
    requires Distance2d(dicts, n, idx, w, v).Err?
    ensures Distance2d(dicts, n, idx, w, u) == Distance2d(dicts, n, idx, w, v)
  {
    if u > v {
      Distance2dErrorStays(dicts, n, idx, w, v, u - 1);
    }
  }

  /**
   * The 2-d part fails exactly when one of its variables has no weight, with the KeyError
   * of the first such variable.
   */
  lemma {:induction false} Distance2dError(dicts: seq<Named<seq<Keyed<Entry2d>>>>, n: nat, idx: nat, w: Weights, v: nat)
    requires v <= |dicts| && CondensedDicts(dicts, n) && idx < CondensedLength(n)
    ensures Distance2d(dicts, n, idx, w, v).Err? <==> exists k :: 0 <= k < v && dicts[k].name !in w
    ensures Distance2d(dicts, n, idx, w, v).Err? ==> exists k :: (0 <= k < v && dicts[k].name !in w
      && Distance2d(dicts, n, idx, w, v).error == KeyError(dicts[k].name)
      && forall l :: 0 <= l < k ==> dicts[l].name in w)
  {
    if v > 0 {
      Distance2dError(dicts, n, idx, w, v - 1);
    }
  }

  /** Which position is read does not decide whether, or how, the 2-d part fails. */
  lemma {:induction false} Distance2dSameFailure(dicts: seq<Named<seq<Keyed<Entry2d>>>>, n: nat, idx: nat, idx': nat, w: Weights, v: nat)
    requires v <= |dicts| && CondensedDicts(dicts, n) && idx < CondensedLength(n) && idx' < CondensedLength(n)
    ensures Distance2d(dicts, n, idx, w, v).Err? == Distance2d(dicts, n, idx', w, v).Err?
    ensures Distance2d(dicts, n, idx, w, v).Err? ==>
      Distance2d(dicts, n, idx, w, v) == Distance2d(dicts, n, idx', w, v)
  {
    if v > 0 {
      Distance2dSameFailure(dicts, n, idx, idx', w, v - 1);
    }
  }

  /** With a non-negative weight the squares only add to `acc`. */
  lemma {:induction false} AddSquaresGrows(acc: real, es: seq<Keyed<Entry2d>>, idx: nat, w: real, j: nat)
    requires j <= |es| && w >= 0.0
    requires forall e :: 0 <= e < |es| ==> es[e].value.Distances? && idx < |es[e].value.vector|
    ensures AddSquares(acc, es, idx, w, j) >= acc
  {
    if j > 0 {
      AddSquaresGrows(acc, es, idx, w, j - 1);
      var c := es[j - 1].value.vector[idx];
      if c.Some? {
        NonNegativeProduct(c.value * c.value, w);
      }
    }
  }

  /** Components whose entry at `idx` is NaN add nothing: with only such entries `acc` stays. */
  lemma {:induction false} AddSquaresSkipsNan(acc: real, es: seq<Keyed<Entry2d>>, idx: nat, w: real, j: nat)
    requires j <= |es|
    requires forall e :: 0 <= e < |es| ==> es[e].value.Distances? && idx < |es[e].value.vector|
    requires forall e :: 0 <= e < j ==> es[e].value.vector[idx].None?
    ensures AddSquares(acc, es, idx, w, j) == acc
  {
    if j > 0 {
      AddSquaresSkipsNan(acc, es, idx, w, j - 1);
    }
  }

  /** With non-negative weights the 2-d part is not negative. */
  lemma {:induction false} Distance2dNonNegative(dicts: seq<Named<seq<Keyed<Entry2d>>>>, n: nat, idx: nat, w: Weights, v: nat)
    requires v <= |dicts| && CondensedDicts(dicts, n) && idx < CondensedLength(n)
    requires forall name :: name in w ==> w[name] >= 0.0
    ensures Distance2d(dicts, n, idx, w, v).Ok? ==> Distance2d(dicts, n, idx, w, v).value >= 0.0
  {
    if v > 0 {
      Distance2dNonNegative(dicts, n, idx, w, v - 1);
      var init := Distance2d(dicts, n, idx, w, v - 1);
      if init.Ok? && dicts[v - 1].name in w {
        AddSquaresGrows(init.value, dicts[v - 1].value, idx, w[dicts[v - 1].name], |dicts[v - 1].value|);
      }
    }
  }

  /** When every entry at `idx` is NaN, the 2-d part is 0 unless a weight is missing. */
  lemma {:induction false} Distance2dAllNan(dicts: seq<Named<seq<Keyed<Entry2d>>>>, n: nat, idx: nat, w: Weights, v: nat)
    requires v <= |dicts| && CondensedDicts(dicts, n) && idx < CondensedLength(n)
    requires forall k, e :: 0 <= k < |dicts| && 0 <= e < |dicts[k].value| ==> dicts[k].value[e].value.vector[idx].None?
    ensures Distance2d(dicts, n, idx, w, v).Ok? ==> Distance2d(dicts, n, idx, w, v).value == 0.0
  {
    if v > 0 {
      Distance2dAllNan(dicts, n, idx, w, v - 1);
      var init := Distance2d(dicts, n, idx, w, v - 1);
      if init.Ok? && dicts[v - 1].name in w {
        AddSquaresSkipsNan(init.value, dicts[v - 1].value, idx, w[dicts[v - 1].name], |dicts[v - 1].value|);
      }
    }
  }

  /** Step 3c: the running sum over every variable and, inside, over every component. */
  method Sum2d(dicts: seq<Named<seq<Keyed<Entry2d>>>>, n: nat, idx: nat, w: Weights) returns (r: Result<real>)
    requires CondensedDicts(dicts, n) && idx < CondensedLength(n)
    ensures r == Distance2d(dicts, n, idx, w, |dicts|)
  {
    var total := 0.0;
    var v := 0;
    while v < |dicts|
      invariant 0 <= v <= |dicts|
      invariant Distance2d(dicts, n, idx, w, v) == Ok(total)
    {
      var name := dicts[v].name;
      if name !in w {
        Distance2dErrorStays(dicts, n, idx, w, v + 1, |dicts|);
        return Err(KeyError(name));
      }
      var es := dicts[v].value;
      assert forall e :: 0 <= e < |es| ==> es[e].value.Distances? && idx < |es[e].value.vector|;
      ghost var start := total;
      var j := 0;
      while j < |es|
        invariant 0 <= j <= |es|
        invariant total == AddSquares(start, es, idx, w[name], j)
      {
        var c := es[j].value.vector[idx];
        if c.Some? {
          total := total + c.value * c.value * w[name];
        }
        j := j + 1;
      }
      v := v + 1;
    }
    r := Ok(total);
  }

  /**
   * The lookup formula, for regions `x` and `y` with x <= 1, reads the entry of
   * the pair (x, y) itself: for a dissimilarity vector that is 1 minus the scaled matrix's
   * [x][y]. (For x >= 2 it reads another position; see `Condensed.LookupReadsOtherPair`.)
   */
  lemma LookupReadsPairInFirstRows(m: Matrix, x: nat, y: nat)
    requires IsSquare(m) && x < y < |m| && x <= 1
    ensures 0 <= LookupIndex(|m|, x, y) < |Dissimilarity(m)|
    ensures Dissimilarity(m)[LookupIndex(|m|, x, y)] == Sub(Some(1.0), m[x][y])
  {
    LookupMatchesOnlyFirstRows(|m|, x, y);
    DissimilarityAt(m, x, y);
  }

  // ---------------------------------------------------------------------------------------
  // The distance (steps 1, 2 and 4)
  // ---------------------------------------------------------------------------------------

  /** The variables of the three dicts, time series first. */
  function AllNames(ts: seq<Named<Matrix>>, oned: seq<Named<Matrix>>, twod: seq<Named<seq<Keyed<Entry2d>>>>): seq<string>
  {
    Names(ts) + Names(oned) + Names(twod)
  }

  /** Step 2: without part weights (None or an empty list) each part has weight 1. */
  function PartWeights(given: Option<seq<real>>): seq<real>
  {
    if given.Some? && |given.value| > 0 then given.value else [1.0, 1.0, 1.0]
  }

  /**
   * Step 4: the first failing part in the order the parts are computed, or else the three
   * parts times their part weights, added; a list of fewer than three part weights raises
   * an IndexError.
   */
  function Combine(dts: Result<Cell>, d1: Result<Cell>, d2: Result<real>, pw: seq<real>): Result<Cell>
  {
    if dts.Err? then dts
    else if d1.Err? then d1
    else if d2.Err? then Err(d2.error)
    else if |pw| < 3 then Err(IndexError("list index out of range"))
    else Ok(Add(Add(Mul(dts.value, Some(pw[0])), Mul(d1.value, Some(pw[1]))), Some(d2.value * pw[2])))
  }

  /**
   * The three parts, each over its dict in order, combined with the part weights, where
   * the 2-d part reads every condensed vector at position `idx`; a part-weight list shorter
   * than three raises an IndexError once the parts are computed.
   */
  function DistanceAt(ts: seq<Named<Matrix>>, oned: seq<Named<Matrix>>, twod: seq<Named<seq<Keyed<Entry2d>>>>,
                      n: nat, x: nat, y: nat, idx: nat, varW: Option<Weights>, partW: Option<seq<real>>): Result<Cell>
    requires x < n && y < n && idx < CondensedLength(n)
    requires RowsPerRegion(ts, n) && RowsPerRegion(oned, n) && CondensedDicts(twod, n)
  {
    var w := EffectiveWeights(varW, AllNames(ts, oned, twod));
    Combine(PartDistance(ts, n, x, y, w, |ts|), PartDistance(oned, n, x, y, w, |oned|),
            Distance2d(twod, n, idx, w, |twod|), PartWeights(partW))
  }

  /**
   * `selfDistance(ds_ts, ds_1d, ds_2d, n, x, y, var_weightings, part_weightings)`: the 2-d
   * part is read at the position the lookup formula gives, as written.
   */
  function SelfDistanceSpec(ts: seq<Named<Matrix>>, oned: seq<Named<Matrix>>, twod: seq<Named<seq<Keyed<Entry2d>>>>,
                            n: nat, x: nat, y: nat, varW: Option<Weights>, partW: Option<seq<real>>): Result<Cell>
    requires x < y < n
    requires RowsPerRegion(ts, n) && RowsPerRegion(oned, n) && CondensedDicts(twod, n)
  {
    LookupInBounds(n, x, y);
    DistanceAt(ts, oned, twod, n, x, y, LookupIndex(n, x, y) as nat, varW, partW)
  }

  /**
   * For regions x <= 1 the distance takes its 2-d part from the position where
   * `squareform` put the pair (x, y) itself.
   */
  lemma SelfDistanceReadsPairInFirstRows(ts: seq<Named<Matrix>>, oned: seq<Named<Matrix>>, twod: seq<Named<seq<Keyed<Entry2d>>>>,
                                         n: nat, x: nat, y: nat, varW: Option<Weights>, partW: Option<seq<real>>)
    requires x < y < n && x <= 1
    requires RowsPerRegion(ts, n) && RowsPerRegion(oned, n) && CondensedDicts(twod, n)
    ensures CondensedIndex(n, x, y) < CondensedLength(n)
    ensures SelfDistanceSpec(ts, oned, twod, n, x, y, varW, partW)
      == DistanceAt(ts, oned, twod, n, x, y, CondensedIndex(n, x, y), varW, partW)
  {
    LookupMatchesOnlyFirstRows(n, x, y);
    CondensedIndexInRow(n, x, y);
  }

  /**
   * With four regions or more the distance of regions 2 and 3 is computed from their own
   * time-series and 1-d rows but from the 2-d entries of the pair (1, n - 1).
   */
  lemma SelfDistanceMixesPairs(ts: seq<Named<Matrix>>, oned: seq<Named<Matrix>>, twod: seq<Named<seq<Keyed<Entry2d>>>>,
                               n: nat, varW: Option<Weights>, partW: Option<seq<real>>)
    requires n >= 4
    requires RowsPerRegion(ts, n) && RowsPerRegion(oned, n) && CondensedDicts(twod, n)
    ensures CondensedIndex(n, 1, n - 1) < CondensedLength(n)
    ensures SelfDistanceSpec(ts, oned, twod, n, 2, 3, varW, partW)
      == DistanceAt(ts, oned, twod, n, 2, 3, CondensedIndex(n, 1, n - 1), varW, partW)
  {
    LookupReadsLastOfRowOne(n);
    CondensedIndexInRow(n, 1, n - 1);
  }

  /**
   * The distance fails exactly when some variable of the three dicts has no weight (a
   * KeyError, which comes first) or the part weights are fewer than three (an IndexError).
   */
  lemma SelfDistanceErrors(ts: seq<Named<Matrix>>, oned: seq<Named<Matrix>>, twod: seq<Named<seq<Keyed<Entry2d>>>>,
                           n: nat, x: nat, y: nat, varW: Option<Weights>, partW: Option<seq<real>>)
    requires x < y < n
    requires RowsPerRegion(ts, n) && RowsPerRegion(oned, n) && CondensedDicts(twod, n)
    ensures var w := EffectiveWeights(varW, AllNames(ts, oned, twod));
      var missing := exists name :: name in AllNames(ts, oned, twod) && name !in w;
      var r := SelfDistanceSpec(ts, oned, twod, n, x, y, varW, partW);
      && (r.Err? <==> missing || |PartWeights(partW)| < 3)
      && (missing ==> r.Err? && r.error.KeyError? && r.error.key in AllNames(ts, oned, twod) && r.error.key !in w)
      && (!missing && r.Err? ==> r.error.IndexError?)
  {
    var w := EffectiveWeights(varW, AllNames(ts, oned, twod));
    LookupInBounds(n, x, y);
    var idx := LookupIndex(n, x, y) as nat;
    PartDistanceError(ts, n, x, y, w, |ts|);
    PartDistanceError(oned, n, x, y, w, |oned|);
    Distance2dError(twod, n, idx, w, |twod|);
    MissingName(ts, w);
    MissingName(oned, w);
    MissingName(twod, w);
    var r := SelfDistanceSpec(ts, oned, twod, n, x, y, varW, partW);
    if PartDistance(ts, n, x, y, w, |ts|).Err? {
      var k :| 0 <= k < |ts| && r.error == KeyError(ts[k].name);
      assert ts[k].name == Names(ts)[k];
    } else if PartDistance(oned, n, x, y, w, |oned|).Err? {
      var k :| 0 <= k < |oned| && r.error == KeyError(oned[k].name);
      assert oned[k].name == Names(oned)[k];
    } else if Distance2d(twod, n, idx, w, |twod|).Err? {
      var k :| 0 <= k < |twod| && r.error == KeyError(twod[k].name);
      assert twod[k].name == Names(twod)[k];
    }
  }

  /**
   * Without variable weights (None or an empty dict) no KeyError is raised; without part
   * weights as well the distance is always defined.
   */
  lemma DefaultWeightsSucceed(ts: seq<Named<Matrix>>, oned: seq<Named<Matrix>>, twod: seq<Named<seq<Keyed<Entry2d>>>>,
                              n: nat, x: nat, y: nat, varW: Option<Weights>, partW: Option<seq<real>>)
    requires x < y < n
    requires RowsPerRegion(ts, n) && RowsPerRegion(oned, n) && CondensedDicts(twod, n)
    requires varW.None? || varW.value == map[]
    ensures SelfDistanceSpec(ts, oned, twod, n, x, y, varW, partW).Err? <==> |PartWeights(partW)| < 3
    ensures partW.None? || partW.value == [] ==> SelfDistanceSpec(ts, oned, twod, n, x, y, varW, partW).Ok?
  {
    SelfDistanceErrors(ts, oned, twod, n, x, y, varW, partW);
  }

  /** With non-negative variable and part weights the distance is not negative. */
  lemma SelfDistanceNonNegative(ts: seq<Named<Matrix>>, oned: seq<Named<Matrix>>, twod: seq<Named<seq<Keyed<Entry2d>>>>,
                                n: nat, x: nat, y: nat, varW: Option<Weights>, partW: Option<seq<real>>)
    requires x < y < n
    requires RowsPerRegion(ts, n) && RowsPerRegion(oned, n) && CondensedDicts(twod, n)
    requires varW.Some? ==> forall name :: name in varW.value ==> varW.value[name] >= 0.0
    requires partW.Some? ==> forall p :: 0 <= p < |partW.value| ==> partW.value[p] >= 0.0
    ensures var r := SelfDistanceSpec(ts, oned, twod, n, x, y, varW, partW);
      r.Ok? && r.value.Some? ==> r.value.value >= 0.0
  {
    var w := EffectiveWeights(varW, AllNames(ts, oned, twod));
    LookupInBounds(n, x, y);
    var idx := LookupIndex(n, x, y) as nat;
    PartDistanceNonNegative(ts, n, x, y, w, |ts|);
    PartDistanceNonNegative(oned, n, x, y, w, |oned|);
    Distance2dNonNegative(twod, n, idx, w, |twod|);
    var dts := PartDistance(ts, n, x, y, w, |ts|);
    var d1 := PartDistance(oned, n, x, y, w, |oned|);
    var d2 := Distance2d(twod, n, idx, w, |twod|);
    CombineNonNegative(dts, d1, d2, PartWeights(partW));
  }

  lemma CombineNonNegative(dts: Result<Cell>, d1: Result<Cell>, d2: Result<real>, pw: seq<real>)
    requires dts.Ok? && dts.value.Some? ==> dts.value.value >= 0.0
    requires d1.Ok? && d1.value.Some? ==> d1.value.value >= 0.0
    requires d2.Ok? ==> d2.value >= 0.0
    requires forall p :: 0 <= p < |pw| ==> pw[p] >= 0.0
    ensures Combine(dts, d1, d2, pw).Ok? && Combine(dts, d1, d2, pw).value.Some? ==>
      Combine(dts, d1, d2, pw).value.value >= 0.0
  {
    if dts.Ok? && d1.Ok? && d2.Ok? && |pw| >= 3 && dts.value.Some? && d1.value.Some? {
      NonNegativeProduct(dts.value.value, pw[0]);
      NonNegativeProduct(d1.value.value, pw[1]);
      NonNegativeProduct(d2.value, pw[2]);
    }
  }

  /** Whether, and how, the distance fails does not depend on the two regions. */
  lemma SelfDistanceSameFailure(ts: seq<Named<Matrix>>, oned: seq<Named<Matrix>>, twod: seq<Named<seq<Keyed<Entry2d>>>>,
                                n: nat, x: nat, y: nat, x': nat, y': nat, varW: Option<Weights>, partW: Option<seq<real>>)
    requires x < y < n && x' < y' < n
    requires RowsPerRegion(ts, n) && RowsPerRegion(oned, n) && CondensedDicts(twod, n)
    ensures SelfDistanceSpec(ts, oned, twod, n, x, y, varW, partW).Err?
      == SelfDistanceSpec(ts, oned, twod, n, x', y', varW, partW).Err?
    ensures SelfDistanceSpec(ts, oned, twod, n, x, y, varW, partW).Err? ==>
      SelfDistanceSpec(ts, oned, twod, n, x, y, varW, partW) == SelfDistanceSpec(ts, oned, twod, n, x', y', varW, partW)
  {
    var w := EffectiveWeights(varW, AllNames(ts, oned, twod));
    LookupInBounds(n, x, y);
    LookupInBounds(n, x', y');
    PartDistanceSameFailure(ts, n, x, y, x', y', w, |ts|);
    PartDistanceSameFailure(oned, n, x, y, x', y', w, |oned|);
    Distance2dSameFailure(twod, n, LookupIndex(n, x, y) as nat, LookupIndex(n, x', y') as nat, w, |twod|);
  }

  /** `selfDistance`: steps 1 to 4 in order. */
  method SelfDistance(ts: seq<Named<Matrix>>, oned: seq<Named<Matrix>>, twod: seq<Named<seq<Keyed<Entry2d>>>>,
                      n: nat, x: nat, y: nat, varW: Option<Weights>, partW: Option<seq<real>>) returns (r: Result<Cell>)
    requires x < y < n
    requires RowsPerRegion(ts, n) && RowsPerRegion(oned, n) && CondensedDicts(twod, n)
    ensures r == SelfDistanceSpec(ts, oned, twod, n, x, y, varW, partW)
  {
    var w := EffectiveWeights(varW, AllNames(ts, oned, twod));
    var pw := PartWeights(partW);
    var dts := PartSum(ts, n, x, y, w);
    if dts.Err? {
      return Err(dts.error);
    }
    var d1 := PartSum(oned, n, x, y, w);
    if d1.Err? {
      return Err(d1.error);
    }
    LookupInBounds(n, x, y);
    var idx := LookupIndex(n, x, y) as nat;
    var d2 := Sum2d(twod, n, idx, w);
    if d2.Err? {
      return Err(d2.error);
    }
    r := Combine(dts, d1, d2, pw);
  }

  // ---------------------------------------------------------------------------------------
  // The distance matrix
  // ---------------------------------------------------------------------------------------

  /**
   * Step 1 of `selfDistanceMatrix`, for a given distance `dist` of a pair: a fresh n x n
   * array of zeros with dist(i, j) written at [i, j] for every i < j, row by row; the first
   * failing distance is returned instead.
   */
  method FillPairs(n: nat, dist: (nat, nat) -> Result<Cell>) returns (r: Result<array2<Cell>>)
    ensures r.Err? ==> exists p, q :: 0 <= p < q < n && dist(p, q) == Err(r.error)
    ensures r.Ok? ==> fresh(r.value) && r.value.Length0 == n && r.value.Length1 == n
    ensures r.Ok? ==> forall p, q :: 0 <= p < q < n ==> dist(p, q) == Ok(r.value[p, q])
    ensures r.Ok? ==> forall p, q :: 0 <= q <= p < n ==> r.value[p, q] == Some(0.0)
  {
    var a := new Cell[n, n]((i, j) => Some(0.0));
    var i := 0;
    while i < n
      modifies a
      invariant 0 <= i <= n
      invariant forall p, q :: 0 <= p < i && p < q < n ==> dist(p, q) == Ok(a[p, q])
      invariant forall p, q :: 0 <= q < n && i <= p < n ==> a[p, q] == Some(0.0)
      invariant forall p, q :: 0 <= q <= p < n ==> a[p, q] == Some(0.0)
    {
      var j := i + 1;
      while j < n
        modifies a
        invariant i + 1 <= j <= n
        invariant forall p, q :: 0 <= p < i && p < q < n ==> dist(p, q) == Ok(a[p, q])
        invariant forall q :: i < q < j ==> dist(i, q) == Ok(a[i, q])
        invariant forall q :: 0 <= q <= i || j <= q < n ==> a[i, q] == Some(0.0)
        invariant forall p, q :: 0 <= q < n && i < p < n ==> a[p, q] == Some(0.0)
        invariant forall p, q :: 0 <= q <= p < n ==> a[p, q] == Some(0.0)
      {
        var d := dist(i, j);
        if d.Err? {
          return Err(d.error);
        }
        a[i, j] := d.value;
        j := j + 1;
      }
      i := i + 1;
    }
    r := Ok(a);
  }

  /**
   * `selfDistanceMatrix(ds_ts, ds_1d, ds_2d, n, var_weightings)`: the distance of every pair
   * i < j (default part weights) at [i, j] and [j, i], and 0 on the diagonal. It fails when
   * the distance does, which happens for every pair or for none.
   */
  method SelfDistanceMatrix(ts: seq<Named<Matrix>>, oned: seq<Named<Matrix>>, twod: seq<Named<seq<Keyed<Entry2d>>>>,
                            n: nat, varW: Option<Weights>) returns (r: Result<array2<Cell>>)
    requires RowsPerRegion(ts, n) && RowsPerRegion(oned, n) && CondensedDicts(twod, n)
    ensures r.Err? <==> n >= 2 && SelfDistanceSpec(ts, oned, twod, n, 0, 1, varW, None).Err?
    ensures n >= 2 && r.Err? ==> r.error == SelfDistanceSpec(ts, oned, twod, n, 0, 1, varW, None).error
    ensures r.Ok? ==> fresh(r.value) && r.value.Length0 == n && r.value.Length1 == n
    ensures r.Ok? ==> forall i :: 0 <= i < n ==> r.value[i, i] == Some(0.0)
    ensures r.Ok? ==> forall i, j :: 0 <= i < j < n ==>
      && SelfDistanceSpec(ts, oned, twod, n, i, j, varW, None) == Ok(r.value[i, j])
      && r.value[j, i] == r.value[i, j]
  {
    var dist := (p: nat, q: nat) => if p < q < n then SelfDistanceSpec(ts, oned, twod, n, p, q, varW, None) else Ok(None);
    r := FillPairs(n, dist);
    if r.Err? {
      var p, q :| 0 <= p < q < n && dist(p, q) == Err(r.error);
      SelfDistanceSameFailure(ts, oned, twod, n, p, q, 0, 1, varW, None);
      return;
    }
    if n >= 2 {
      assert dist(0, 1) == Ok(r.value[0, 1]);
    }
    var a := r.value;
    label Filled:
    Symmetrize(a);
    forall p, q | 0 <= p < q < n
      ensures a[p, q] == old@Filled(a[p, q]) && a[q, p] == old@Filled(a[p, q])
    {
      ReflectCell(old@Filled(a[p, q]));
    }
    forall p | 0 <= p < n
      ensures a[p, p] == Some(0.0)
    {
      ReflectCell(Some(0.0));
    }
  }
}
