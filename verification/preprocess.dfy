/**
 * `preprocessDataset`: the variables of a dataset are sorted into time-series, 1-d and
 * 2-d categories and preprocessed per category; in affinity mode the per-variable results
 * are then weighted and merged into three matrices.
 */
module Preprocess {
  import opened Wrappers
  import opened Numeric
  import opened Matrices
  import opened Dataset
  import opened TimeSeries
  import opened Scalar
  import opened Pairwise

  /** The `var_weightings` dict: a weight per variable name. */
  type Weights = map<string, real>

  /** What `preprocessDataset` returns for each handle mode. */
  datatype Preprocessed =
    | Dissimilarities(ts: seq<Named<Matrix>>, oned: seq<Named<Matrix>>, twod: seq<Named<seq<Keyed<Entry2d>>>>)
    | Affinities(tsMatrix: Matrix, onedMatrix: Matrix, twodMatrix: Matrix)
    | NoResult   // any other handle mode: the function ends without a return value

  /**
   * `if not var_weightings`: a missing or empty dict is replaced by weight 1 for every
   * variable of the three categories; a given non-empty dict is used as it is.
   */
  function EffectiveWeights(given: Option<Weights>, names: seq<string>): (r: Weights)
    ensures given.Some? && given.value != map[] ==> r == given.value
    ensures (given.None? || given.value == map[]) ==>
      (forall x :: x in r <==> x in names) && forall x :: x in r ==> r[x] == 1.0
  {
    if given.Some? && given.value != map[] then given.value
    else map x | x in names :: 1.0
  }

  // ---------------------------------------------------------------------------------------
  // Weighted concatenation (steps 4a and 4b)
  // ---------------------------------------------------------------------------------------

  /**
   * The matrices of the first `v` variables side by side, each multiplied by its
   * variable's weight; the first variable without a weight raises a KeyError.
   */
  function WeightedColumns(dicts: seq<Named<Matrix>>, n: nat, w: Weights, v: nat): (r: Result<Matrix>)
    requires v <= |dicts|
    requires forall k :: 0 <= k < |dicts| ==> |dicts[k].value| == n
    ensures r.Ok? ==> |r.value| == n
  {
    if v == 0 then Ok(NoColumns(n))
    else
      var init := WeightedColumns(dicts, n, w, v - 1);
      if init.Err? then init
      else if dicts[v - 1].name !in w then Err(KeyError(dicts[v - 1].name))
      else Ok(HConcat(init.value, Weighted(dicts[v - 1].value, w[dicts[v - 1].name])))
  }

  /** Once a variable misses its weight, later variables do not change the outcome. */
  lemma {:induction false} WeightedColumnsErrorStays(dicts: seq<Named<Matrix>>, n: nat, w: Weights, v: nat, u: nat)
    requires v <= u <= |dicts|
    requires forall k :: 0 <= k < |dicts| ==> |dicts[k].value| == n
    requires WeightedColumns(dicts, n, w, v).Err?
    ensures WeightedColumns(dicts, n, w, u) == WeightedColumns(dicts, n, w, v)
  {
    if u > v {
      WeightedColumnsErrorStays(dicts, n, w, v, u - 1);
    }
  }

  /**
   * The weighted concatenation fails exactly when a variable has no weight, with the
   * KeyError of the first such variable.
   */
  lemma {:induction false} WeightedColumnsError(dicts: seq<Named<Matrix>>, n: nat, w: Weights, v: nat)
    requires v <= |dicts|
    requires forall k :: 0 <= k < |dicts| ==> |dicts[k].value| == n
    ensures WeightedColumns(dicts, n, w, v).Err? <==> exists k :: 0 <= k < v && dicts[k].name !in w
    ensures WeightedColumns(dicts, n, w, v).Err? ==> exists k :: (0 <= k < v && dicts[k].name !in w
      && WeightedColumns(dicts, n, w, v).error == KeyError(dicts[k].name) && forall l :: 0 <= l < k ==> dicts[l].name in w)
  {
    if v > 0 {
      WeightedColumnsError(dicts, n, w, v - 1);
      if WeightedColumns(dicts, n, w, v - 1).Ok? && dicts[v - 1].name !in w {
        assert forall l :: 0 <= l < v - 1 ==> dicts[l].name in w;
        assert WeightedColumns(dicts, n, w, v).error == KeyError(dicts[v - 1].name);
      }
    }
  }

  /**
   * The weighted matrix of variable `k` occupies the columns of row `i` right after those
   * of the variables before it.
   */
  lemma {:induction false} WeightedColumnsBlock(dicts: seq<Named<Matrix>>, n: nat, w: Weights, v: nat, k: nat, i: nat)
    requires k < v <= |dicts| && i < n
    requires forall k :: 0 <= k < |dicts| ==> |dicts[k].value| == n
    requires WeightedColumns(dicts, n, w, v).Ok?
    ensures WeightedColumns(dicts, n, w, k).Ok? && dicts[k].name in w
    ensures var off := |WeightedColumns(dicts, n, w, k).value[i]|;
      var block := Weighted(dicts[k].value, w[dicts[k].name])[i];
      && off + |block| <= |WeightedColumns(dicts, n, w, v).value[i]|
      && WeightedColumns(dicts, n, w, v).value[i][off..off + |block|] == block
  {
    var prev := WeightedColumns(dicts, n, w, v - 1);
    if k < v - 1 {
      WeightedColumnsBlock(dicts, n, w, v - 1, k, i);
      var off := |WeightedColumns(dicts, n, w, k).value[i]|;
      var block := Weighted(dicts[k].value, w[dicts[k].name])[i];
      var row := WeightedColumns(dicts, n, w, v).value[i];
      assert row == prev.value[i] + Weighted(dicts[v - 1].value, w[dicts[v - 1].name])[i];
      assert row[off..off + |block|] == prev.value[i][off..off + |block|];
    }
  }

  /** The matrices of the first `v` variables side by side, unweighted. */
  function SideBySide(dicts: seq<Named<Matrix>>, n: nat, v: nat): (r: Matrix)
    requires v <= |dicts|
    requires forall k :: 0 <= k < |dicts| ==> |dicts[k].value| == n
    ensures |r| == n
  {
    if v == 0 then NoColumns(n) else HConcat(SideBySide(dicts, n, v - 1), dicts[v - 1].value)
  }

  /** Weighting by 1 changes no cell, NaN included. */
  lemma WeightedByOne(m: Matrix)
    ensures Weighted(m, 1.0) == m
  {
    assert forall i :: 0 <= i < |m| ==> Weighted(m, 1.0)[i] == m[i];
  }

  /**
   * With weight 1 for every variable the weighted concatenation is the plain concatenation
   * of the per-variable matrices.
   */
  lemma {:induction false} UnitWeightColumns(dicts: seq<Named<Matrix>>, n: nat, w: Weights, v: nat)
    requires v <= |dicts|
    requires forall k :: 0 <= k < |dicts| ==> |dicts[k].value| == n
    requires forall k :: 0 <= k < |dicts| ==> dicts[k].name in w && w[dicts[k].name] == 1.0
    ensures WeightedColumns(dicts, n, w, v) == Ok(SideBySide(dicts, n, v))
  {
    if v > 0 {
      UnitWeightColumns(dicts, n, w, v - 1);
      WeightedByOne(dicts[v - 1].value);
    }
  }

  /** A leading zero column, then the matrix `m`. */
  function ZeroThen(m: Matrix): (r: Matrix)
    ensures |r| == |m| && forall i :: 0 <= i < |m| ==> r[i] == [Some(0.0)] + m[i]
  {
    HConcat(Zeros(|m|, 1), m)
  }

  /** Deleting the leading zero column gives back the matrix. */
  lemma DropZeroThen(m: Matrix)
    ensures DropFirstColumn(ZeroThen(m)) == m
  {
    assert forall i :: 0 <= i < |m| ==> DropFirstColumn(ZeroThen(m))[i] == m[i];
  }

  /** Concatenating a block after the zero column extends the matrix behind it. */
  lemma ZeroThenConcat(m: Matrix, b: Matrix)
    requires |m| == |b|
    ensures HConcat(ZeroThen(m), b) == ZeroThen(HConcat(m, b))
  {
    forall i | 0 <= i < |m|
      ensures HConcat(ZeroThen(m), b)[i] == ZeroThen(HConcat(m, b))[i]
    {
      assert ([Some(0.0)] + m[i]) + b[i] == [Some(0.0)] + (m[i] + b[i]);
    }
  }

  /** One more variable either raises its KeyError or appends its weighted matrix. */
  lemma WeightedColumnsStep(dicts: seq<Named<Matrix>>, n: nat, w: Weights, v: nat)
    requires v < |dicts|
    requires forall k :: 0 <= k < |dicts| ==> |dicts[k].value| == n
    requires WeightedColumns(dicts, n, w, v).Ok?
    ensures dicts[v].name !in w ==> WeightedColumns(dicts, n, w, |dicts|) == Err(KeyError(dicts[v].name))
    ensures dicts[v].name in w ==>
      WeightedColumns(dicts, n, w, v + 1) == Ok(HConcat(WeightedColumns(dicts, n, w, v).value, Weighted(dicts[v].value, w[dicts[v].name])))
  {
    if dicts[v].name !in w {
      WeightedColumnsErrorStays(dicts, n, w, v + 1, |dicts|);
    }
  }

  /**
   * Steps 4a and 4b of `preprocessDataset`: start from a zero column, concatenate each
   * variable's matrix times its weight (`var_weightings[var]`), then delete the zero column.
   */
  method WeightedConcat(dicts: seq<Named<Matrix>>, n: nat, w: Weights) returns (r: Result<Matrix>)
    requires forall k :: 0 <= k < |dicts| ==> |dicts[k].value| == n
    ensures r == WeightedColumns(dicts, n, w, |dicts|)
  {
    var m := Zeros(n, 1);
    assert forall i :: 0 <= i < n ==> m[i] == ZeroThen(NoColumns(n))[i];
    var v := 0;
    while v < |dicts|
      invariant v <= |dicts|
      invariant WeightedColumns(dicts, n, w, v).Ok?
      invariant m == ZeroThen(WeightedColumns(dicts, n, w, v).value)
    {
      WeightedColumnsStep(dicts, n, w, v);
      var name := dicts[v].name;
      if name !in w {
        return Err(KeyError(name));
      }
      var weight := w[name];
      ZeroThenConcat(WeightedColumns(dicts, n, w, v).value, Weighted(dicts[v].value, weight));
      m := HConcat(m, Weighted(dicts[v].value, weight));
      v := v + 1;
    }
    DropZeroThen(WeightedColumns(dicts, n, w, v).value);
    r := Ok(DropFirstColumn(m));
  }

  // ---------------------------------------------------------------------------------------
  // Weighted sum of the 2-d affinity matrices (step 4c)
  // ---------------------------------------------------------------------------------------

  /** Every entry of every 2-d dict is an `n` x `n` affinity matrix. */
  ghost predicate SquareDicts(dicts: seq<Named<seq<Keyed<Entry2d>>>>, n: nat)
  {
    forall k, e :: 0 <= k < |dicts| && 0 <= e < |dicts[k].value| ==>
      dicts[k].value[e].value.Affinity? && IsMatrix(dicts[k].value[e].value.matrix, n, n)
  }

  /** `acc` plus the first `j` component matrices of one variable, each times `w`. */
  function AddComponents(acc: Matrix, es: seq<Keyed<Entry2d>>, n: nat, w: real, j: nat): (r: Matrix)
    requires IsMatrix(acc, n, n) && j <= |es|
    requires forall e :: 0 <= e < |es| ==> es[e].value.Affinity? && IsMatrix(es[e].value.matrix, n, n)
    ensures IsMatrix(r, n, n)
  {
    if j == 0 then acc else Plus(AddComponents(acc, es, n, w, j - 1), Weighted(es[j - 1].value.matrix, w))
  }

  /**
   * The zero matrix plus every component matrix of the first `v` variables times its
   * variable's weight; the first variable without a weight raises a KeyError, even one
   * without a component.
   */
  function WeightedSum(dicts: seq<Named<seq<Keyed<Entry2d>>>>, n: nat, w: Weights, v: nat): (r: Result<Matrix>)
    requires v <= |dicts| && SquareDicts(dicts, n)
    ensures r.Ok? ==> IsMatrix(r.value, n, n)
  {
    if v == 0 then Ok(Zeros(n, n))
    else
      var init := WeightedSum(dicts, n, w, v - 1);
      if init.Err? then init
      else if dicts[v - 1].name !in w then Err(KeyError(dicts[v - 1].name))
      else Ok(AddComponents(init.value, dicts[v - 1].value, n, w[dicts[v - 1].name], |dicts[v - 1].value|))
  }

  /** Once a variable misses its weight, later variables do not change the outcome. */
  lemma {:induction false} WeightedSumErrorStays(dicts: seq<Named<seq<Keyed<Entry2d>>>>, n: nat, w: Weights, v: nat, u: nat)
    requires v <= u <= |dicts| && SquareDicts(dicts, n)
    requires WeightedSum(dicts, n, w, v).Err?
    ensures WeightedSum(dicts, n, w, u) == WeightedSum(dicts, n, w, v)
  {
    if u > v {
      WeightedSumErrorStays(dicts, n, w, v, u - 1);
    }
  }

  /**
   * The weighted sum fails exactly when a 2-d variable has no weight, with the KeyError
   * of the first such variable.
   */
  lemma {:induction false} WeightedSumError(dicts: seq<Named<seq<Keyed<Entry2d>>>>, n: nat, w: Weights, v: nat)
    requires v <= |dicts| && SquareDicts(dicts, n)
    ensures WeightedSum(dicts, n, w, v).Err? <==> exists k :: 0 <= k < v && dicts[k].name !in w
    ensures WeightedSum(dicts, n, w, v).Err? ==> exists k :: (0 <= k < v && dicts[k].name !in w
      && WeightedSum(dicts, n, w, v).error == KeyError(dicts[k].name) && forall l :: 0 <= l < k ==> dicts[l].name in w)
  {
    if v > 0 {
      WeightedSumError(dicts, n, w, v - 1);
      if WeightedSum(dicts, n, w, v - 1).Ok? && dicts[v - 1].name !in w {
        assert forall l :: 0 <= l < v - 1 ==> dicts[l].name in w;
        assert WeightedSum(dicts, n, w, v).error == KeyError(dicts[v - 1].name);
      }
    }
  }

  /** Every cell is NaN or at least 0. */
  ghost predicate NonNegative(m: Matrix)
  {
    forall i, j :: 0 <= i < |m| && 0 <= j < |m[i]| && m[i][j].Some? ==> m[i][j].value >= 0.0
  }

  lemma {:induction false} AddComponentsNonNegative(acc: Matrix, es: seq<Keyed<Entry2d>>, n: nat, w: real, j: nat)
    requires IsMatrix(acc, n, n) && j <= |es| && NonNegative(acc) && w >= 0.0
    requires forall e :: 0 <= e < |es| ==> es[e].value.Affinity? && IsMatrix(es[e].value.matrix, n, n)
    requires forall e :: 0 <= e < |es| ==> NonNegative(es[e].value.matrix)
    ensures NonNegative(AddComponents(acc, es, n, w, j))
  {
    if j > 0 {
      AddComponentsNonNegative(acc, es, n, w, j - 1);
      var prev := AddComponents(acc, es, n, w, j - 1);
      var b := Weighted(es[j - 1].value.matrix, w);
      forall i, c | 0 <= i < n && 0 <= c < n && Plus(prev, b)[i][c].Some?
        ensures Plus(prev, b)[i][c].value >= 0.0
      {
        assert es[j - 1].value.matrix[i][c].Some?;
        assert es[j - 1].value.matrix[i][c].value >= 0.0;
      }
    }
  }

  /**
   * With non-negative weights and non-negative component matrices, the summed 2-d matrix
   * has no negative entry.
   */
  lemma {:induction false} WeightedSumNonNegative(dicts: seq<Named<seq<Keyed<Entry2d>>>>, n: nat, w: Weights, v: nat)
    requires v <= |dicts| && SquareDicts(dicts, n)
    requires forall x :: x in w ==> w[x] >= 0.0
    requires forall k, e :: 0 <= k < |dicts| && 0 <= e < |dicts[k].value| ==> NonNegative(dicts[k].value[e].value.matrix)
    requires WeightedSum(dicts, n, w, v).Ok?
    ensures NonNegative(WeightedSum(dicts, n, w, v).value)
  {
    if v > 0 {
      WeightedSumNonNegative(dicts, n, w, v - 1);
      var es := dicts[v - 1].value;
      AddComponentsNonNegative(WeightedSum(dicts, n, w, v - 1).value, es, n, w[dicts[v - 1].name], |es|);
    }
  }

  /** One more 2-d variable either raises its KeyError or adds its weighted components. */
  lemma WeightedSumStep(dicts: seq<Named<seq<Keyed<Entry2d>>>>, n: nat, w: Weights, v: nat, m: Matrix)
    requires v < |dicts| && SquareDicts(dicts, n)
    requires WeightedSum(dicts, n, w, v) == Ok(m)
    ensures dicts[v].name !in w ==> WeightedSum(dicts, n, w, |dicts|) == Err(KeyError(dicts[v].name))
    ensures dicts[v].name in w ==>
      WeightedSum(dicts, n, w, v + 1) == Ok(AddComponents(m, dicts[v].value, n, w[dicts[v].name], |dicts[v].value|))
  {
    if dicts[v].name !in w {
      WeightedSumErrorStays(dicts, n, w, v + 1, |dicts|);
    }
  }

  /**
   * Step 4c (ii) of `preprocessDataset`: `matrix_2d` starts as the zero matrix and every
   * component matrix of every 2-d variable, times the variable's weight, is added to it.
   */
  method SumAffinities(dicts: seq<Named<seq<Keyed<Entry2d>>>>, n: nat, w: Weights) returns (r: Result<Matrix>)
    requires SquareDicts(dicts, n)
    ensures r == WeightedSum(dicts, n, w, |dicts|)
  {
    var m := Zeros(n, n);
    var v := 0;
    while v < |dicts|
      invariant v <= |dicts|
      invariant WeightedSum(dicts, n, w, v) == Ok(m)
    {
      WeightedSumStep(dicts, n, w, v, m);
      var name := dicts[v].name;
      if name !in w {
        return Err(KeyError(name));
      }
      var weight := w[name];
      var es := dicts[v].value;
      ghost var start := m;
      var e := 0;
      while e < |es|
        invariant e <= |es|
        invariant m == AddComponents(start, es, n, weight, e)
      {
        m := Plus(m, Weighted(es[e].value.matrix, weight));
        e := e + 1;
      }
      v := v + 1;
    }
    r := Ok(m);
  }

  // ---------------------------------------------------------------------------------------
  // The whole of preprocessDataset
  // ---------------------------------------------------------------------------------------

  /** Two dicts with the same keys in the same order have the same names. */
  lemma SameNames<A, B>(a: seq<Named<A>>, b: seq<Named<B>>)
    requires |a| == |b| && forall k :: 0 <= k < |a| ==> a[k].name == b[k].name
    ensures Names(a) == Names(b)
  {
  }

  /** A dict entry lacks a weight exactly when one of the dict's names does. */
  lemma MissingName<V>(d: seq<Named<V>>, w: Weights)
    ensures (exists k :: 0 <= k < |d| && d[k].name !in w) <==> (exists x :: x in Names(d) && x !in w)
  {
    if exists x :: x in Names(d) && x !in w {
      var x :| x in Names(d) && x !in w;
      var k :| 0 <= k < |d| && Names(d)[k] == x;
      assert d[k].name !in w;
    }
  }

  /** The 1-d dict has a row per region in each matrix and the 1-d variables' names. */
  lemma ScalarDictsShape(vars: seq<Named<Matrix>>, n: nat)
    requires forall k :: 0 <= k < |vars| ==> IsMatrix(vars[k].value, |vars[k].value|, n)
    ensures ScalarDicts(vars, n).Ok? ==>
      Rows(ScalarDicts(vars, n).value, n) && Names(ScalarDicts(vars, n).value) == Names(vars)
  {
    ScalarDictsSpec(vars, n);
    if ScalarDicts(vars, n).Ok? {
      SameNames(ScalarDicts(vars, n).value, vars);
    }
  }

  /** In affinity mode the 2-d dict holds square matrices over the regions and the 2-d variables' names. */
  lemma AffinityDictsShape(vars: seq<Named<Cube>>, space: seq<string>, space2: seq<string>)
    requires forall k :: 0 <= k < |vars| ==> IsCube(vars[k].value, |space|, |space2|)
    ensures Dicts2d(vars, space, space2, ToAffinity).Ok? ==>
      && SquareDicts(Dicts2d(vars, space, space2, ToAffinity).value, |space|)
      && Names(Dicts2d(vars, space, space2, ToAffinity).value) == Names(vars)
  {
    Dicts2dSpec(vars, space, space2, ToAffinity);
    if Dicts2d(vars, space, space2, ToAffinity).Ok? {
      SameNames(Dicts2d(vars, space, space2, ToAffinity).value, vars);
    }
  }

  /**
   * Steps 4a to 4c of the affinity mode, given the time-series and 1-d dicts and the
   * outcome of `preprocess2dVariables`: the weighted time-series matrix, the weighted 1-d
   * matrix, then the 2-d dict and its weighted sum.
   */
  function AffinityMatrices(ts: seq<Named<Matrix>>, oned: seq<Named<Matrix>>,
                            twod: Result<seq<Named<seq<Keyed<Entry2d>>>>>, n: nat, w: Weights): Result<Preprocessed>
    requires forall k :: 0 <= k < |ts| ==> |ts[k].value| == n
    requires forall k :: 0 <= k < |oned| ==> |oned[k].value| == n
    requires twod.Ok? ==> SquareDicts(twod.value, n)
  {
    var mts :- WeightedColumns(ts, n, w, |ts|);
    var m1 :- WeightedColumns(oned, n, w, |oned|);
    var dicts :- twod;
    var m2 :- WeightedSum(dicts, n, w, |dicts|);
    Ok(Affinities(mts, m1, m2))
  }

  /** Every matrix of the dict has a row per region. */
  ghost predicate Rows(dicts: seq<Named<Matrix>>, n: nat)
  {
    forall k :: 0 <= k < |dicts| ==> |dicts[k].value| == n
  }

  /**
   * The return value of `preprocessDataset` from the outcomes of its steps: the time-series
   * dict, the outcome of `preprocess1dVariables`, and the outcomes of `preprocess2dVariables`
   * in each mode. The 1-d outcome is checked first, whatever the mode.
   */
  function Assemble(ts: seq<Named<Matrix>>, oned: Result<seq<Named<Matrix>>>,
                    diss: Result<seq<Named<seq<Keyed<Entry2d>>>>>, aff: Result<seq<Named<seq<Keyed<Entry2d>>>>>,
                    n: nat, mode: HandleMode, w: Weights): Result<Preprocessed>
    requires Rows(ts, n) && (oned.Ok? ==> Rows(oned.value, n)) && (aff.Ok? ==> SquareDicts(aff.value, n))
  {
    var one :- oned;
    match mode
    case ToDissimilarity =>
      var twod :- diss;
      Ok(Dissimilarities(ts, one, twod))
    case ToAffinity => AffinityMatrices(ts, one, aff, n, w)
    case OtherMode => Ok(NoResult)
  }

  /** In dissimilarity mode the outcome is the three dicts, unless the 1-d or the 2-d step fails. */
  lemma AssembleDissimilarity(ts: seq<Named<Matrix>>, oned: Result<seq<Named<Matrix>>>,
                              diss: Result<seq<Named<seq<Keyed<Entry2d>>>>>, aff: Result<seq<Named<seq<Keyed<Entry2d>>>>>,
                              n: nat, w: Weights)
    requires Rows(ts, n) && (oned.Ok? ==> Rows(oned.value, n)) && (aff.Ok? ==> SquareDicts(aff.value, n))
    ensures Assemble(ts, oned, diss, aff, n, ToDissimilarity, w).Err? <==> oned.Err? || diss.Err?
    ensures Assemble(ts, oned, diss, aff, n, ToDissimilarity, w).Ok? ==>
      Assemble(ts, oned, diss, aff, n, ToDissimilarity, w).value == Dissimilarities(ts, oned.value, diss.value)
  {
  }

  /** Any other mode gives no result, unless the 1-d step fails. */
  lemma AssembleOther(ts: seq<Named<Matrix>>, oned: Result<seq<Named<Matrix>>>,
                      diss: Result<seq<Named<seq<Keyed<Entry2d>>>>>, aff: Result<seq<Named<seq<Keyed<Entry2d>>>>>,
                      n: nat, w: Weights)
    requires Rows(ts, n) && (oned.Ok? ==> Rows(oned.value, n)) && (aff.Ok? ==> SquareDicts(aff.value, n))
    ensures Assemble(ts, oned, diss, aff, n, OtherMode, w) == if oned.Err? then Err(oned.error) else Ok(NoResult)
  {
  }

  /**
   * In affinity mode the outcome fails exactly when the 1-d or the 2-d step fails or a
   * variable of one of the three dicts has no weight.
   */
  lemma AssembleAffinityErrors(ts: seq<Named<Matrix>>, oned: Result<seq<Named<Matrix>>>,
                               diss: Result<seq<Named<seq<Keyed<Entry2d>>>>>, aff: Result<seq<Named<seq<Keyed<Entry2d>>>>>,
                               n: nat, w: Weights)
    requires Rows(ts, n) && (oned.Ok? ==> Rows(oned.value, n)) && (aff.Ok? ==> SquareDicts(aff.value, n))
    ensures Assemble(ts, oned, diss, aff, n, ToAffinity, w).Err? <==>
      || oned.Err?
      || aff.Err?
      || exists x :: x in Names(ts) + Names(oned.value) + Names(aff.value) && x !in w
  {
    MissingName(ts, w);
    WeightedColumnsError(ts, n, w, |ts|);
    if oned.Ok? && aff.Ok? {
      MissingName(oned.value, w);
      MissingName(aff.value, w);
      WeightedColumnsError(oned.value, n, w, |oned.value|);
      WeightedSumError(aff.value, n, w, |aff.value|);
    }
  }

  /**
   * With weight 1 for every name of the three dicts, the time-series and 1-d matrices are
   * the per-variable matrices side by side, unweighted.
   */
  lemma AssembleUnitWeights(ts: seq<Named<Matrix>>, oned: Result<seq<Named<Matrix>>>,
                            diss: Result<seq<Named<seq<Keyed<Entry2d>>>>>, aff: Result<seq<Named<seq<Keyed<Entry2d>>>>>,
                            n: nat, w: Weights)
    requires Rows(ts, n) && (oned.Ok? ==> Rows(oned.value, n)) && (aff.Ok? ==> SquareDicts(aff.value, n))
    requires oned.Ok?
    requires forall x :: x in Names(ts) + Names(oned.value) ==> x in w && w[x] == 1.0
    requires Assemble(ts, oned, diss, aff, n, ToAffinity, w).Ok?
    ensures Assemble(ts, oned, diss, aff, n, ToAffinity, w).value.tsMatrix == SideBySide(ts, n, |ts|)
    ensures Assemble(ts, oned, diss, aff, n, ToAffinity, w).value.onedMatrix == SideBySide(oned.value, n, |oned.value|)
  {
    var one := oned.value;
    UnitWeightsOfBoth(ts, one, w);
    assert Assemble(ts, oned, diss, aff, n, ToAffinity, w) == AffinityMatrices(ts, one, aff, n, w);
    AffinityUnitWeights(ts, one, aff, n, w);
  }

  /** A weight of 1 for every name of the two dicts is a weight of 1 for each entry of either. */
  lemma UnitWeightsOfBoth(ts: seq<Named<Matrix>>, oned: seq<Named<Matrix>>, w: Weights)
    requires forall x :: x in Names(ts) + Names(oned) ==> x in w && w[x] == 1.0
    ensures forall k :: 0 <= k < |ts| ==> ts[k].name in w && w[ts[k].name] == 1.0
    ensures forall k :: 0 <= k < |oned| ==> oned[k].name in w && w[oned[k].name] == 1.0
  {
    forall k | 0 <= k < |ts|
      ensures ts[k].name in w && w[ts[k].name] == 1.0
    {
      assert Names(ts)[k] == ts[k].name;
      assert ts[k].name in Names(ts) + Names(oned);
    }
    forall k | 0 <= k < |oned|
      ensures oned[k].name in w && w[oned[k].name] == 1.0
    {
      assert Names(oned)[k] == oned[k].name;
      assert oned[k].name in Names(ts) + Names(oned);
    }
  }

  /** Steps 4a and 4b with weight 1 for every variable put the matrices side by side. */
  lemma AffinityUnitWeights(ts: seq<Named<Matrix>>, oned: seq<Named<Matrix>>,
                            twod: Result<seq<Named<seq<Keyed<Entry2d>>>>>, n: nat, w: Weights)
    requires Rows(ts, n) && Rows(oned, n) && (twod.Ok? ==> SquareDicts(twod.value, n))
    requires forall k :: 0 <= k < |ts| ==> ts[k].name in w && w[ts[k].name] == 1.0
    requires forall k :: 0 <= k < |oned| ==> oned[k].name in w && w[oned[k].name] == 1.0
    requires AffinityMatrices(ts, oned, twod, n, w).Ok?
    ensures AffinityMatrices(ts, oned, twod, n, w).value.tsMatrix == SideBySide(ts, n, |ts|)
    ensures AffinityMatrices(ts, oned, twod, n, w).value.onedMatrix == SideBySide(oned, n, |oned|)
  {
    UnitWeightColumns(ts, n, w, |ts|);
    UnitWeightColumns(oned, n, w, |oned|);
  }

  /** The three dicts of step 0: time-series, 1-d and 2-d variables, each in dataset order. */
  datatype Categories = Categories(ts: seq<Named<Cube>>, oned: seq<Named<Matrix>>, twod: seq<Named<Cube>>)

  /** The shapes of the variables of each dict, over `n` regions and `comps` components. */
  ghost predicate CategoriesShaped(c: Categories, comps: nat, n: nat, steps: nat, n2: nat)
  {
    && (forall k :: 0 <= k < |c.ts| ==> |c.ts[k].value| == comps && IsCube(c.ts[k].value, n, steps))
    && (forall k :: 0 <= k < |c.oned| ==> IsMatrix(c.oned[k].value, comps, n))
    && (forall k :: 0 <= k < |c.twod| ==> IsCube(c.twod[k].value, n, n2))
  }

  /** numpy's message when `[0]` meets an empty Period axis. */
  const NoFirstPeriod := "index 0 is out of bounds for axis 0 with size 0"

  /**
   * Step 0 of `preprocessDataset`: a time-series variable without any period raises an
   * IndexError at `[0]`; otherwise each dict holds exactly the variables whose sorted
   * dimension names are those of its category, in dataset order, with the shapes the
   * later steps rely on.
   */
  function Categorize(ds: Data): (r: Result<Categories>)
    requires forall i :: 0 <= i < |ds.variables| ==> Shaped(ds.variables[i], ds)
    ensures r.Err? <==> exists i :: 0 <= i < |ds.variables| && Classify(ds.variables[i].dims) == TimeSeries
                                    && ds.variables[i].data.PeriodCube? && ds.variables[i].data.periods == []
    ensures r.Err? ==> r.error == IndexError(NoFirstPeriod)
    ensures r.Ok? ==> CategoriesShaped(r.value, |ds.components|, |ds.space|, ds.timeSteps, |ds.space2|)
    ensures r.Ok? ==> Names(r.value.ts) == NamesIn(ds.variables, TimeSeries)
    ensures r.Ok? ==> Names(r.value.oned) == NamesIn(ds.variables, Scalar)
    ensures r.Ok? ==> Names(r.value.twod) == NamesIn(ds.variables, Pairwise)
  {
    if !HasFirstPeriods(ds.variables) then Err(IndexError(NoFirstPeriod))
    else
      CategoryNames(ds.variables, ds);
      Ok(Categories(TimeSeriesVars(ds.variables, ds), ScalarVars(ds.variables, ds), PairwiseVars(ds.variables, ds)))
  }

  /** `vars_list`: the keys of the time-series, 1-d and 2-d dicts, in that order. */
  function DictNames(c: Categories): seq<string>
  {
    Names(c.ts) + Names(c.oned) + Names(c.twod)
  }

  /** Steps 1 to 4 of `preprocessDataset` on the dicts of step 0. */
  function Preprocessing(c: Categories, comps: nat, space: seq<string>, space2: seq<string>, steps: nat,
                         mode: HandleMode, given: Option<Weights>): Result<Preprocessed>
    requires CategoriesShaped(c, comps, |space|, steps, |space2|)
  {
    var n := |space|;
    ScalarDictsShape(c.oned, n);
    AffinityDictsShape(c.twod, space, space2);
    Assemble(FeatureList(c.ts, n, steps, |c.ts|), ScalarDicts(c.oned, n),
             Dicts2d(c.twod, space, space2, ToDissimilarity), Dicts2d(c.twod, space, space2, ToAffinity),
             n, mode, EffectiveWeights(given, DictNames(c)))
  }

  /**
   * `preprocessDataset(sds, handle_mode, var_weightings)`: classify the variables (a
   * time-series variable without a period raises IndexError there), preprocess the time
   * series and the 1-d variables, then either return the three dicts (dissimilarity mode) or the three weighted matrices (affinity mode); any other mode
   * returns nothing.
   */
  function PreprocessSpec(ds: Data, mode: HandleMode, given: Option<Weights>): Result<Preprocessed>
    requires forall i :: 0 <= i < |ds.variables| ==> Shaped(ds.variables[i], ds)
  {
    var c :- Categorize(ds);
    Preprocessing(c, |ds.components|, ds.space, ds.space2, ds.timeSteps, mode, given)
  }

  /** Step 0 runs before everything else: a time-series variable without a period fails every mode. */
  lemma MissingPeriodFailsFirst(ds: Data, mode: HandleMode, given: Option<Weights>, i: nat)
    requires forall i :: 0 <= i < |ds.variables| ==> Shaped(ds.variables[i], ds)
    requires i < |ds.variables| && Classify(ds.variables[i].dims) == TimeSeries
    requires ds.variables[i].data.PeriodCube? && ds.variables[i].data.periods == []
    ensures PreprocessSpec(ds, mode, given) == Err(IndexError(NoFirstPeriod))
  {
  }

  /**
   * `preprocessDataset`: the variables are classified by their dimension names; time series
   * and 1-d variables are preprocessed whatever the mode, so a 1-d failure ends every mode.
   */
  method PreprocessDataset(ds: Data, mode: HandleMode, given: Option<Weights>) returns (r: Result<Preprocessed>)
    requires forall i :: 0 <= i < |ds.variables| ==> Shaped(ds.variables[i], ds)
    ensures r == PreprocessSpec(ds, mode, given)
  {
    var cats :- Categorize(ds);
    r := PreprocessCategories(cats, |ds.components|, ds.space, ds.space2, ds.timeSteps, mode, given);
  }

  /** Steps 1 to 4 of `preprocessDataset`, on the dicts that step 0 built. */
  method PreprocessCategories(cats: Categories, comps: nat, space: seq<string>, space2: seq<string>, steps: nat,
                              mode: HandleMode, given: Option<Weights>) returns (r: Result<Preprocessed>)
    requires CategoriesShaped(cats, comps, |space|, steps, |space2|)
    ensures r == Preprocessing(cats, comps, space, space2, steps, mode, given)
  {
    var n := |space|;
    var ts := PreprocessTimeSeries(cats.ts, n, comps, steps);
    var oned := Preprocess1d(cats.oned, n);
    if oned.Err? {
      return Err(oned.error);
    }
    if mode == ToDissimilarity {
      var twod := Preprocess2d(cats.twod, space, space2, ToDissimilarity);
      if twod.Err? {
        return Err(twod.error);
      }
      return Ok(Dissimilarities(ts, oned.value, twod.value));
    }
    if mode == ToAffinity {
      var w := EffectiveWeights(given, Names(cats.ts) + Names(cats.oned) + Names(cats.twod));
      ScalarDictsShape(cats.oned, n);
      var mts := WeightedConcat(ts, n, w);
      if mts.Err? {
        return Err(mts.error);
      }
      var m1 := WeightedConcat(oned.value, n, w);
      if m1.Err? {
        return Err(m1.error);
      }
      var twod := Preprocess2d(cats.twod, space, space2, ToAffinity);
      if twod.Err? {
        return Err(twod.error);
      }
      AffinityDictsShape(cats.twod, space, space2);
      var m2 := SumAffinities(twod.value, n, w);
      if m2.Err? {
        return Err(m2.error);
      }
      return Ok(Affinities(mts.value, m1.value, m2.value));
    }
    r := Ok(NoResult);
  }

  /**
   * With no weights given (or an empty dict) every variable of the three dicts gets weight
   * 1: the affinity mode fails only when the 1-d or the 2-d step does, and the time-series
   * and 1-d matrices are the per-variable matrices side by side, unweighted.
   */
  lemma AssembleDefaultWeights(ts: seq<Named<Matrix>>, oned: Result<seq<Named<Matrix>>>,
                               diss: Result<seq<Named<seq<Keyed<Entry2d>>>>>, aff: Result<seq<Named<seq<Keyed<Entry2d>>>>>,
                               n: nat, given: Option<Weights>, names: seq<string>)
    requires Rows(ts, n) && (oned.Ok? ==> Rows(oned.value, n)) && (aff.Ok? ==> SquareDicts(aff.value, n))
    requires given.None? || given.value == map[]
    requires oned.Ok? && aff.Ok? ==> Names(ts) + Names(oned.value) + Names(aff.value) == names
    ensures Assemble(ts, oned, diss, aff, n, ToAffinity, EffectiveWeights(given, names)).Err? <==> oned.Err? || aff.Err?
    ensures Assemble(ts, oned, diss, aff, n, ToAffinity, EffectiveWeights(given, names)).Ok? ==>
      && oned.Ok?
      && Assemble(ts, oned, diss, aff, n, ToAffinity, EffectiveWeights(given, names)).value.tsMatrix == SideBySide(ts, n, |ts|)
      && Assemble(ts, oned, diss, aff, n, ToAffinity, EffectiveWeights(given, names)).value.onedMatrix
         == SideBySide(oned.value, n, |oned.value|)
  {
    var w := EffectiveWeights(given, names);
    AssembleAffinityErrors(ts, oned, diss, aff, n, w);
    if oned.Ok? && aff.Ok? {
      assert Names(ts) + Names(oned.value) <= names;
      AssembleUnitWeights(ts, oned, diss, aff, n, w);
    }
  }

  /** Some 1-d variable has no valid component, which makes `preprocess1dVariables` fail. */
  ghost predicate ScalarFails(vars: seq<Named<Matrix>>, n: nat)
    requires forall k :: 0 <= k < |vars| ==> IsMatrix(vars[k].value, |vars[k].value|, n)
  {
    exists k :: 0 <= k < |vars| && ScalarFeatures(vars[k].value, n).Err?
  }

  /** Some 2-d variable has a valid component and a label missing from `space_2`. */
  ghost predicate PairwiseFails(vars: seq<Named<Cube>>, space: seq<string>, space2: seq<string>)
    requires forall k :: 0 <= k < |vars| ==> IsCube(vars[k].value, |space|, |space2|)
  {
    exists k :: 0 <= k < |vars| && AffinityEntries(vars[k].value, space, space2).Err?
  }

  /** `preprocess1dVariables` fails exactly when a 1-d variable does; its dict keeps the variables' names. */
  lemma ScalarOutcome(vars: seq<Named<Matrix>>, n: nat)
    requires forall k :: 0 <= k < |vars| ==> IsMatrix(vars[k].value, |vars[k].value|, n)
    ensures ScalarDicts(vars, n).Err? <==> ScalarFails(vars, n)
    ensures ScalarDicts(vars, n).Ok? ==> Rows(ScalarDicts(vars, n).value, n) && Names(ScalarDicts(vars, n).value) == Names(vars)
  {
    ScalarDictsSpec(vars, n);
    ScalarDictsShape(vars, n);
  }

  /** `preprocess2dVariables` fails exactly when a 2-d variable does; its dict keeps the variables' names. */
  lemma PairwiseOutcome(vars: seq<Named<Cube>>, space: seq<string>, space2: seq<string>, mode: HandleMode)
    requires forall k :: 0 <= k < |vars| ==> IsCube(vars[k].value, |space|, |space2|)
    ensures Dicts2d(vars, space, space2, mode).Err? <==> PairwiseFails(vars, space, space2)
    ensures Dicts2d(vars, space, space2, mode).Ok? ==> Names(Dicts2d(vars, space, space2, mode).value) == Names(vars)
  {
    Dicts2dSpec(vars, space, space2, mode);
    if Dicts2d(vars, space, space2, mode).Ok? {
      SameNames(Dicts2d(vars, space, space2, mode).value, vars);
    }
  }

  /** The time-series dict keeps the variables' names and has a row per region in each matrix. */
  lemma TimeSeriesOutcome(vars: seq<Named<Cube>>, n: nat, steps: nat)
    requires forall k :: 0 <= k < |vars| ==> IsCube(vars[k].value, n, steps)
    ensures Rows(FeatureList(vars, n, steps, |vars|), n)
    ensures Names(FeatureList(vars, n, steps, |vars|)) == Names(vars)
  {
    SameNames(FeatureList(vars, n, steps, |vars|), vars);
  }

  /** The outcomes of the three per-category steps and the names of their dicts. */
  lemma StepOutcomes(c: Categories, comps: nat, space: seq<string>, space2: seq<string>, steps: nat, mode: HandleMode)
    requires CategoriesShaped(c, comps, |space|, steps, |space2|)
    ensures Rows(FeatureList(c.ts, |space|, steps, |c.ts|), |space|)
    ensures Names(FeatureList(c.ts, |space|, steps, |c.ts|)) == Names(c.ts)
    ensures ScalarDicts(c.oned, |space|).Err? <==> ScalarFails(c.oned, |space|)
    ensures ScalarDicts(c.oned, |space|).Ok? ==>
      Rows(ScalarDicts(c.oned, |space|).value, |space|) && Names(ScalarDicts(c.oned, |space|).value) == Names(c.oned)
    ensures Dicts2d(c.twod, space, space2, mode).Err? <==> PairwiseFails(c.twod, space, space2)
    ensures Dicts2d(c.twod, space, space2, mode).Ok? ==> Names(Dicts2d(c.twod, space, space2, mode).value) == Names(c.twod)
    ensures Dicts2d(c.twod, space, space2, ToAffinity).Ok? ==> SquareDicts(Dicts2d(c.twod, space, space2, ToAffinity).value, |space|)
  {
    TimeSeriesOutcome(c.ts, |space|, steps);
    ScalarOutcome(c.oned, |space|);
    PairwiseOutcome(c.twod, space, space2, mode);
    AffinityDictsShape(c.twod, space, space2);
  }

  /** Steps 1 to 4 are the assembly of the outcomes of the per-category steps. */
  lemma Unfold(c: Categories, comps: nat, space: seq<string>, space2: seq<string>, steps: nat,
               mode: HandleMode, given: Option<Weights>)
    requires CategoriesShaped(c, comps, |space|, steps, |space2|)
    ensures Rows(FeatureList(c.ts, |space|, steps, |c.ts|), |space|)
    ensures ScalarDicts(c.oned, |space|).Ok? ==> Rows(ScalarDicts(c.oned, |space|).value, |space|)
    ensures Dicts2d(c.twod, space, space2, ToAffinity).Ok? ==> SquareDicts(Dicts2d(c.twod, space, space2, ToAffinity).value, |space|)
    ensures Preprocessing(c, comps, space, space2, steps, mode, given)
      == Assemble(FeatureList(c.ts, |space|, steps, |c.ts|), ScalarDicts(c.oned, |space|),
                  Dicts2d(c.twod, space, space2, ToDissimilarity), Dicts2d(c.twod, space, space2, ToAffinity),
                  |space|, mode, EffectiveWeights(given, DictNames(c)))
  {
    TimeSeriesOutcome(c.ts, |space|, steps);
    ScalarDictsShape(c.oned, |space|);
    AffinityDictsShape(c.twod, space, space2);
  }
}
