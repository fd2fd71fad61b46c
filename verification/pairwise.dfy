/**
 * `preprocess2dVariables`: each valid component of a 2-d (connectivity) variable is
 * re-ordered so that its columns follow the `space` labels, scaled to [0, 1] as a whole,
 * and kept either as an affinity matrix or as a condensed `1 - v` dissimilarity vector.
 */
module Pairwise {
  import opened Wrappers
  import opened Numeric
  import opened Matrices
  import opened Scaler
  import opened Dataset
  import opened Condensed

  /** The `handle_mode` argument; any string other than the two named ones is `OtherMode`. */
  datatype HandleMode = ToDissimilarity | ToAffinity | OtherMode

  /** A value of the per-component dict: a scaled matrix, or its condensed dissimilarities. */
  datatype Entry2d = Affinity(matrix: Matrix) | Distances(vector: seq<Cell>)

  /** The labels of `labels` that `columns` lacks, each once, in order of first appearance. */
  function MissingFrom(labels: seq<string>, columns: seq<string>): (r: seq<string>)
    ensures forall x :: x in r <==> x in labels && x !in columns
    ensures forall a, b :: 0 <= a < b < |r| ==> r[a] != r[b]
    ensures forall a, b :: 0 <= a < b < |r| ==> IndexOf(labels, r[a]).value < IndexOf(labels, r[b]).value
  {
    if |labels| == 0 then []
    else
      var front := labels[..|labels| - 1];
      var init := MissingFrom(front, columns);
      var last := labels[|labels| - 1];
      assert labels == front + [last];
      forall x | x in front
        ensures IndexOf(labels, x) == IndexOf(front, x)
      {
        IndexOfAppend(front, last, x);
      }
      if last in columns || last in init then init
      else
        IndexOfAppend(front, last, last);
        init + [last]
  }

  /** Appending to a list moves no first occurrence, and the appended item, if new, sits last. */
  lemma {:induction false} IndexOfAppend(s: seq<string>, y: string, x: string)
    ensures x in s ==> IndexOf(s + [y], x) == IndexOf(s, x)
    ensures x !in s && x == y ==> IndexOf(s + [y], x) == Some(|s|)
  {
    if |s| > 0 {
      assert (s + [y])[1..] == s[1..] + [y];
      IndexOfAppend(s[1..], y, x);
    }
  }

  /**
   * The position in `columns` of each label of `labels` (pandas' column selection by
   * label); when labels are missing, one KeyError names all of them.
   */
  function LabelPositions(labels: seq<string>, columns: seq<string>): (r: Result<seq<nat>>)
    ensures r.Err? <==> exists j :: 0 <= j < |labels| && labels[j] !in columns
    ensures r.Err? ==> r.error == MissingLabels(MissingFrom(labels, columns))
    ensures r.Ok? ==> |r.value| == |labels| && forall j :: 0 <= j < |labels| ==>
      r.value[j] < |columns| && columns[r.value[j]] == labels[j]
    ensures r.Ok? ==> forall j, p :: 0 <= j < |labels| && 0 <= p < r.value[j] ==> columns[p] != labels[j]
  {
    var missing := MissingFrom(labels, columns);
    if |missing| > 0 then
      assert missing[0] in labels;
      Err(MissingLabels(missing))
    else
      assert forall j :: 0 <= j < |labels| ==> labels[j] in labels;
      Ok(seq(|labels|, j requires 0 <= j < |labels| => IndexOf(columns, labels[j]).value))
  }

  /**
   * `DataFrame(slice, columns=space_2)[space]`: column `j` of the result is the first column
   * of `slice` labelled `space[j]`, which makes the matrix square with rows and columns both
   * in `space` order. That is pandas' selection when the labels of `space_2` are distinct;
   * pandas would take every column of a repeated label.
   */
  function ReorderedComponent(slice: Matrix, space: seq<string>, space2: seq<string>): (r: Result<Matrix>)
    requires IsMatrix(slice, |space|, |space2|)
    ensures r.Err? <==> exists j :: 0 <= j < |space| && space[j] !in space2
    ensures r.Ok? ==> IsMatrix(r.value, |space|, |space|) && forall i, j :: 0 <= i < |space| && 0 <= j < |space| ==>
      exists p :: 0 <= p < |space2| && space2[p] == space[j] && r.value[i][j] == slice[i][p]
  {
    var pos :- LabelPositions(space, space2);
    var r := SelectColumns(slice, pos);
    assert forall i, j :: 0 <= i < |space| && 0 <= j < |space| ==>
      0 <= pos[j] < |space2| && space2[pos[j]] == space[j] && r[i][j] == slice[i][pos[j]];
    Ok(r)
  }

  /** One valid component, re-ordered and scaled by `matrix_MinMaxScaler` to [0, 1]. */
  function ScaledComponent(slice: Matrix, space: seq<string>, space2: seq<string>): (r: Result<Matrix>)
    requires IsMatrix(slice, |space|, |space2|) && |space| > 0
    ensures r.Err? <==> exists j :: 0 <= j < |space| && space[j] !in space2
    ensures r.Ok? ==> IsMatrix(r.value, |space|, |space|)
  {
    var m :- ReorderedComponent(slice, space, space2);
    Ok(MinMaxScale(m, 0.0, 1.0))
  }

  /**
   * The first `j` of components `ids` of a cube, in that order, each with its re-ordered
   * and scaled matrix.
   */
  function ScaledEntries(cube: Cube, ids: seq<nat>, space: seq<string>, space2: seq<string>, j: nat)
    : (r: seq<Keyed<Entry2d>>)
    requires IsCube(cube, |space|, |space2|)
    requires forall k :: 0 <= k < |ids| ==> ids[k] < |cube|
    requires j <= |ids|
    requires j > 0 ==> |space| > 0 && LabelPositions(space, space2).Ok?
    ensures |r| == j
    ensures forall k :: 0 <= k < j ==>
      r[k].id == ids[k] && r[k].value.Affinity? && IsMatrix(r[k].value.matrix, |space|, |space|)
  {
    if j == 0 then []
    else
      ScaledEntries(cube, ids, space, space2, j - 1)
        + [Keyed(ids[j - 1], Affinity(ScaledComponent(cube[ids[j - 1]], space, space2).value))]
  }

  lemma {:induction false} ScaledEntriesAt(cube: Cube, ids: seq<nat>, space: seq<string>, space2: seq<string>, j: nat, k: nat)
    requires IsCube(cube, |space|, |space2|)
    requires forall k :: 0 <= k < |ids| ==> ids[k] < |cube|
    requires j <= |ids|
    requires j > 0 ==> |space| > 0 && LabelPositions(space, space2).Ok?
    requires k < j
    ensures ScaledComponent(cube[ids[k]], space, space2).Ok?
    ensures ScaledEntries(cube, ids, space, space2, j)[k]
      == Keyed(ids[k], Affinity(ScaledComponent(cube[ids[k]], space, space2).value))
  {
    if k < j - 1 {
      ScaledEntriesAt(cube, ids, space, space2, j - 1, k);
    }
  }

  /**
   * The affinity dict of one 2-d variable: its valid components, ascending, each with its
   * scaled matrix. Only a variable that has a valid component looks its labels up (a cube
   * over no region has none).
   */
  function AffinityEntries(cube: Cube, space: seq<string>, space2: seq<string>): (r: Result<seq<Keyed<Entry2d>>>)
    requires IsCube(cube, |space|, |space2|)
    ensures r.Ok? ==> forall k :: 0 <= k < |r.value| ==>
      r.value[k].value.Affinity? && IsMatrix(r.value[k].value.matrix, |space|, |space|)
  {
    if |space| == 0 then Ok([])
    else
      var ids := ValidIds(TimeSeriesMeans(cube, |space|, |space2|));
      if |ids| > 0 && LabelPositions(space, space2).Err? then Err(LabelPositions(space, space2).error)
      else Ok(ScaledEntries(cube, ids, space, space2, |ids|))
  }

  /**
   * A 2-d variable fails exactly when it has a valid component and a label of `space` is
   * missing from `space_2`, and the failure is one KeyError naming every missing label.
   */
  lemma AffinityEntriesError(cube: Cube, space: seq<string>, space2: seq<string>)
    requires IsCube(cube, |space|, |space2|)
    ensures AffinityEntries(cube, space, space2).Err? <==>
      (|ValidIds(TimeSeriesMeans(cube, |space|, |space2|))| > 0 && exists j :: 0 <= j < |space| && space[j] !in space2)
    ensures AffinityEntries(cube, space, space2).Err? ==>
      AffinityEntries(cube, space, space2).error == MissingLabels(MissingFrom(space, space2))
  {
  }

  /** `1 - vec` for a vector that may hold NaN. */
  function OneMinus(v: seq<Cell>): (r: seq<Cell>)
    ensures |r| == |v| && forall k :: 0 <= k < |v| ==> r[k] == Sub(Some(1.0), v[k])
  {
    seq(|v|, k requires 0 <= k < |v| => Sub(Some(1.0), v[k]))
  }

  /** The dissimilarity vector of a scaled matrix: its upper triangle, subtracted from 1. */
  function Dissimilarity(m: Matrix): seq<Cell>
    requires IsSquare(m)
  {
    OneMinus(Condense(m))
  }

  /**
   * The dissimilarity vector has n(n-1)/2 entries, and the entry at the row-major
   * position of pair (x, y), x < y, is 1 minus the matrix's [x][y].
   */
  lemma DissimilarityAt(m: Matrix, x: nat, y: nat)
    requires IsSquare(m) && x < y < |m|
    ensures 2 * |Dissimilarity(m)| == |m| * (|m| - 1)
    ensures CondensedIndex(|m|, x, y) < |Dissimilarity(m)|
    ensures Dissimilarity(m)[CondensedIndex(|m|, x, y)] == Sub(Some(1.0), m[x][y])
  {
    CondenseAt(m, x, y);
    CondensedLengthFormula(|m|);
  }

  /** A dict of one variable whose every value is still a scaled (square) matrix. */
  ghost predicate AllAffinity(es: seq<Keyed<Entry2d>>)
  {
    forall k :: 0 <= k < |es| ==> es[k].value.Affinity? && IsSquare(es[k].value.matrix)
  }

  /**
   * The dict of one variable after the handle mode is applied: in dissimilarity mode every
   * matrix becomes its dissimilarity vector, under the same key; otherwise nothing changes.
   */
  function Finished(es: seq<Keyed<Entry2d>>, mode: HandleMode): (r: seq<Keyed<Entry2d>>)
    requires AllAffinity(es)
    ensures Keys(r) == Keys(es)
    ensures mode != ToDissimilarity ==> r == es
  {
    if mode != ToDissimilarity then es
    else seq(|es|, k requires 0 <= k < |es| => Keyed(es[k].id, Distances(Dissimilarity(es[k].value.matrix))))
  }

  /** The outcome of step 2 of `preprocess2dVariables` for each variable, in dict order. */
  function Outcomes(vars: seq<Named<Cube>>, space: seq<string>, space2: seq<string>)
    : (r: seq<Result<seq<Keyed<Entry2d>>>>)
    requires forall k :: 0 <= k < |vars| ==> IsCube(vars[k].value, |space|, |space2|)
    ensures |r| == |vars|
    ensures forall k :: 0 <= k < |vars| ==> r[k] == AffinityEntries(vars[k].value, space, space2)
    ensures Finishable(r)
  {
    seq(|vars|, k requires 0 <= k < |vars| => AffinityEntries(vars[k].value, space, space2))
  }

  /** Outcomes whose every successful dict still holds scaled matrices. */
  ghost predicate Finishable(outs: seq<Result<seq<Keyed<Entry2d>>>>)
  {
    forall k :: 0 <= k < |outs| && outs[k].Ok? ==> AllAffinity(outs[k].value)
  }

  /** The outcomes after the handle mode is applied to every successful dict. */
  function Finish(outs: seq<Result<seq<Keyed<Entry2d>>>>, mode: HandleMode): (r: seq<Result<seq<Keyed<Entry2d>>>>)
    requires Finishable(outs)
    ensures |r| == |outs|
    ensures forall k :: 0 <= k < |outs| ==> r[k].Err? == outs[k].Err?
    ensures forall k :: 0 <= k < |outs| && outs[k].Err? ==> r[k].error == outs[k].error
    ensures forall k :: 0 <= k < |outs| && outs[k].Ok? ==> r[k].value == Finished(outs[k].value, mode)
  {
    seq(|outs|, k requires 0 <= k < |outs| => if outs[k].Err? then outs[k] else Ok(Finished(outs[k].value, mode)))
  }

  /** Outside dissimilarity mode no outcome changes. */
  lemma FinishIdentity(outs: seq<Result<seq<Keyed<Entry2d>>>>, mode: HandleMode)
    requires Finishable(outs) && mode != ToDissimilarity
    ensures Finish(outs, mode) == outs
  {
    assert forall k :: 0 <= k < |outs| ==> Finish(outs, mode)[k] == outs[k];
  }

  /** The result of `preprocess2dVariables`: every variable's dict, in dict order, finished in `mode`. */
  function Dicts2d(vars: seq<Named<Cube>>, space: seq<string>, space2: seq<string>, mode: HandleMode)
    : Result<seq<Named<seq<Keyed<Entry2d>>>>>
    requires forall k :: 0 <= k < |vars| ==> IsCube(vars[k].value, |space|, |space2|)
  {
    Collect(Names(vars), Finish(Outcomes(vars, space, space2), mode), |vars|)
  }

  /**
   * `preprocess2dVariables` fails exactly when some variable has a valid component and a
   * label of `space` missing from `space_2`; otherwise entry `k` of its result is variable
   * `k`'s dict, finished in `mode`.
   */
  lemma Dicts2dSpec(vars: seq<Named<Cube>>, space: seq<string>, space2: seq<string>, mode: HandleMode)
    requires forall k :: 0 <= k < |vars| ==> IsCube(vars[k].value, |space|, |space2|)
    ensures Dicts2d(vars, space, space2, mode).Err? <==>
      exists k :: 0 <= k < |vars| && AffinityEntries(vars[k].value, space, space2).Err?
    ensures Dicts2d(vars, space, space2, mode).Ok? ==> |Dicts2d(vars, space, space2, mode).value| == |vars|
    ensures Dicts2d(vars, space, space2, mode).Ok? ==> forall k :: 0 <= k < |vars| ==>
      && AffinityEntries(vars[k].value, space, space2).Ok?
      && Dicts2d(vars, space, space2, mode).value[k]
         == Named(vars[k].name, Finished(AffinityEntries(vars[k].value, space, space2).value, mode))
  {
    CollectSpec(Names(vars), Finish(Outcomes(vars, space, space2), mode), |vars|);
  }

  /**
   * The loop of step 2 of `preprocess2dVariables` for one variable: components `ids`, in
   * order, each re-ordered and scaled; the first failing label lookup stops it.
   */
  method ScaleComponents(cube: Cube, ids: seq<nat>, space: seq<string>, space2: seq<string>)
    returns (r: Result<seq<Keyed<Entry2d>>>)
    requires IsCube(cube, |space|, |space2|)
    requires forall k :: 0 <= k < |ids| ==> ids[k] < |cube|
    requires |ids| > 0 ==> |space| > 0
    ensures r.Err? <==> |ids| > 0 && LabelPositions(space, space2).Err?
    ensures r.Err? ==> r.error == LabelPositions(space, space2).error
    ensures r.Ok? ==> r.value == ScaledEntries(cube, ids, space, space2, |ids|)
  {
    var entries: seq<Keyed<Entry2d>> := [];
    var j := 0;
    while j < |ids|
      invariant 0 <= j <= |ids|
      invariant j > 0 ==> LabelPositions(space, space2).Ok?
      invariant entries == ScaledEntries(cube, ids, space, space2, j)
    {
      var scaled := ScaledComponent(cube[ids[j]], space, space2);
      if scaled.Err? {
        r := Err(scaled.error);
        assert r.Err?;
        return;
      }
      entries := entries + [Keyed(ids[j], Affinity(scaled.value))];
      j := j + 1;
    }
    r := Ok(entries);
  }

  /** Step 2 of `preprocess2dVariables` for one variable: every valid component, ascending. */
  method VariableAffinities(cube: Cube, space: seq<string>, space2: seq<string>)
    returns (r: Result<seq<Keyed<Entry2d>>>)
    requires IsCube(cube, |space|, |space2|)
    ensures r == AffinityEntries(cube, space, space2)
  {
    var ids := ValidIds(TimeSeriesMeans(cube, |space|, |space2|));
    ValidBlocksNonEmpty(cube, |space|, |space2|);
    r := ScaleComponents(cube, ids, space, space2);
  }

  /**
   * Step 4 of `preprocess2dVariables` for one variable: each entry of its dict, in dict
   * order, is overwritten by `1 - squareform(matrix)`.
   */
  method VariableDissimilarities(dict: seq<Keyed<Entry2d>>) returns (r: seq<Keyed<Entry2d>>)
    requires AllAffinity(dict)
    ensures r == Finished(dict, ToDissimilarity)
  {
    r := dict;
    var c := 0;
    while c < |r|
      invariant |r| == |dict| && 0 <= c <= |r|
      invariant forall e :: 0 <= e < c ==> r[e] == Finished(dict, ToDissimilarity)[e]
      invariant forall e :: c <= e < |r| ==> r[e] == dict[e]
    {
      var entry := r[c];
      var vec := Condense(entry.value.matrix);
      vec := OneMinus(vec);
      r := r[c := Keyed(entry.id, Distances(vec))];
      c := c + 1;
    }
  }

  /** Step 2 for variable `v` either ends `preprocess2dVariables` with its failure or adds its dict. */
  lemma AffinitiesStep(vars: seq<Named<Cube>>, space: seq<string>, space2: seq<string>, v: nat,
                       ds: seq<Named<seq<Keyed<Entry2d>>>>)
    requires forall k :: 0 <= k < |vars| ==> IsCube(vars[k].value, |space|, |space2|)
    requires v < |vars|
    requires Collect(Names(vars), Outcomes(vars, space, space2), v) == Ok(ds)
    ensures AffinityEntries(vars[v].value, space, space2).Err? ==>
      Collect(Names(vars), Outcomes(vars, space, space2), |vars|) == Err(AffinityEntries(vars[v].value, space, space2).error)
    ensures AffinityEntries(vars[v].value, space, space2).Ok? ==>
      Collect(Names(vars), Outcomes(vars, space, space2), v + 1)
        == Ok(ds + [Named(vars[v].name, AffinityEntries(vars[v].value, space, space2).value)])
  {
    CollectStep(Names(vars), Outcomes(vars, space, space2), v, ds);
  }

  /**
   * Steps 1 to 3 of `preprocess2dVariables`: the affinity dict of every variable, in dict
   * order; the first variable with a missing label stops it with pandas' KeyError.
   */
  method AllAffinities(vars: seq<Named<Cube>>, space: seq<string>, space2: seq<string>)
    returns (r: Result<seq<Named<seq<Keyed<Entry2d>>>>>)
    requires forall k :: 0 <= k < |vars| ==> IsCube(vars[k].value, |space|, |space2|)
    ensures r == Collect(Names(vars), Outcomes(vars, space, space2), |vars|)
  {
    var ds: seq<Named<seq<Keyed<Entry2d>>>> := [];
    var v := 0;
    while v < |vars|
      invariant 0 <= v <= |vars|
      invariant Collect(Names(vars), Outcomes(vars, space, space2), v) == Ok(ds)
    {
      var entries := VariableAffinities(vars[v].value, space, space2);
      AffinitiesStep(vars, space, space2, v, ds);
      if entries.Err? {
        return Err(entries.error);
      }
      ds := ds + [Named(vars[v].name, entries.value)];
      v := v + 1;
    }
    r := Ok(ds);
  }

  /** The state of step 4 after the dicts of the first `v` variables are converted. */
  ghost predicate ConvertedUpTo(names: seq<string>, outs: seq<Result<seq<Keyed<Entry2d>>>>,
                                aff: seq<Named<seq<Keyed<Entry2d>>>>, ds: seq<Named<seq<Keyed<Entry2d>>>>, v: nat)
    requires |names| == |outs| && v <= |outs| && Finishable(outs)
  {
    && |ds| == |aff| == |outs|
    && Collect(names, Finish(outs, ToDissimilarity), v).Ok?
    && ds[..v] == Collect(names, Finish(outs, ToDissimilarity), v).value
    && ds[v..] == aff[v..]
  }

  /** Overwriting the dict of variable `v` by its conversion moves step 4 on by one variable. */
  lemma ConvertStep(names: seq<string>, outs: seq<Result<seq<Keyed<Entry2d>>>>,
                    aff: seq<Named<seq<Keyed<Entry2d>>>>, ds: seq<Named<seq<Keyed<Entry2d>>>>, v: nat)
    requires |names| == |outs| && v < |outs| && Finishable(outs)
    requires Collect(names, outs, |outs|) == Ok(aff)
    requires ConvertedUpTo(names, outs, aff, ds, v)
    ensures AllAffinity(ds[v].value)
    ensures ConvertedUpTo(names, outs, aff, ds[v := Named(ds[v].name, Finished(ds[v].value, ToDissimilarity))], v + 1)
  {
    CollectSpec(names, outs, |outs|);
    assert ds[v] == aff[v];
    var prev := Collect(names, Finish(outs, ToDissimilarity), v).value;
    CollectStep(names, Finish(outs, ToDissimilarity), v, prev);
    var next := ds[v := Named(ds[v].name, Finished(ds[v].value, ToDissimilarity))];
    assert next[..v + 1] == ds[..v] + [next[v]];
    assert next[v + 1..] == ds[v + 1..] == aff[v + 1..];
  }

  /**
   * Step 4 of `preprocess2dVariables`: the dict of every variable, in dict order, is
   * converted to dissimilarities in place.
   */
  method AllDissimilarities(ghost names: seq<string>, ghost outs: seq<Result<seq<Keyed<Entry2d>>>>,
                            aff: seq<Named<seq<Keyed<Entry2d>>>>)
    returns (ds: seq<Named<seq<Keyed<Entry2d>>>>)
    requires |names| == |outs| && Finishable(outs)
    requires Collect(names, outs, |outs|) == Ok(aff)
    ensures Collect(names, Finish(outs, ToDissimilarity), |outs|) == Ok(ds)
  {
    ds := aff;
    var v := 0;
    while v < |ds|
      invariant 0 <= v <= |ds| == |outs|
      invariant ConvertedUpTo(names, outs, aff, ds, v)
    {
      ConvertStep(names, outs, aff, ds, v);
      var converted := VariableDissimilarities(ds[v].value);
      ds := ds[v := Named(ds[v].name, converted)];
      v := v + 1;
    }
    assert ds[..v] == ds;
  }

  /**
   * `preprocess2dVariables(vars_dict, n_components, handle_mode)`: the affinity dicts of
   * every variable first; then, in dissimilarity mode, every entry is overwritten in place
   * by its condensed `1 - v` vector.
   */
  method Preprocess2d(vars: seq<Named<Cube>>, space: seq<string>, space2: seq<string>, mode: HandleMode)
    returns (r: Result<seq<Named<seq<Keyed<Entry2d>>>>>)
    requires forall k :: 0 <= k < |vars| ==> IsCube(vars[k].value, |space|, |space2|)
    ensures r == Dicts2d(vars, space, space2, mode)
  {
    ghost var names := Names(vars);
    ghost var outs := Outcomes(vars, space, space2);
    r := AllAffinities(vars, space, space2);
    CollectSameFailures(names, outs, Finish(outs, mode), |vars|);
    if r.Err? {
      return;
    }
    if mode != ToDissimilarity {
      FinishIdentity(outs, mode);
      return;
    }
    var ds := AllDissimilarities(names, outs, r.value);
    r := Ok(ds);
  }

  /** The keys of a variable's affinity dict are its valid components, in order. */
  lemma AffinityKeys(cube: Cube, space: seq<string>, space2: seq<string>)
    requires IsCube(cube, |space|, |space2|)
    requires AffinityEntries(cube, space, space2).Ok?
    ensures Keys(AffinityEntries(cube, space, space2).value) == ValidIds(TimeSeriesMeans(cube, |space|, |space2|))
  {
    ValidBlocksNonEmpty(cube, |space|, |space2|);
    var ids := ValidIds(TimeSeriesMeans(cube, |space|, |space2|));
    var ks := Keys(AffinityEntries(cube, space, space2).value);
    assert |ks| == |ids|;
    forall k | 0 <= k < |ids| ensures ks[k] == ids[k] { }
  }

  /**
   * The keys of a variable's dict are its valid components, ascending: a component whose
   * entries are all NaN gets no key.
   */
  lemma PairwiseKeys(cube: Cube, space: seq<string>, space2: seq<string>, mode: HandleMode)
    requires IsCube(cube, |space|, |space2|)
    requires AffinityEntries(cube, space, space2).Ok?
    ensures forall k, l :: 0 <= k < l < |Keys(Finished(AffinityEntries(cube, space, space2).value, mode))| ==>
      Keys(Finished(AffinityEntries(cube, space, space2).value, mode))[k]
        < Keys(Finished(AffinityEntries(cube, space, space2).value, mode))[l]
    ensures forall c :: 0 <= c < |cube| ==>
      ((c in Keys(Finished(AffinityEntries(cube, space, space2).value, mode)))
       <==> (exists i, t :: 0 <= i < |space| && 0 <= t < |space2| && cube[c][i][t].Some?))
  {
    AffinityKeys(cube, space, space2);
    ValidIdsSpec(TimeSeriesMeans(cube, |space|, |space2|));
    forall c | 0 <= c < |cube|
      ensures c in ValidIds(TimeSeriesMeans(cube, |space|, |space2|))
        <==> exists i, t :: 0 <= i < |space| && 0 <= t < |space2| && cube[c][i][t].Some?
    {
      BlockValid(cube, |space|, |space2|, c);
    }
  }

  /** The `k`-th entry of a variable's affinity dict holds its `k`-th valid component, scaled. */
  lemma AffinityEntryAt(cube: Cube, space: seq<string>, space2: seq<string>, k: nat)
    requires IsCube(cube, |space|, |space2|)
    requires AffinityEntries(cube, space, space2).Ok?
    requires k < |AffinityEntries(cube, space, space2).value|
    ensures ValidIds(TimeSeriesMeans(cube, |space|, |space2|))[k] < |cube| && |space| > 0
    ensures ScaledComponent(cube[ValidIds(TimeSeriesMeans(cube, |space|, |space2|))[k]], space, space2).Ok?
    ensures AffinityEntries(cube, space, space2).value[k]
      == Keyed(ValidIds(TimeSeriesMeans(cube, |space|, |space2|))[k],
               Affinity(ScaledComponent(cube[ValidIds(TimeSeriesMeans(cube, |space|, |space2|))[k]], space, space2).value))
  {
    AffinityKeys(cube, space, space2);
    var ids := ValidIds(TimeSeriesMeans(cube, |space|, |space2|));
    ScaledEntriesAt(cube, ids, space, space2, |ids|, k);
  }

  /**
   * In dissimilarity mode the `k`-th entry of a variable's dict is the dissimilarity vector
   * (see `DissimilarityAt`) of its `k`-th valid component, re-ordered and scaled.
   */
  lemma DissimilarityEntry(cube: Cube, space: seq<string>, space2: seq<string>, k: nat)
    requires IsCube(cube, |space|, |space2|)
    requires AffinityEntries(cube, space, space2).Ok?
    requires k < |AffinityEntries(cube, space, space2).value|
    ensures ValidIds(TimeSeriesMeans(cube, |space|, |space2|))[k] < |cube| && |space| > 0
    ensures ScaledComponent(cube[ValidIds(TimeSeriesMeans(cube, |space|, |space2|))[k]], space, space2).Ok?
    ensures Finished(AffinityEntries(cube, space, space2).value, ToDissimilarity)[k]
      == Keyed(ValidIds(TimeSeriesMeans(cube, |space|, |space2|))[k],
               Distances(Dissimilarity(ScaledComponent(cube[ValidIds(TimeSeriesMeans(cube, |space|, |space2|))[k]], space, space2).value)))
  {
    AffinityEntryAt(cube, space, space2, k);
  }
}
