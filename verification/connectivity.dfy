/**
 * `generateConnectivityMatrix` and `checkConnectivity`: the 0/1 adjacency matrix of the
 * regions, in which two regions are connected when a connecting component of some 2-d
 * variable has a non-zero scaled value between them.
 */
module Connectivity {
  import opened Wrappers
  import opened Numeric
  import opened Matrices
  import opened Dataset
  import opened Pairwise
  import opened Preprocess
  import opened NdArrays

  // ---------------------------------------------------------------------------------------
  // Connecting components
  // ---------------------------------------------------------------------------------------

  /** `str.lower` on one character; only ASCII letters are mapped. */
  function LowerChar(c: char): char
  {
    if 'A' <= c <= 'Z' then (c as int + 32) as char else c
  }

  function Lower(s: string): string
  {
    seq(|s|, i requires 0 <= i < |s| => LowerChar(s[i]))
  }

  /** Python's `sub in s` on strings. */
  predicate Contains(s: string, sub: string)
  {
    exists i :: 0 <= i <= |s| && sub <= s[i..]
  }

  /** A component counts as a pipeline when its name, lower-cased, contains "pipeline". */
  predicate IsPipeline(name: string)
  {
    Contains(Lower(name), "pipeline")
  }

  /** The ids of the pipeline components among the first `v`, ascending. */
  function PipelineIds(names: seq<string>, v: nat): (r: seq<nat>)
    requires v <= |names|
    ensures forall c: nat :: c in r <==> c < v && IsPipeline(names[c])
    ensures forall k :: 0 <= k < |r| ==> r[k] < v
    ensures forall k, l :: 0 <= k < l < |r| ==> r[k] < r[l]
  {
    if v == 0 then []
    else PipelineIds(names, v - 1) + (if IsPipeline(names[v - 1]) then [v - 1] else [])
  }

  /** The ids 0 .. n-1, ascending (`list(range(n))`). */
  function Range(n: nat): (r: seq<nat>)
    ensures |r| == n && forall k :: 0 <= k < n ==> r[k] == k
  {
    seq(n, k requires 0 <= k < n => k)
  }

  /** Steps 2 and 3: the pipeline components, or every component when there is none. */
  function ConnectComponentsSpec(names: seq<string>): seq<nat>
  {
    var pipes := PipelineIds(names, |names|);
    if |pipes| > 0 then pipes else Range(|names|)
  }

  /**
   * A component connects regions exactly when it is a pipeline, or when no component is;
   * the list is ascending and holds only component ids.
   */
  lemma ConnectComponentsMembers(names: seq<string>)
    ensures forall c: nat :: c in ConnectComponentsSpec(names) <==>
      c < |names| && (IsPipeline(names[c]) || forall k :: 0 <= k < |names| ==> !IsPipeline(names[k]))
    ensures forall k, l :: 0 <= k < l < |ConnectComponentsSpec(names)| ==>
      ConnectComponentsSpec(names)[k] < ConnectComponentsSpec(names)[l]
  {
    var pipes := PipelineIds(names, |names|);
    if |pipes| == 0 {
      assert forall c: nat :: c in Range(|names|) <==> c < |names| by {
        forall c: nat | c < |names| ensures c in Range(|names|) {
          assert Range(|names|)[c] == c;
        }
      }
    } else {
      assert IsPipeline(names[pipes[0]]);
    }
  }

  /** Step 2 of `generateConnectivityMatrix`: the pipeline components, in order. */
  method PipelineComponents(names: seq<string>) returns (cc: seq<nat>)
    ensures cc == PipelineIds(names, |names|)
  {
    cc := [];
    var i := 0;
    while i < |names|
      invariant 0 <= i <= |names|
      invariant cc == PipelineIds(names, i)
    {
      if IsPipeline(names[i]) {
        cc := cc + [i];
      }
      i := i + 1;
    }
  }

  /** `list(range(n))`. */
  method AllComponents(n: nat) returns (cc: seq<nat>)
    ensures cc == Range(n)
  {
    cc := [];
    var c := 0;
    while c < n
      invariant 0 <= c <= n
      invariant cc == Range(c)
    {
      cc := cc + [c];
      c := c + 1;
    }
  }

  /** Steps 2 and 3 of `generateConnectivityMatrix`. */
  method ConnectComponents(names: seq<string>) returns (cc: seq<nat>)
    ensures cc == ConnectComponentsSpec(names)
  {
    cc := PipelineComponents(names);
    if |cc| == 0 {
      cc := AllComponents(|names|);
    }
  }

  // ---------------------------------------------------------------------------------------
  // checkConnectivity
  // ---------------------------------------------------------------------------------------

  /** `data != 0` on a numpy float: true for every number but zero, and for NaN. */
  predicate NonZero(c: Cell)
  {
    c.None? || c.value != 0.0
  }

  /** A component of `cc` among the entries j.. of one variable's dict links x and y. */
  function LinkedFrom(es: seq<Keyed<Entry2d>>, n: nat, x: nat, y: nat, cc: seq<nat>, j: nat): bool
    requires forall e :: 0 <= e < |es| ==> es[e].value.Affinity? && IsMatrix(es[e].value.matrix, n, n)
    requires x < n && y < n && j <= |es|
    decreases |es| - j
  {
    if j == |es| then false
    else
      assert es[j].value.Affinity? && IsMatrix(es[j].value.matrix, n, n);
      if es[j].id in cc && NonZero(es[j].value.matrix[x][y]) then true
      else LinkedFrom(es, n, x, y, cc, j + 1)
  }

  /** A variable among v.. of the affinity dicts links x and y through a component of `cc`. */
  function LinkedFromVariable(dicts: seq<Named<seq<Keyed<Entry2d>>>>, n: nat, x: nat, y: nat, cc: seq<nat>, v: nat): bool
    requires SquareDicts(dicts, n)
    requires x < n && y < n && v <= |dicts|
    decreases |dicts| - v
  {
    if v == |dicts| then false
    else if LinkedFrom(dicts[v].value, n, x, y, cc, 0) then true
    else LinkedFromVariable(dicts, n, x, y, cc, v + 1)
  }

  /**
   * `checkConnectivity(x, y, ds_2d, connect_components)` over the affinity dicts of
   * `preprocess2dVariables`: the search stops at the first variable and component that
   * link the two regions.
   */
  function CheckConnectivity(x: nat, y: nat, dicts: seq<Named<seq<Keyed<Entry2d>>>>, cc: seq<nat>, n: nat): bool
    requires SquareDicts(dicts, n) && x < n && y < n
  {
    LinkedFromVariable(dicts, n, x, y, cc, 0)
  }

  /** A connecting component whose scaled matrix of variable `v` is non-zero (or NaN) at [x][y]. */
  ghost predicate Links(dicts: seq<Named<seq<Keyed<Entry2d>>>>, n: nat, x: nat, y: nat, cc: seq<nat>, v: nat, e: nat)
    requires SquareDicts(dicts, n) && x < n && y < n
  {
    v < |dicts| && e < |dicts[v].value| && dicts[v].value[e].id in cc
    && NonZero(dicts[v].value[e].value.matrix[x][y])
  }

  lemma {:induction false} LinkedFromSpec(es: seq<Keyed<Entry2d>>, n: nat, x: nat, y: nat, cc: seq<nat>, j: nat)
    requires forall e :: 0 <= e < |es| ==> es[e].value.Affinity? && IsMatrix(es[e].value.matrix, n, n)
    requires x < n && y < n && j <= |es|
    ensures LinkedFrom(es, n, x, y, cc, j) <==>
      exists e :: j <= e < |es| && es[e].id in cc && NonZero(es[e].value.matrix[x][y])
    decreases |es| - j
  {
    if j < |es| {
      LinkedFromSpec(es, n, x, y, cc, j + 1);
    }
  }

  lemma {:induction false} LinkedFromVariableSpec(dicts: seq<Named<seq<Keyed<Entry2d>>>>, n: nat, x: nat, y: nat, cc: seq<nat>, v: nat)
    requires SquareDicts(dicts, n) && x < n && y < n && v <= |dicts|
    ensures LinkedFromVariable(dicts, n, x, y, cc, v) <==>
      exists u, e :: v <= u && Links(dicts, n, x, y, cc, u, e)
    decreases |dicts| - v
  {
    if v < |dicts| {
      LinkedFromVariableSpec(dicts, n, x, y, cc, v + 1);
      LinkedFromSpec(dicts[v].value, n, x, y, cc, 0);
      if LinkedFrom(dicts[v].value, n, x, y, cc, 0) {
        var e :| 0 <= e < |dicts[v].value| && dicts[v].value[e].id in cc
          && NonZero(dicts[v].value[e].value.matrix[x][y]);
        assert Links(dicts, n, x, y, cc, v, e);
      } else if exists u, e :: v <= u && Links(dicts, n, x, y, cc, u, e) {
        var u, e :| v <= u && Links(dicts, n, x, y, cc, u, e);
        assert u != v;
      }
    }
  }

  /**
   * `checkConnectivity` is true exactly when some variable has a component in
   * `connect_components` whose scaled matrix is non-zero at [x][y]; NaN counts as non-zero.
   */
  lemma CheckConnectivitySpec(x: nat, y: nat, dicts: seq<Named<seq<Keyed<Entry2d>>>>, cc: seq<nat>, n: nat)
    requires SquareDicts(dicts, n) && x < n && y < n
    ensures CheckConnectivity(x, y, dicts, cc, n) <==> exists v, e :: Links(dicts, n, x, y, cc, v, e)
  {
    LinkedFromVariableSpec(dicts, n, x, y, cc, 0);
  }

  // ---------------------------------------------------------------------------------------
  // generateConnectivityMatrix
  // ---------------------------------------------------------------------------------------

  /**
   * The loops of `generateConnectivityMatrix` for a given test `linked` of a pair: a fresh
   * n x n array of zeros with 1 written at [i, j] for every i < j that `linked` accepts.
   */
  method FillLinks(n: nat, linked: (nat, nat) -> bool) returns (a: array2<Cell>)
    ensures fresh(a) && a.Length0 == n && a.Length1 == n
    ensures forall p, q :: 0 <= p < q < n ==> a[p, q] == if linked(p, q) then Some(1.0) else Some(0.0)
    ensures forall p, q :: 0 <= q <= p < n ==> a[p, q] == Some(0.0)
  {
    a := new Cell[n, n]((i, j) => Some(0.0));
    var i := 0;
    while i < n
      modifies a
      invariant 0 <= i <= n
      invariant forall p, q :: 0 <= p < i && p < q < n ==> a[p, q] == if linked(p, q) then Some(1.0) else Some(0.0)
      invariant forall p, q :: 0 <= q < n && i <= p < n ==> a[p, q] == Some(0.0)
      invariant forall p, q :: 0 <= q <= p < n ==> a[p, q] == Some(0.0)
    {
      var j := i + 1;
      while j < n
        modifies a
        invariant i + 1 <= j <= n
        invariant forall p, q :: 0 <= p < i && p < q < n ==> a[p, q] == if linked(p, q) then Some(1.0) else Some(0.0)
        invariant forall q :: i < q < j ==> a[i, q] == if linked(i, q) then Some(1.0) else Some(0.0)
        invariant forall q :: 0 <= q <= i || j <= q < n ==> a[i, q] == Some(0.0)
        invariant forall p, q :: 0 <= q < n && i < p < n ==> a[p, q] == Some(0.0)
        invariant forall p, q :: 0 <= q <= p < n ==> a[p, q] == Some(0.0)
      {
        if linked(i, j) {
          a[i, j] := Some(1.0);
        }
        j := j + 1;
      }
      i := i + 1;
    }
  }

  /** Step 1: the affinity dicts of the variables whose dimensions are exactly (component, space, space_2). */
  function ConnectivityDicts(ds: Data): Result<seq<Named<seq<Keyed<Entry2d>>>>>
    requires WellFormed(ds)
  {
    Dicts2d(ConnectivityVars(ds.variables, ds), ds.space, ds.space2, ToAffinity)
  }

  /** The affinity dicts hold one |space| x |space| matrix per component. */
  lemma ConnectivityDictsSquare(ds: Data)
    requires WellFormed(ds)
    ensures ConnectivityDicts(ds).Ok? ==> SquareDicts(ConnectivityDicts(ds).value, |ds.space|)
  {
    AffinityDictsShape(ConnectivityVars(ds.variables, ds), ds.space, ds.space2);
  }

  /**
   * `generateConnectivityMatrix(sds)`: fails when `preprocess2dVariables` does; otherwise a
   * fresh symmetric n x n 0/1 array with 1 on the diagonal and, for i < j, 1 at [i, j] and
   * [j, i] exactly when `checkConnectivity(i, j, ...)` holds for the connecting components,
   * that is, when one of them has a non-zero (or NaN) scaled value at [i][j] in some variable.
   */
  method GenerateConnectivityMatrix(ds: Data) returns (r: Result<array2<Cell>>)
    requires WellFormed(ds)
    ensures r.Err? <==> ConnectivityDicts(ds).Err?
    ensures r.Err? ==> r.error == ConnectivityDicts(ds).error
    ensures r.Ok? ==> ConnectivityDicts(ds).Ok? && SquareDicts(ConnectivityDicts(ds).value, |ds.space|)
    ensures r.Ok? ==> fresh(r.value) && r.value.Length0 == |ds.space| && r.value.Length1 == |ds.space|
    ensures r.Ok? ==> forall i :: 0 <= i < |ds.space| ==> r.value[i, i] == Some(1.0)
    ensures r.Ok? ==> forall i, j :: 0 <= i < j < |ds.space| ==>
      && r.value[i, j] == r.value[j, i]
      && r.value[i, j] == if CheckConnectivity(i, j, ConnectivityDicts(ds).value, ConnectComponentsSpec(ds.components), |ds.space|)
                          then Some(1.0) else Some(0.0)
    ensures r.Ok? ==> forall i, j :: 0 <= i < |ds.space| && 0 <= j < |ds.space| ==>
      r.value[i, j] == Some(0.0) || r.value[i, j] == Some(1.0)
    ensures r.Ok? ==> forall i, j :: 0 <= i < j < |ds.space| ==>
      (r.value[i, j] == Some(1.0) <==>
       exists v, e :: Links(ConnectivityDicts(ds).value, |ds.space|, i, j, ConnectComponentsSpec(ds.components), v, e))
  {
    ConnectivityDictsSquare(ds);
    var vars := ConnectivityVars(ds.variables, ds);
    var d := Preprocess2d(vars, ds.space, ds.space2, ToAffinity);
    if d.Err? {
      return Err(d.error);
    }
    var dicts := d.value;
    var n := |ds.space|;
    var cc := ConnectComponents(ds.components);
    var linked := (p: nat, q: nat) => p < n && q < n && CheckConnectivity(p, q, dicts, cc, n);
    var a := FillLinks(n, linked);
    label Filled:
    Symmetrize(a);
    forall p, q | 0 <= p < q < n
      ensures a[p, q] == old@Filled(a[p, q]) && a[q, p] == old@Filled(a[p, q])
    {
      ReflectCell(old@Filled(a[p, q]));
    }
    FillDiagonal(a, Some(1.0));
    forall p, q | 0 <= p < q < n
      ensures CheckConnectivity(p, q, dicts, cc, n) <==> exists v, e :: Links(dicts, n, p, q, cc, v, e)
    {
      CheckConnectivitySpec(p, q, dicts, cc, n);
    }
    r := Ok(a);
  }
}
