/** Failure-compatible result types shared by the whole model. */
module Wrappers {

  datatype Option<+T> = None | Some(value: T)

  /** The Python exceptions the modelled code can raise. */
  datatype Error =
    | KeyError(key: string)          // a dict or DataFrame label lookup that misses
    | MissingLabels(keys: seq<string>) // pandas' KeyError for a column list, naming every missing label
    | ValueError(reason: string)     // a numpy/sklearn/list call rejecting its input
    | IndexError(reason: string)     // a list index out of range

  datatype Result<+T> = Ok(value: T) | Err(error: Error) {
    predicate IsFailure() { Err? }

    function PropagateFailure<U>(): Result<U>
      requires Err?
    {
      Err(error)
    }

    function Extract(): T
      requires Ok?
    {
      value
    }
  }

  /** A value labelled by a string key: one entry of an insertion-ordered Python dict. */
  datatype Named<+V> = Named(name: string, value: V)

  /** A value labelled by a component index: one entry of a dict keyed by component id. */
  datatype Keyed<+V> = Keyed(id: nat, value: V)

  /** The names of an insertion-ordered dict, in order. */
  function Names<V>(d: seq<Named<V>>): (r: seq<string>)
    ensures |r| == |d|
    ensures forall k :: 0 <= k < |d| ==> r[k] == d[k].name
  {
    if |d| == 0 then [] else Names(d[..|d| - 1]) + [d[|d| - 1].name]
  }

  /** The keys of a dict keyed by component id, in order. */
  function Keys<V>(d: seq<Keyed<V>>): (r: seq<nat>)
    ensures |r| == |d|
    ensures forall k :: 0 <= k < |d| ==> r[k] == d[k].id
  {
    seq(|d|, k requires 0 <= k < |d| => d[k].id)
  }

  /** Position of the first occurrence of `x` in `s` (Python's `list.index`), or None. */
  function IndexOf<T(==)>(s: seq<T>, x: T): (r: Option<nat>)
    ensures r.Some? ==> r.value < |s| && s[r.value] == x && forall k :: 0 <= k < r.value ==> s[k] != x
    ensures r.None? <==> x !in s
  {
    if |s| == 0 then None
    else if s[0] == x then Some(0)
    else match IndexOf(s[1..], x)
      case None => None
      case Some(k) => Some(k + 1)
  }

  /**
   * The first `v` outcomes, each named by `names`, gathered into a dict in order; the
   * first failed outcome stops the gathering with its error (a Python loop that raises).
   */
  function Collect<T>(names: seq<string>, outs: seq<Result<T>>, v: nat): (r: Result<seq<Named<T>>>)
    requires |names| == |outs| && v <= |outs|
    ensures r.Ok? ==> |r.value| == v
  {
    if v == 0 then Ok([])
    else
      var init := Collect(names, outs, v - 1);
      if init.Err? then init
      else if outs[v - 1].Err? then Err(outs[v - 1].error)
      else Ok(init.value + [Named(names[v - 1], outs[v - 1].value)])
  }

  /**
   * Gathering fails exactly when one of the outcomes does, with the error of the first
   * that does; otherwise entry `k` is outcome `k` under name `k`.
   */
  lemma {:induction false} CollectSpec<T>(names: seq<string>, outs: seq<Result<T>>, v: nat)
    requires |names| == |outs| && v <= |outs|
    ensures Collect(names, outs, v).Err? <==> exists k :: 0 <= k < v && outs[k].Err?
    ensures Collect(names, outs, v).Err? ==> exists k :: (0 <= k < v && outs[k].Err?
      && Collect(names, outs, v).error == outs[k].error && forall l :: 0 <= l < k ==> outs[l].Ok?)
    ensures Collect(names, outs, v).Ok? ==> forall k :: 0 <= k < v ==>
      outs[k].Ok? && Collect(names, outs, v).value[k] == Named(names[k], outs[k].value)
  {
    if v > 0 {
      CollectSpec(names, outs, v - 1);
    }
  }

  /** Once an outcome fails, the later ones leave the failure as it is. */
  lemma {:induction false} CollectErrorStays<T>(names: seq<string>, outs: seq<Result<T>>, v: nat, w: nat)
    requires |names| == |outs| && v <= w <= |outs|
    requires Collect(names, outs, v).Err?
    ensures Collect(names, outs, w) == Collect(names, outs, v)
  {
    if v < w {
      CollectErrorStays(names, outs, v, w - 1);
    }
  }

  /** One more outcome either ends the gathering with its failure or adds its value. */
  lemma CollectStep<T>(names: seq<string>, outs: seq<Result<T>>, v: nat, ds: seq<Named<T>>)
    requires |names| == |outs| && v < |outs|
    requires Collect(names, outs, v) == Ok(ds)
    ensures outs[v].Err? ==> Collect(names, outs, |outs|) == Err(outs[v].error)
    ensures outs[v].Ok? ==> Collect(names, outs, v + 1) == Ok(ds + [Named(names[v], outs[v].value)])
  {
    if outs[v].Err? {
      CollectErrorStays(names, outs, v + 1, |outs|);
    }
  }

  /**
   * Two lists of outcomes that fail at the same positions with the same errors are
   * gathered alike: both succeed, or both fail with the same error.
   */
  lemma {:induction false} CollectSameFailures<T>(names: seq<string>, o1: seq<Result<T>>, o2: seq<Result<T>>, v: nat)
    requires |names| == |o1| == |o2| && v <= |o1|
    requires forall k :: 0 <= k < |o1| ==> o1[k].Err? == o2[k].Err?
    requires forall k :: 0 <= k < |o1| && o1[k].Err? ==> o1[k].error == o2[k].error
    ensures Collect(names, o1, v).Ok? == Collect(names, o2, v).Ok?
    ensures Collect(names, o1, v).Err? ==> Collect(names, o1, v) == Collect(names, o2, v)
  {
    if v > 0 {
      CollectSameFailures(names, o1, o2, v - 1);
    }
  }
}
