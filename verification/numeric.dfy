/**
 * numpy floats that may be NaN. A `Cell` is `Some(v)` for a number and `None` for NaN;
 * arithmetic propagates NaN as IEEE arithmetic does, and the means skip it as
 * xarray's `mean` does by default.
 */
module Numeric {
  import opened Wrappers

  type Cell = Option<real>

  function Add(a: Cell, b: Cell): (r: Cell)
    ensures r.Some? <==> a.Some? && b.Some?
  {
    if a.Some? && b.Some? then Some(a.value + b.value) else None
  }

  function Sub(a: Cell, b: Cell): (r: Cell)
    ensures r.Some? <==> a.Some? && b.Some?
  {
    if a.Some? && b.Some? then Some(a.value - b.value) else None
  }

  function Mul(a: Cell, b: Cell): (r: Cell)
    ensures r.Some? <==> a.Some? && b.Some?
  {
    if a.Some? && b.Some? then Some(a.value * b.value) else None
  }

  function Sum(s: seq<real>): real
  {
    if |s| == 0 then 0.0 else Sum(s[..|s| - 1]) + s[|s| - 1]
  }

  /** The numbers among `s`, in order (the NaN entries dropped). */
  function Present(s: seq<Cell>): (r: seq<real>)
    ensures |r| <= |s|
  {
    if |s| == 0 then []
    else Present(s[..|s| - 1]) + (if s[|s| - 1].Some? then [s[|s| - 1].value] else [])
  }

  /** xarray's NaN-skipping mean: NaN when no entry is a number. */
  function NanMean(s: seq<Cell>): Cell
  {
    var p := Present(s);
    if |p| == 0 then None else Some(Sum(p) / (|p| as real))
  }

  lemma {:induction false} PresentEmpty(s: seq<Cell>)
    ensures |Present(s)| == 0 <==> forall k :: 0 <= k < |s| ==> s[k].None?
  {
    if |s| > 0 {
      var init := s[..|s| - 1];
      PresentEmpty(init);
      assert forall k :: 0 <= k < |init| ==> init[k] == s[k];
    }
  }

  /** The mean of a sequence is a number exactly when one of its entries is. */
  lemma NanMeanDefined(s: seq<Cell>)
    ensures NanMean(s).Some? <==> exists k :: 0 <= k < |s| && s[k].Some?
  {
    PresentEmpty(s);
  }

  /** Every number of `s` is in `Present(s)`, and nothing else is. */
  lemma {:induction false} PresentMembers(s: seq<Cell>)
    ensures forall k :: 0 <= k < |s| && s[k].Some? ==> s[k].value in Present(s)
    ensures forall v :: v in Present(s) ==> Some(v) in s
  {
    if |s| > 0 {
      var init := s[..|s| - 1];
      PresentMembers(init);
      assert s == init + [s[|s| - 1]];
      forall k | 0 <= k < |s| - 1 && s[k].Some? ensures s[k].value in Present(s) {
        assert init[k] == s[k];
      }
    }
  }

  function SeqMin(s: seq<real>): (r: real)
    requires |s| > 0
    ensures r in s && forall k :: 0 <= k < |s| ==> r <= s[k]
  {
    if |s| == 1 then s[0]
    else var m := SeqMin(s[..|s| - 1]); if s[|s| - 1] < m then s[|s| - 1] else m
  }

  function SeqMax(s: seq<real>): (r: real)
    requires |s| > 0
    ensures r in s && forall k :: 0 <= k < |s| ==> s[k] <= r
  {
    if |s| == 1 then s[0]
    else var m := SeqMax(s[..|s| - 1]); if s[|s| - 1] > m then s[|s| - 1] else m
  }
}
