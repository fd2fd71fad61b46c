/**
 * `computeModularity`: the modularity of a grouping of the regions over a weighted
 * adjacency matrix whose diagonal (the self-loops) is zeroed first, in the caller's array.
 */
module Modularity {
  import opened Wrappers
  import opened Numeric
  import opened NdArrays

  /** The entries of a 2-d array, row by row. */
  function Entries(a: array2<real>): (m: seq<seq<real>>)
    reads a
    ensures |m| == a.Length0
    ensures forall i :: 0 <= i < a.Length0 ==> |m[i]| == a.Length1
    ensures forall i, j :: 0 <= i < a.Length0 && 0 <= j < a.Length1 ==> m[i][j] == a[i, j]
  {
    seq(a.Length0, i requires 0 <= i < a.Length0 reads a =>
      seq(a.Length1, j requires 0 <= j < a.Length1 reads a => a[i, j]))
  }

  /** An n x n matrix of reals. */
  ghost predicate IsSquareOf(m: seq<seq<real>>, n: nat)
  {
    |m| == n && forall i :: 0 <= i < n ==> |m[i]| == n
  }

  /** `m` with 0 on its diagonal. */
  function ZeroDiagonal(m: seq<seq<real>>): (r: seq<seq<real>>)
    ensures |r| == |m| && forall i :: 0 <= i < |m| ==> |r[i]| == |m[i]|
    ensures forall i, j :: 0 <= i < |m| && 0 <= j < |m[i]| ==> r[i][j] == if i == j then 0.0 else m[i][j]
  {
    seq(|m|, i requires 0 <= i < |m| => seq(|m[i]|, j requires 0 <= j < |m[i]| => if i == j then 0.0 else m[i][j]))
  }

  /** The weighted degree of region v: the sum of its row. */
  function Degree(m: seq<seq<real>>, v: nat): real
    requires v < |m|
  {
    Sum(m[v])
  }

  /** The sum of the first `k` rows: `np.sum` over them. */
  function RowsTotal(m: seq<seq<real>>, k: nat): real
    requires k <= |m|
  {
    if k == 0 then 0.0 else RowsTotal(m, k - 1) + Sum(m[k - 1])
  }

  /** The total edge weight: the sum of every entry. */
  function TotalWeight(m: seq<seq<real>>): real
  {
    RowsTotal(m, |m|)
  }

  /**
   * What the pair (v, w) adds: its edge weight less the expected weight under random
   * attachment when the two regions are in the same group, nothing otherwise.
   */
  function PairTerm(m: seq<seq<real>>, labels: seq<int>, t: real, v: nat, w: nat): real
    requires IsSquareOf(m, |labels|) && v < |labels| && w < |labels| && t != 0.0
  {
    if labels[v] == labels[w] then m[v][w] - Degree(m, v) * Degree(m, w) / (2.0 * t) else 0.0
  }

  /** The terms of the pairs (v, q) with v < q < w. */
  function RowTerms(m: seq<seq<real>>, labels: seq<int>, t: real, v: nat, w: nat): real
    requires IsSquareOf(m, |labels|) && v < |labels| && w <= |labels| && t != 0.0
  {
    if w <= v + 1 then 0.0 else RowTerms(m, labels, t, v, w - 1) + PairTerm(m, labels, t, v, w - 1)
  }

  /** The terms of every pair (p, q) with p < v and p < q. */
  function PairTerms(m: seq<seq<real>>, labels: seq<int>, t: real, v: nat): real
    requires IsSquareOf(m, |labels|) && v <= |labels| && t != 0.0
  {
    if v == 0 then 0.0 else PairTerms(m, labels, t, v - 1) + RowTerms(m, labels, t, v - 1, |labels|)
  }

  /** The modularity of the grouping `labels` over the adjacency matrix `m` (diagonal already zero). */
  function ModularityOf(m: seq<seq<real>>, labels: seq<int>): real
    requires IsSquareOf(m, |labels|) && TotalWeight(m) != 0.0
  {
    PairTerms(m, labels, TotalWeight(m), |labels|) / (2.0 * TotalWeight(m))
  }

  /** `np.sum(adjacency[v])`. */
  method RowSum(a: array2<real>, v: nat) returns (s: real)
    requires v < a.Length0
    ensures s == Sum(Entries(a)[v])
  {
    ghost var row := Entries(a)[v];
    s := 0.0;
    var j := 0;
    while j < a.Length1
      invariant 0 <= j <= a.Length1
      invariant s == Sum(row[..j])
    {
      assert row[..j + 1][..j] == row[..j];
      s := s + a[v, j];
      j := j + 1;
    }
    assert row[..j] == row;
  }

  /** `np.sum(adjacency)`. */
  method ArraySum(a: array2<real>) returns (s: real)
    ensures s == TotalWeight(Entries(a))
  {
    s := 0.0;
    var i := 0;
    while i < a.Length0
      invariant 0 <= i <= a.Length0
      invariant s == RowsTotal(Entries(a), i)
    {
      var r := RowSum(a, i);
      s := s + r;
      i := i + 1;
    }
  }

  /**
   * Step 2 of `computeModularity` on an array whose diagonal is already zero, given its
   * total weight: the running sum over the pairs v < w, each term multiplied by 1 when the
   * labels agree and by 0 otherwise, divided by twice the total.
   */
  method PairSum(adj: array2<real>, labels: seq<int>, total: real) returns (q: real)
    requires adj.Length0 == |labels| && adj.Length1 == |labels|
    requires total == TotalWeight(Entries(adj)) && total != 0.0
    ensures IsSquareOf(Entries(adj), |labels|)
    ensures q == ModularityOf(Entries(adj), labels)
  {
    ghost var m := Entries(adj);
    var n := |labels|;
    var acc := 0.0;
    var v := 0;
    while v < n
      invariant 0 <= v <= n
      invariant acc == PairTerms(m, labels, total, v)
    {
      var w := v + 1;
      while w < n
        invariant v + 1 <= w <= n
        invariant acc == PairTerms(m, labels, total, v) + RowTerms(m, labels, total, v, w)
      {
        var dv := RowSum(adj, v);
        var dw := RowSum(adj, w);
        var delta := if labels[v] == labels[w] then 1.0 else 0.0;
        acc := acc + (adj[v, w] - dv * dw / (2.0 * total)) * delta;
        w := w + 1;
      }
      v := v + 1;
    }
    q := acc / (2.0 * total);
  }

  /**
   * `computeModularity(adjacency, regions_label_list)`: sets the diagonal of the caller's
   * array to 0 and leaves every other entry as it was; the result is the modularity of the
   * grouping over the array so changed, in which only pairs v < w with equal labels count.
   * A total weight of 0 makes numpy divide by zero: the result is then not a number (None).
   */
  method ComputeModularity(adj: array2<real>, labels: seq<int>) returns (q: Cell)
    requires adj.Length0 == |labels| && adj.Length1 == |labels|
    modifies adj
    ensures forall i, j :: 0 <= i < adj.Length0 && 0 <= j < adj.Length1 ==>
      adj[i, j] == if i == j then 0.0 else old(adj[i, j])
    ensures Entries(adj) == ZeroDiagonal(old(Entries(adj)))
    ensures IsSquareOf(Entries(adj), |labels|)
    ensures q.None? <==> TotalWeight(Entries(adj)) == 0.0
    ensures q.Some? ==> TotalWeight(Entries(adj)) != 0.0 && q.value == ModularityOf(Entries(adj), labels)
  {
    ghost var before := Entries(adj);
    FillDiagonal(adj, 0.0);
    assert Entries(adj) == ZeroDiagonal(before) by {
      var e, z := Entries(adj), ZeroDiagonal(before);
      forall i | 0 <= i < |e|
        ensures e[i] == z[i]
      {
        assert forall j :: 0 <= j < |e[i]| ==> e[i][j] == z[i][j];
      }
    }
    var total := ArraySum(adj);
    if total == 0.0 {
      q := None;
    } else {
      var m := PairSum(adj, labels, total);
      q := Some(m);
    }
  }

  /**
   * The range [-0.5, 1) of modularity does not hold for an arbitrary real array: with
   * negative weights and every region in one group the formula gives 4.546875.
   */
  lemma RangeFailsWithNegativeWeights()
    ensures var m := [[0.0, 10.0, -4.5], [10.0, 0.0, -4.5], [-4.5, -4.5, 0.0]];
      IsSquareOf(m, 3) && TotalWeight(m) == 2.0 && ModularityOf(m, [0, 0, 0]) == 4.546875
  {
    var m := [[0.0, 10.0, -4.5], [10.0, 0.0, -4.5], [-4.5, -4.5, 0.0]];
    SumOfThree(0.0, 10.0, -4.5);
    SumOfThree(10.0, 0.0, -4.5);
    SumOfThree(-4.5, -4.5, 0.0);
    assert Degree(m, 0) == 5.5 && Degree(m, 1) == 5.5 && Degree(m, 2) == -9.0;
    assert RowsTotal(m, 1) == 5.5;
    assert RowsTotal(m, 2) == 11.0;
    assert TotalWeight(m) == 2.0;
    assert RowTerms(m, [0, 0, 0], 2.0, 0, 3) == 2.4375 + 7.875;
    assert RowTerms(m, [0, 0, 0], 2.0, 1, 3) == 7.875;
  }

  lemma SumOfThree(a: real, b: real, c: real)
    ensures Sum([a, b, c]) == a + b + c
  {
    assert [a][..0] == [];
    assert [a, b][..1] == [a];
    assert [a, b, c][..2] == [a, b];
    assert Sum([a]) == a;
    assert Sum([a, b]) == a + b;
  }

  /** When every region has a label of its own, no pair counts and the modularity is 0. */
  lemma AllDistinctLabelsGiveZero(m: seq<seq<real>>, labels: seq<int>)
    requires IsSquareOf(m, |labels|) && TotalWeight(m) != 0.0
    requires forall v, w :: 0 <= v < w < |labels| ==> labels[v] != labels[w]
    ensures ModularityOf(m, labels) == 0.0
  {
    PairTermsDistinct(m, labels, TotalWeight(m), |labels|);
  }

  lemma {:induction false} PairTermsDistinct(m: seq<seq<real>>, labels: seq<int>, t: real, v: nat)
    requires IsSquareOf(m, |labels|) && v <= |labels| && t != 0.0
    requires forall p, q :: 0 <= p < q < |labels| ==> labels[p] != labels[q]
    ensures PairTerms(m, labels, t, v) == 0.0
  {
    if v > 0 {
      PairTermsDistinct(m, labels, t, v - 1);
      RowTermsDistinct(m, labels, t, v - 1, |labels|);
    }
  }

  lemma {:induction false} RowTermsDistinct(m: seq<seq<real>>, labels: seq<int>, t: real, v: nat, w: nat)
    requires IsSquareOf(m, |labels|) && v < |labels| && w <= |labels| && t != 0.0
    requires forall p, q :: 0 <= p < q < |labels| ==> labels[p] != labels[q]
    ensures RowTerms(m, labels, t, v, w) == 0.0
  {
    if w > v + 1 {
      RowTermsDistinct(m, labels, t, v, w - 1);
    }
  }

  /**
   * Only which regions share a label matters: two label lists that group the regions
   * alike give the same modularity, whatever the label values.
   */
  lemma SameGroupingSameModularity(m: seq<seq<real>>, labels: seq<int>, labels': seq<int>)
    requires IsSquareOf(m, |labels|) && TotalWeight(m) != 0.0 && |labels'| == |labels|
    requires forall v, w :: 0 <= v < w < |labels| ==> (labels[v] == labels[w] <==> labels'[v] == labels'[w])
    ensures ModularityOf(m, labels) == ModularityOf(m, labels')
  {
    PairTermsSameGrouping(m, labels, labels', TotalWeight(m), |labels|);
  }

  lemma {:induction false} PairTermsSameGrouping(m: seq<seq<real>>, labels: seq<int>, labels': seq<int>, t: real, v: nat)
    requires IsSquareOf(m, |labels|) && |labels'| == |labels| && v <= |labels| && t != 0.0
    requires forall p, q :: 0 <= p < q < |labels| ==> (labels[p] == labels[q] <==> labels'[p] == labels'[q])
    ensures PairTerms(m, labels, t, v) == PairTerms(m, labels', t, v)
  {
    if v > 0 {
      PairTermsSameGrouping(m, labels, labels', t, v - 1);
      RowTermsSameGrouping(m, labels, labels', t, v - 1, |labels|);
    }
  }

  lemma {:induction false} RowTermsSameGrouping(m: seq<seq<real>>, labels: seq<int>, labels': seq<int>, t: real, v: nat, w: nat)
    requires IsSquareOf(m, |labels|) && |labels'| == |labels| && v < |labels| && w <= |labels| && t != 0.0
    requires forall p, q :: 0 <= p < q < |labels| ==> (labels[p] == labels[q] <==> labels'[p] == labels'[q])
    ensures RowTerms(m, labels, t, v, w) == RowTerms(m, labels', t, v, w)
  {
    if w > v + 1 {
      RowTermsSameGrouping(m, labels, labels', t, v, w - 1);
    }
  }
}
