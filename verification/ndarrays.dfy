/** The in-place numpy array operations the grouping utilities apply to square matrices. */
module NdArrays {
  import opened Wrappers
  import opened Numeric

  /** `m.T - np.diag(m.diagonal())` as a fresh array: [i, j] is m[j, i], less m[i, i] on the diagonal. */
  method ReflectedOffDiagonal(a: array2<Cell>) returns (t: array2<Cell>)
    requires a.Length0 == a.Length1
    ensures fresh(t) && t.Length0 == a.Length0 && t.Length1 == a.Length1
    ensures forall i, j :: 0 <= i < a.Length0 && 0 <= j < a.Length1 ==>
      t[i, j] == Sub(a[j, i], if i == j then a[i, i] else Some(0.0))
  {
    var n := a.Length0;
    t := new Cell[n, n]((i, j) => None);
    var i := 0;
    while i < n
      modifies t
      invariant 0 <= i <= n
      invariant forall p, q :: 0 <= p < i && 0 <= q < n ==> t[p, q] == Sub(a[q, p], if p == q then a[p, p] else Some(0.0))
    {
      var j := 0;
      while j < n
        modifies t
        invariant 0 <= j <= n
        invariant forall p, q :: 0 <= p < i && 0 <= q < n ==> t[p, q] == Sub(a[q, p], if p == q then a[p, p] else Some(0.0))
        invariant forall q :: 0 <= q < j ==> t[i, q] == Sub(a[q, i], if i == q then a[i, i] else Some(0.0))
      {
        t[i, j] := Sub(a[j, i], if i == j then a[i, i] else Some(0.0));
        j := j + 1;
      }
      i := i + 1;
    }
  }

  /** `m += t`: each entry of `a` plus the same entry of `t`. */
  method AddInPlace(a: array2<Cell>, t: array2<Cell>)
    requires a != t && t.Length0 == a.Length0 && t.Length1 == a.Length1
    modifies a
    ensures forall i, j :: 0 <= i < a.Length0 && 0 <= j < a.Length1 ==> a[i, j] == Add(old(a[i, j]), t[i, j])
  {
    var i := 0;
    while i < a.Length0
      invariant 0 <= i <= a.Length0
      invariant forall p, q :: 0 <= p < i && 0 <= q < a.Length1 ==> a[p, q] == Add(old(a[p, q]), t[p, q])
      invariant forall p, q :: i <= p < a.Length0 && 0 <= q < a.Length1 ==> a[p, q] == old(a[p, q])
    {
      var j := 0;
      while j < a.Length1
        invariant 0 <= j <= a.Length1
        invariant forall p, q :: 0 <= p < i && 0 <= q < a.Length1 ==> a[p, q] == Add(old(a[p, q]), t[p, q])
        invariant forall q :: 0 <= q < j ==> a[i, q] == Add(old(a[i, q]), t[i, q])
        invariant forall p, q :: 0 <= p < a.Length0 && 0 <= q < a.Length1 && (i < p || (p == i && j <= q)) ==> a[p, q] == old(a[p, q])
      {
        a[i, j] := Add(a[i, j], t[i, j]);
        j := j + 1;
      }
      i := i + 1;
    }
  }

  /**
   * `m += m.T - np.diag(m.diagonal())` on a square array: the right-hand side is computed
   * from the array as it was, then added entry by entry.
   */
  method Symmetrize(a: array2<Cell>)
    requires a.Length0 == a.Length1
    modifies a
    ensures forall i, j :: 0 <= i < a.Length0 && 0 <= j < a.Length1 ==>
      a[i, j] == Add(old(a[i, j]), Sub(old(a[j, i]), if i == j then old(a[i, i]) else Some(0.0)))
  {
    var t := ReflectedOffDiagonal(a);
    AddInPlace(a, t);
  }

  /** Adding a zero, or a zero minus a zero, leaves a cell as it is, NaN included. */
  lemma ReflectCell(c: Cell)
    ensures Add(c, Sub(Some(0.0), Some(0.0))) == c
    ensures Add(Some(0.0), Sub(c, Some(0.0))) == c
  {
  }

  /** `np.fill_diagonal(a, v)`: the diagonal of the square array `a` becomes `v`; nothing else changes. */
  method FillDiagonal<T>(a: array2<T>, v: T)
    requires a.Length0 == a.Length1
    modifies a
    ensures forall i, j :: 0 <= i < a.Length0 && 0 <= j < a.Length1 ==>
      a[i, j] == if i == j then v else old(a[i, j])
  {
    var i := 0;
    while i < a.Length0
      invariant 0 <= i <= a.Length0
      invariant forall p, q :: 0 <= p < a.Length0 && 0 <= q < a.Length1 ==>
        a[p, q] == if p == q && p < i then v else old(a[p, q])
    {
      a[i, i] := v;
      i := i + 1;
    }
  }
}
