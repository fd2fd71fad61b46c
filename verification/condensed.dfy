/**
 * The condensed (upper-triangle) form of a square matrix, as scipy's `squareform` builds
 * it, and the index formula the distance function uses to read it back.
 */
module Condensed {
  import opened Numeric
  import opened Matrices

  /** Number of upper-triangle entries in the rows before row `x` of an n x n matrix. */
  function RowOffset(n: nat, x: nat): nat
    requires x <= n
  {
    if x == 0 then 0 else RowOffset(n, x - 1) + (n - x)
  }

  /** Row-major position of pair (x, y), x < y, among the upper-triangle entries. */
  function CondensedIndex(n: nat, x: nat, y: nat): nat
    requires x < y < n
  {
    RowOffset(n, x) + (y - x - 1)
  }

  /** Length of the condensed vector of an n x n matrix: n(n-1)/2. */
  function CondensedLength(n: nat): nat
  {
    RowOffset(n, n)
  }

  lemma {:induction false} RowOffsetClosedForm(n: nat, x: nat)
    requires x <= n
    ensures 2 * RowOffset(n, x) == x * (2 * n - x - 1)
  {
    if x > 0 {
      RowOffsetClosedForm(n, x - 1);
    }
  }

  lemma {:induction false} RowOffsetMonotone(n: nat, x: nat, x': nat)
    requires x <= x' <= n
    ensures RowOffset(n, x) <= RowOffset(n, x')
  {
    if x < x' {
      RowOffsetMonotone(n, x, x' - 1);
    }
  }

  lemma CondensedLengthFormula(n: nat)
    ensures 2 * CondensedLength(n) == n * (n - 1)
  {
    RowOffsetClosedForm(n, n);
  }

  /** Pair (x, y) falls inside row x's stretch of the vector, hence inside the vector. */
  lemma CondensedIndexInRow(n: nat, x: nat, y: nat)
    requires x < y < n
    ensures RowOffset(n, x) <= CondensedIndex(n, x, y) < RowOffset(n, x + 1)
    ensures CondensedIndex(n, x, y) < CondensedLength(n)
  {
    RowOffsetMonotone(n, x + 1, n);
  }

  /** Different pairs occupy different positions. */
  lemma CondensedIndexInjective(n: nat, x: nat, y: nat, x': nat, y': nat)
    requires x < y < n && x' < y' < n
    requires CondensedIndex(n, x, y) == CondensedIndex(n, x', y')
    ensures x == x' && y == y'
  {
    CondensedIndexInRow(n, x, y);
    CondensedIndexInRow(n, x', y');
    if x < x' {
      RowOffsetMonotone(n, x + 1, x');
    } else if x' < x {
      RowOffsetMonotone(n, x' + 1, x);
    }
  }

  /** The pair stored at position `k` of the condensed vector, searching from row `x` on. */
  function DecodeFrom(n: nat, x: nat, k: nat): (p: (nat, nat))
    requires x < n && RowOffset(n, x) + k < CondensedLength(n)
    decreases n - x
  {
    if k < n - 1 - x then (x, x + 1 + k)
    else
      RowOffsetMonotone(n, x + 1, n);
      DecodeFrom(n, x + 1, k - (n - 1 - x))
  }

  /** The pair stored at position `k` of the condensed vector of an n x n matrix. */
  function DecodeIndex(n: nat, k: nat): (p: (nat, nat))
    requires k < CondensedLength(n)
  {
    if n == 0 then (0, 0) else DecodeFrom(n, 0, k)
  }

  lemma {:induction false} DecodeFromIndex(n: nat, s: nat, x: nat, y: nat)
    requires s <= x < y < n
    ensures CondensedIndex(n, x, y) >= RowOffset(n, s)
    ensures CondensedIndex(n, x, y) < CondensedLength(n)
    ensures DecodeFrom(n, s, CondensedIndex(n, x, y) - RowOffset(n, s)) == (x, y)
    decreases x - s
  {
    RowOffsetMonotone(n, s, x);
    CondensedIndexInRow(n, x, y);
    if s < x {
      RowOffsetMonotone(n, s + 1, x);
      DecodeFromIndex(n, s + 1, x, y);
    }
  }

  /** Decoding the position of a pair gives the pair back. */
  lemma CondensedRoundTrip(n: nat, x: nat, y: nat)
    requires x < y < n
    ensures CondensedIndex(n, x, y) < CondensedLength(n)
    ensures DecodeIndex(n, CondensedIndex(n, x, y)) == (x, y)
  {
    DecodeFromIndex(n, 0, x, y);
  }

  predicate IsSquare(m: Matrix)
  {
    IsMatrix(m, |m|, |m|)
  }

  /** The upper-triangle entries of rows `x`, `x + 1`, ... of a square matrix, row-major. */
  function CondenseFrom(m: Matrix, x: nat): seq<Cell>
    requires IsSquare(m) && x <= |m|
    decreases |m| - x
  {
    if x == |m| then [] else m[x][x + 1..] + CondenseFrom(m, x + 1)
  }

  /** `squareform(m, checks=False)`: the upper triangle of `m` as a vector. */
  function Condense(m: Matrix): seq<Cell>
    requires IsSquare(m)
  {
    CondenseFrom(m, 0)
  }

  lemma {:induction false} CondenseFromAt(m: Matrix, s: nat, x: nat, y: nat)
    requires IsSquare(m) && s <= x < y < |m|
    ensures RowOffset(|m|, s) <= CondensedIndex(|m|, x, y) < CondensedLength(|m|)
    ensures |CondenseFrom(m, s)| == CondensedLength(|m|) - RowOffset(|m|, s)
    ensures CondenseFrom(m, s)[CondensedIndex(|m|, x, y) - RowOffset(|m|, s)] == m[x][y]
    decreases x - s
  {
    var n := |m|;
    RowOffsetMonotone(n, s, x);
    CondensedIndexInRow(n, x, y);
    CondenseFromLength(m, s);
    var row := m[s][s + 1..];
    assert CondenseFrom(m, s) == row + CondenseFrom(m, s + 1);
    assert |row| == RowOffset(n, s + 1) - RowOffset(n, s);
    if s < x {
      CondenseFromAt(m, s + 1, x, y);
      RowOffsetMonotone(n, s + 1, x);
    } else {
      assert CondensedIndex(n, x, y) - RowOffset(n, s) == y - x - 1;
    }
  }

  lemma {:induction false} CondenseFromLength(m: Matrix, s: nat)
    requires IsSquare(m) && s <= |m|
    ensures RowOffset(|m|, s) <= CondensedLength(|m|)
    ensures |CondenseFrom(m, s)| == CondensedLength(|m|) - RowOffset(|m|, s)
    decreases |m| - s
  {
    RowOffsetMonotone(|m|, s, |m|);
    if s < |m| {
      CondenseFromLength(m, s + 1);
    }
  }

  /**
   * The condensed vector has n(n-1)/2 entries, and the entry at the position of pair
   * (x, y), x < y, is `m[x][y]`.
   */
  lemma CondenseAt(m: Matrix, x: nat, y: nat)
    requires IsSquare(m) && x < y < |m|
    ensures CondensedIndex(|m|, x, y) < |Condense(m)| == CondensedLength(|m|)
    ensures Condense(m)[CondensedIndex(|m|, x, y)] == m[x][y]
  {
    CondenseFromAt(m, 0, x, y);
  }

  lemma CondenseLength(m: Matrix)
    requires IsSquare(m)
    ensures |Condense(m)| == CondensedLength(|m|)
  {
    CondenseFromLength(m, 0);
  }

  /** The lookup formula of `selfDistance`, as written: x*(n-x) + (y-x) - 1. */
  function LookupIndex(n: int, x: int, y: int): int
  {
    x * (n - x) + (y - x) - 1
  }

  /** The lookup falls short of the row-major position by x(x-1)/2. */
  lemma LookupShortfall(n: nat, x: nat, y: nat)
    requires x < y < n
    ensures 2 * (CondensedIndex(n, x, y) - LookupIndex(n, x, y)) == x * (x - 1)
  {
    RowOffsetClosedForm(n, x);
  }

  /** For 0 <= x < y < n the lookup stays inside the condensed vector. */
  lemma LookupInBounds(n: nat, x: nat, y: nat)
    requires x < y < n
    ensures 0 <= LookupIndex(n, x, y) < CondensedLength(n)
  {
    LookupShortfall(n, x, y);
    CondensedIndexInRow(n, x, y);
    var lost := x * (x - 1);
    assert lost >= 0 by {
      if x > 0 {
        NatProduct(x, x - 1);
      }
    }
    NatProduct(x, n - x);
  }

  lemma NatProduct(a: nat, b: nat)
    ensures a * b >= 0
  {
  }

  /** The lookup is the row-major position exactly for pairs in rows 0 and 1. */
  lemma LookupMatchesOnlyFirstRows(n: nat, x: nat, y: nat)
    requires x < y < n
    ensures LookupIndex(n, x, y) == CondensedIndex(n, x, y) <==> x <= 1
  {
    LookupShortfall(n, x, y);
    if x >= 2 {
      assert x * (x - 1) >= 2 * 1;
    }
  }

  /** With four regions, pairs (1,3) and (2,3) are both read from position 4 ... */
  lemma LookupCollision()
    ensures LookupIndex(4, 1, 3) == 4 && LookupIndex(4, 2, 3) == 4
  {
  }

  /** ... which is where squareform put pair (1,3); pair (2,3) sits at position 5. */
  lemma CollidingPairsPositions()
    ensures CondensedIndex(4, 1, 3) == 4 && CondensedIndex(4, 2, 3) == 5
  {
    assert RowOffset(4, 2) == 5;
  }

  /** For n >= 4 the lookup for pair (2,3) is the position of pair (1, n-1). */
  lemma LookupReadsLastOfRowOne(n: nat)
    requires n >= 4
    ensures LookupIndex(n, 2, 3) == CondensedIndex(n, 1, n - 1)
  {
    assert RowOffset(n, 1) == n - 1;
  }

  /** So for four regions the distance of pair (2,3) reads the entry of pair (1,3). */
  lemma LookupReadsOtherPair(m: Matrix)
    requires IsSquare(m) && |m| == 4
    ensures |Condense(m)| == 6
    ensures Condense(m)[LookupIndex(4, 2, 3)] == m[1][3]
  {
    CondenseAt(m, 1, 3);
    LookupCollision();
    CollidingPairsPositions();
  }
}
