/** Sums over the cells of a confusion matrix, and the identities that say how
    the whole-matrix and per-class counts partition it.

    Every sum is written over a prefix: the first `n` cells of a row, or the
    first `n` rows of the matrix. These are the values that the loops in the
    metrics engine hold after `n` iterations. */
module MatrixSums {

  /** A confusion matrix: row `i`, column `j` holds a non-negative count. */
  type Matrix = seq<seq<nat>>

  /** Every cell (i, j) with i, j < |m| exists: the loops over an N-row
      matrix read exactly these cells. */
  predicate Covers(m: Matrix) {
    forall i | 0 <= i < |m| :: |m[i]| >= |m|
  }

  /** row[0] + ... + row[n-1]. */
  function RowSum(row: seq<nat>, n: nat): nat
    requires n <= |row|
  {
    if n == 0 then 0 else RowSum(row, n - 1) + row[n - 1]
  }

  /** The sum of row[j] for j < n and j != k. */
  function RowSumExcept(row: seq<nat>, n: nat, k: nat): nat
    requires n <= |row|
  {
    if n == 0 then 0
    else RowSumExcept(row, n - 1, k) + (if n - 1 == k then 0 else row[n - 1])
  }

  /** The sum of all cells of the first n rows (each row read up to column |m|). */
  function Total(m: Matrix, n: nat): nat
    requires Covers(m) && n <= |m|
  {
    if n == 0 then 0 else Total(m, n - 1) + RowSum(m[n - 1], |m|)
  }

  /** The sum of the diagonal cells m[i][i] for i < n. */
  function Trace(m: Matrix, n: nat): nat
    requires Covers(m) && n <= |m|
  {
    if n == 0 then 0 else Trace(m, n - 1) + m[n - 1][n - 1]
  }

  /** The sum of the off-diagonal cells of the first n rows. */
  function OffDiagonal(m: Matrix, n: nat): nat
    requires Covers(m) && n <= |m|
  {
    if n == 0 then 0 else OffDiagonal(m, n - 1) + RowSumExcept(m[n - 1], |m|, n - 1)
  }

  /** The sum of m[i][k] for i < n and i != k: column k without its diagonal cell. */
  function ColumnSumExcept(m: Matrix, n: nat, k: nat): nat
    requires Covers(m) && n <= |m| && k < |m|
  {
    if n == 0 then 0
    else ColumnSumExcept(m, n - 1, k) + (if n - 1 == k then 0 else m[n - 1][k])
  }

  /** The sum of m[i][j] for i < n, i != k and j != k: everything outside
      row k and column k. */
  function BlockExcept(m: Matrix, n: nat, k: nat): nat
    requires Covers(m) && n <= |m|
  {
    if n == 0 then 0
    else BlockExcept(m, n - 1, k) + (if n - 1 == k then 0 else RowSumExcept(m[n - 1], |m|, k))
  }

  /** Leaving out one cell of a row leaves the row sum less that cell;
      leaving out a column the prefix does not reach leaves it whole. */
  lemma {:induction false} RowSplit(row: seq<nat>, n: nat, k: nat)
    requires n <= |row|
    ensures RowSum(row, n) == RowSumExcept(row, n, k) + (if k < n then row[k] else 0)
  {
    if n > 0 {
      RowSplit(row, n - 1, k);
    }
  }

  /** The whole matrix is its diagonal plus its off-diagonal cells. */
  lemma {:induction false} TotalIsTracePlusOffDiagonal(m: Matrix, n: nat)
    requires Covers(m) && n <= |m|
    ensures Total(m, n) == Trace(m, n) + OffDiagonal(m, n)
  {
    if n > 0 {
      TotalIsTracePlusOffDiagonal(m, n - 1);
      RowSplit(m[n - 1], |m|, n - 1);
    }
  }

  /** Over the first n rows, the whole matrix splits into row k (when the
      prefix reaches it), the rest of column k and the block outside both. */
  lemma {:induction false} TotalSplitsAround(m: Matrix, n: nat, k: nat)
    requires Covers(m) && n <= |m| && k < |m|
    ensures Total(m, n)
            == (if k < n then RowSum(m[k], |m|) else 0) + ColumnSumExcept(m, n, k) + BlockExcept(m, n, k)
  {
    if n > 0 {
      TotalSplitsAround(m, n - 1, k);
      RowSplit(m[n - 1], |m|, k);
    }
  }

  /** The four cells of the per-class table partition the matrix: the diagonal
      cell, the rest of row k, the rest of column k and the remaining block. */
  lemma FourWayPartition(m: Matrix, k: nat)
    requires Covers(m) && k < |m|
    ensures m[k][k] + RowSumExcept(m[k], |m|, k) + ColumnSumExcept(m, |m|, k) + BlockExcept(m, |m|, k)
            == Total(m, |m|)
  {
    TotalSplitsAround(m, |m|, k);
    RowSplit(m[k], |m|, k);
  }
}
