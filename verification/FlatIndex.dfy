/** Cells of matrices and tensors stored row by row in flat buffers. */
module FlatIndex {
  /** Row i, column j of a matrix with n columns. */
  function Cell(i: int, j: int, n: int): int {
    i * n + j
  }

  lemma CellInside(i: int, j: int, m: int, n: int)
    requires 0 <= i < m && 0 <= j < n
    ensures 0 <= Cell(i, j, n) < m * n
  {
    assert i * n <= (m - 1) * n;
    assert (m - 1) * n == m * n - n;
  }

  lemma RowsApart(i: int, k: int, n: int)
    requires i < k && n > 0
    ensures i * n + n <= k * n
  {
    assert (i + 1) * n <= k * n;
  }

  lemma CellApart(i: int, j: int, k: int, l: int, n: int)
    requires 0 <= j < n && 0 <= l < n && Cell(i, j, n) == Cell(k, l, n)
    ensures i == k && j == l
  {
    if i < k {
      RowsApart(i, k, n);
    } else if k < i {
      RowsApart(k, i, n);
    }
  }

  lemma MoreRows(a: nat, b: nat, g: nat)
    requires a <= b
    ensures a * g <= b * g
  {
  }

  lemma SizeNotZero(rows: nat, g: nat)
    requires rows * g > 0
    ensures g > 0
  {
  }

  /** Every position is the cell of a row and a column. */
  lemma {:induction false} RowAndColumn(p: nat, rows: nat, g: nat) returns (r: nat, c: nat)
    requires p < rows * g
    ensures r < rows && c < g && p == Cell(r, c, g)
  {
    SizeNotZero(rows, g);
    r, c := p / g, p % g;
    assert p == r * g + c;
    if rows <= r {
      MoreRows(rows, r, g);
    }
  }
}
