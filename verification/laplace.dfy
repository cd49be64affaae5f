/** The Laplace-expansion core: minor extraction, the recursive determinant,
    the cofactor matrix and the inverse built from them. */
module Laplace {
  import opened Matrices
  import opened Arithmetic

  predicate IsSquare(g: Grid)
  {
    IsGrid(g, |g|, |g|)
  }

  /** The source index of position `i` once index `k` is removed. */
  function Skip(i: int, k: int): int
  {
    if i >= k then i + 1 else i
  }

  /** The position index `i` packs to when index `k` is removed (for i != k). */
  function Pack(i: int, k: int): int
  {
    if i > k then i - 1 else i
  }

  /** The (n-1) x (n-1) grid left when row `r` and column `c` are deleted,
      remaining rows and columns kept in order. */
  function Minor(g: Grid, r: nat, c: nat): (m: Grid)
    requires IsSquare(g) && r < |g| && c < |g|
    ensures |m| == |g| - 1 && IsSquare(m)
    ensures forall x, y :: 0 <= x < |m| && 0 <= y < |m| ==> m[x][y] == g[Skip(x, r)][Skip(y, c)]
  {
    seq(|g| - 1, x requires 0 <= x < |g| - 1 => seq(|g| - 1, y requires 0 <= y < |g| - 1 => g[Skip(x, r)][Skip(y, c)]))
  }

  /** `get_minor`: walks the source in row-major order and packs every entry
      outside row `r` and column `c` into the destination through the
      counters x and y, moving to the next destination row when y reaches
      n - 1. */
  method GetMinor(a: Grid, r: int, c: int, n: int) returns (local: Grid)
    requires n >= 1 && IsGrid(a, n, n) && 0 <= r < n && 0 <= c < n
    ensures IsGrid(local, n - 1, n - 1)
    ensures forall x, y :: 0 <= x < n - 1 && 0 <= y < n - 1 ==> local[x][y] == a[Skip(x, r)][Skip(y, c)]
    ensures local == Minor(a, r, c)
  {
    local := Zeros(n - 1, n - 1);
    var x := 0;
    var row := 0;
    while row < n
      invariant 0 <= row <= n
      invariant IsGrid(local, n - 1, n - 1)
      invariant x == Pack(row, r)
      invariant forall x', y :: 0 <= x' < x && 0 <= y < n - 1 ==> local[x'][y] == a[Skip(x', r)][Skip(y, c)]
    {
      var y := 0;
      var col := 0;
      ghost var x0 := x;
      while col < n
        invariant 0 <= col <= n
        invariant IsGrid(local, n - 1, n - 1)
        invariant row == r ==> x == x0 && y == 0
        invariant row != r ==> x0 < n - 1 && Pack(col, c) <= n - 1
        invariant row != r && Pack(col, c) < n - 1 ==> x == x0 && y == Pack(col, c)
        invariant row != r && Pack(col, c) == n - 1 ==> x == x0 + 1 && y == 0
        invariant forall x', y' :: 0 <= x' < x0 && 0 <= y' < n - 1 ==> local[x'][y'] == a[Skip(x', r)][Skip(y', c)]
        invariant row != r ==> forall y' :: 0 <= y' < Pack(col, c) ==> local[x0][y'] == a[row][Skip(y', c)]
      {
        if row != r && col != c {
          local := local[x := local[x][y := a[row][col]]];
          y := y + 1;
          if y == n - 1 {
            y := 0;
            x := x + 1;
          }
        }
        col := col + 1;
      }
      assert row != r ==> Skip(x0, r) == row;
      row := row + 1;
    }
    assert forall x' :: 0 <= x' < n - 1 ==> local[x'] == Minor(a, r, c)[x'];
  }

  /** The sign `(x + j) % 2 == 0 ? 1 : -1` of cofactor (x, j). */
  function Sign(k: nat): real
  {
    if k % 2 == 0 then 1.0 else -1.0
  }

  /** `get_determinant`: the sole entry for size 1; otherwise the loop over
      the first row that starts with sign 1 and accumulator 0 and adds
      sign * A[0][j] * det(minor(A, 0, j)), flipping the sign each step. */
  function Det(g: Grid): (r: real)
    requires |g| >= 1 && IsSquare(g)
    ensures |g| == 1 ==> r == g[0][0]
    decreases |g|, 1, 0
  {
    if |g| == 1 then g[0][0] else Expand(g, 0, 1.0, 0.0)
  }

  /** The expansion loop of `get_determinant` from column j on, with the
      current sign `s` and accumulator `acc`. */
  function Expand(g: Grid, j: nat, s: real, acc: real): real
    requires |g| >= 2 && IsSquare(g) && j <= |g|
    decreases |g|, 0, |g| - j
  {
    if j == |g| then acc
    else Expand(g, j + 1, -s, acc + s * g[0][j] * Det(Minor(g, 0, j)))
  }

  /** The j-th signed term of the first-row expansion, (-1)^j A[0][j] det(minor(A, 0, j)). */
  function Term(g: Grid, j: nat): real
    requires |g| >= 2 && IsSquare(g) && j < |g|
  {
    Sign(j) * g[0][j] * Det(Minor(g, 0, j))
  }

  /** The sum of the first k terms of the first-row expansion. */
  function RowSum(g: Grid, k: nat): real
    requires |g| >= 2 && IsSquare(g) && k <= |g|
  {
    if k == 0 then 0.0 else RowSum(g, k - 1) + Term(g, k - 1)
  }

  /** One step of the expansion loop adds the current term, and the sign
      it flips to is (-1)^(j+1). */
  lemma ExpandStep(g: Grid, j: nat, acc: real)
    requires |g| >= 2 && IsSquare(g) && j < |g|
    ensures Expand(g, j, Sign(j), acc) == Expand(g, j + 1, Sign(j + 1), acc + Term(g, j))
  {
  }

  /** From column j on, the loop's sign is (-1)^j and it adds exactly the
      remaining terms to its accumulator. */
  lemma {:induction false} ExpandAddsTerms(g: Grid, j: nat, acc: real)
    requires |g| >= 2 && IsSquare(g) && j <= |g|
    ensures Expand(g, j, Sign(j), acc) == acc + RowSum(g, |g|) - RowSum(g, j)
    decreases |g| - j
  {
    if j < |g| {
      ExpandStep(g, j, acc);
      ExpandAddsTerms(g, j + 1, acc + Term(g, j));
      assert RowSum(g, j + 1) == RowSum(g, j) + Term(g, j);
    }
  }

  /** The determinant is the sum over the first row of
      (-1)^j A[0][j] det(minor(A, 0, j)), with sign +1 at j = 0. */
  lemma DetIsRowExpansion(g: Grid)
    requires |g| >= 2 && IsSquare(g)
    ensures Det(g) == RowSum(g, |g|)
  {
    ExpandAddsTerms(g, 0, 0.0);
  }

  /** `s21_determinant`: INCORRECT_MATRIX for an invalid matrix or a NULL
      slot, checked before CALC_ERROR for a non-square matrix; otherwise the
      determinant. */
  function Determinant(a: Option<Matrix>, slot: bool): (r: Reply<real>)
    ensures r.status == IncorrectMatrix <==> IsCorrect(a) != Ok || !slot
    ensures r.status == CalcError <==> IsCorrect(a) == Ok && slot && a.value.rows != a.value.columns
    ensures r.status == Ok ==> r.value.Some? && r.value.value == Det(a.value.cells)
    ensures r.status == Ok && a.value.rows == 1 ==> r.value.value == a.value.cells[0][0]
    ensures r.status != Ok ==> r.value.None?
  {
    if IsCorrect(a) != Ok || !slot then Reply(IncorrectMatrix, None)
    else if a.value.columns != a.value.rows then Reply(CalcError, None)
    else if a.value.rows == 1 then Reply(Ok, Some(a.value.cells[0][0]))
    else Reply(Ok, Some(Det(a.value.cells)))
  }

  /** The cofactor (x, j): (-1)^(x+j) det(minor(A, x, j)). */
  function Cofactor(g: Grid, x: nat, j: nat): real
    requires |g| >= 2 && IsSquare(g) && x < |g| && j < |g|
  {
    Sign(x + j) * Det(Minor(g, x, j))
  }

  /** The j-th term of the expansion is A[0][j] times cofactor (0, j). */
  lemma TermIsEntryTimesCofactor(g: Grid, j: nat)
    requires |g| >= 2 && IsSquare(g) && j < |g|
    ensures Term(g, j) == g[0][j] * Cofactor(g, 0, j)
  {
  }

  /** The n x n grid of all cofactors. */
  function Cofactors(g: Grid): (cof: Grid)
    requires |g| >= 2 && IsSquare(g)
    ensures IsGrid(cof, |g|, |g|)
    ensures forall x, j :: 0 <= x < |g| && 0 <= j < |g| ==> cof[x][j] == Cofactor(g, x, j)
  {
    seq(|g|, x requires 0 <= x < |g| => seq(|g|, j requires 0 <= j < |g| => Cofactor(g, x, j)))
  }

  /** `s21_calc_complements`: INCORRECT_MATRIX before CALC_ERROR for a
      non-square matrix; a 1x1 matrix gets status 2 (CALC_ERROR) and no
      result; otherwise the cofactor matrix. */
  function CalcComplements(a: Option<Matrix>, slot: bool): (r: Reply<Matrix>)
    ensures r.status == IncorrectMatrix <==> IsCorrect(a) != Ok || !slot
    ensures r.status == CalcError <==> IsCorrect(a) == Ok && slot && (a.value.rows != a.value.columns || a.value.rows == 1)
    ensures r.status == Ok ==> r.value.Some? && Valid(r.value.value) && SameShape(r.value.value, a.value)
    ensures r.status == Ok ==> forall x, j :: 0 <= x < a.value.rows && 0 <= j < a.value.rows ==>
              r.value.value.cells[x][j] == Sign(x + j) * Det(Minor(a.value.cells, x, j))
    ensures r.status != Ok ==> r.value.None?
  {
    if IsCorrect(a) != Ok || !slot then Reply(IncorrectMatrix, None)
    else if a.value.columns != a.value.rows then Reply(CalcError, None)
    else if a.value.rows > 1 then
      var n := a.value.rows;
      Reply(Ok, Some(Matrix(n, n, Cofactors(a.value.cells))))
    else Reply(CalcError, None)
  }

  /** `s21_inverse_matrix`: INCORRECT_MATRIX for an invalid matrix or a NULL
      slot; CALC_ERROR for a non-square matrix or a determinant exactly 0;
      [1 / a] for a 1x1 matrix; otherwise the cofactor matrix, transposed
      and multiplied by 1 / det, each stage passing its failure on. */
  function InverseMatrix(a: Option<Matrix>, slot: bool): (r: Reply<Matrix>)
    ensures r.status == IncorrectMatrix <==> IsCorrect(a) != Ok || !slot
    ensures r.status == CalcError <==>
              IsCorrect(a) == Ok && slot && (a.value.rows != a.value.columns || Det(a.value.cells) == 0.0)
    ensures r.status == Ok ==> r.value.Some? && Valid(r.value.value) && SameShape(r.value.value, a.value)
    ensures r.status == Ok && a.value.rows == 1 ==> r.value.value.cells == [[1.0 / a.value.cells[0][0]]]
    ensures r.status == Ok && a.value.rows >= 2 ==> forall i, j :: 0 <= i < a.value.rows && 0 <= j < a.value.rows ==>
              r.value.value.cells[i][j] == Cofactor(a.value.cells, j, i) * (1.0 / Det(a.value.cells))
    ensures r.status != Ok ==> r.value.None?
  {
    if IsCorrect(a) != Ok || !slot then Reply(IncorrectMatrix, None)
    else if a.value.columns != a.value.rows then Reply(CalcError, None)
    else
      var det := Determinant(a, slot).value.value;
      if det == 0.0 then Reply(CalcError, None)
      else if a.value.rows == 1 then
        Reply(Ok, Some(Matrix(1, 1, [[1.0 / a.value.cells[0][0]]])))
      else
        var first := CalcComplements(a, true);
        if first.status != Ok then Reply(first.status, None)
        else
          var second := Transpose(first.value.value, true);
          if second.status != Ok then Reply(second.status, None)
          else MultNumber(second.value, 1.0 / det, slot)
  }
}
