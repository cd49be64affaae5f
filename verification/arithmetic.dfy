/** The array-algebra operations: sum, difference, scaling, product and
    transpose, each with the status dispatch of the library function it
    models. */
module Arithmetic {
  import opened Matrices

  /** Entrywise sum of two grids of the same shape. */
  function Add(a: Grid, b: Grid, rows: nat, cols: nat): (g: Grid)
    requires IsGrid(a, rows, cols) && IsGrid(b, rows, cols)
    ensures IsGrid(g, rows, cols)
    ensures forall i, j :: 0 <= i < rows && 0 <= j < cols ==> g[i][j] == a[i][j] + b[i][j]
  {
    seq(rows, i requires 0 <= i < rows => seq(cols, j requires 0 <= j < cols => a[i][j] + b[i][j]))
  }

  /** Entrywise difference of two grids of the same shape. */
  function Subtract(a: Grid, b: Grid, rows: nat, cols: nat): (g: Grid)
    requires IsGrid(a, rows, cols) && IsGrid(b, rows, cols)
    ensures IsGrid(g, rows, cols)
    ensures forall i, j :: 0 <= i < rows && 0 <= j < cols ==> g[i][j] == a[i][j] - b[i][j]
  {
    seq(rows, i requires 0 <= i < rows => seq(cols, j requires 0 <= j < cols => a[i][j] - b[i][j]))
  }

  /** Every entry multiplied by `k`. */
  function Scale(a: Grid, k: real, rows: nat, cols: nat): (g: Grid)
    requires IsGrid(a, rows, cols)
    ensures IsGrid(g, rows, cols)
    ensures forall i, j :: 0 <= i < rows && 0 <= j < cols ==> g[i][j] == a[i][j] * k
  {
    seq(rows, i requires 0 <= i < rows => seq(cols, j requires 0 <= j < cols => a[i][j] * k))
  }

  /** Rows and columns swapped: a `cols` x `rows` grid. */
  function Flip(a: Grid, rows: nat, cols: nat): (g: Grid)
    requires IsGrid(a, rows, cols)
    ensures IsGrid(g, cols, rows)
    ensures forall i, j :: 0 <= i < rows && 0 <= j < cols ==> g[j][i] == a[i][j]
  {
    seq(cols, j requires 0 <= j < cols => seq(rows, i requires 0 <= i < rows => a[i][j]))
  }

  /** The accumulator of `s21_mult_matrix` for entry (i, j) after `k` steps:
      starting from the zero `calloc` left, add a[i][t] * b[t][j] for
      t = 0, 1, ..., k - 1 in that order. */
  function Dot(a: Grid, b: Grid, i: nat, j: nat, k: nat): real
    requires i < |a| && k <= |a[i]| && k <= |b|
    requires forall t :: 0 <= t < k ==> j < |b[t]|
  {
    if k == 0 then 0.0 else Dot(a, b, i, j, k - 1) + a[i][k - 1] * b[k - 1][j]
  }

  /** The `rows` x `cols` product of an `rows` x `inner` and an `inner` x `cols` grid. */
  function Product(a: Grid, b: Grid, rows: nat, inner: nat, cols: nat): (g: Grid)
    requires IsGrid(a, rows, inner) && IsGrid(b, inner, cols)
    ensures IsGrid(g, rows, cols)
    ensures forall i, j :: 0 <= i < rows && 0 <= j < cols ==> g[i][j] == Dot(a, b, i, j, inner)
  {
    seq(rows, i requires 0 <= i < rows => seq(cols, j requires 0 <= j < cols => Dot(a, b, i, j, inner)))
  }

  /** `calc_errors`: INCORRECT_MATRIX for an invalid operand or a NULL slot,
      checked before CALC_ERROR for a shape mismatch. */
  function CalcErrors(a: Option<Matrix>, b: Option<Matrix>, slot: bool): (s: Status)
    ensures s == IncorrectMatrix <==> IsCorrect(a) != Ok || IsCorrect(b) != Ok || !slot
    ensures s == Ok <==> IsCorrect(a) == Ok && IsCorrect(b) == Ok && slot && SameShape(a.value, b.value)
  {
    if IsCorrect(a) != Ok || IsCorrect(b) != Ok || !slot then IncorrectMatrix
    else if a.value.rows != b.value.rows || a.value.columns != b.value.columns then CalcError
    else Ok
  }

  /** What `s21_sum_matrix` needs so that it does not read through an
      invalid buffer: it reads both buffers, unvalidated, exactly when the
      shapes agree and the result matrix can be created. */
  predicate SumReadsAreSafe(a: Matrix, b: Matrix, slot: bool)
  {
    SameShape(a, b) && a.rows >= 1 && a.columns >= 1 && slot ==> Valid(a) && Valid(b)
  }

  /** `s21_sum_matrix`: never validates its operands and reports CALC_ERROR
      both for a shape mismatch and for a failed creation of the result. */
  function SumMatrix(a: Matrix, b: Matrix, slot: bool): (r: Reply<Matrix>)
    requires SumReadsAreSafe(a, b, slot)
    ensures r.status != IncorrectMatrix
    ensures r.status == Ok <==> SameShape(a, b) && a.rows >= 1 && a.columns >= 1 && slot
    ensures r.status == Ok ==> r.value.Some? && Valid(r.value.value) && SameShape(r.value.value, a)
    ensures r.status == Ok ==> forall i, j :: 0 <= i < a.rows && 0 <= j < a.columns ==>
              r.value.value.cells[i][j] == a.cells[i][j] + b.cells[i][j]
    ensures r.status != Ok ==> r.value.None?
  {
    if a.rows != b.rows || a.columns != b.columns then Reply(CalcError, None)
    else
      var created := Create(a.rows, a.columns, slot);
      if created.status != Ok then Reply(CalcError, None)
      else Reply(Ok, Some(Matrix(a.rows, a.columns, Add(a.cells, b.cells, a.rows, a.columns))))
  }

  /** `s21_sub_matrix`: the ordered check of `calc_errors`, then the
      entrywise difference. */
  function SubMatrix(a: Option<Matrix>, b: Option<Matrix>, slot: bool): (r: Reply<Matrix>)
    ensures r.status == IncorrectMatrix <==> IsCorrect(a) != Ok || IsCorrect(b) != Ok || !slot
    ensures r.status == CalcError <==> IsCorrect(a) == Ok && IsCorrect(b) == Ok && slot && !SameShape(a.value, b.value)
    ensures r.status == Ok ==> r.value.Some? && Valid(r.value.value) && SameShape(r.value.value, a.value)
    ensures r.status == Ok ==> forall i, j :: 0 <= i < a.value.rows && 0 <= j < a.value.columns ==>
              r.value.value.cells[i][j] == a.value.cells[i][j] - b.value.cells[i][j]
    ensures r.status != Ok ==> r.value.None?
  {
    var check := CalcErrors(a, b, slot);
    if check != Ok then Reply(check, None)
    else
      var A, B := a.value, b.value;
      Reply(Ok, Some(Matrix(A.rows, A.columns, Subtract(A.cells, B.cells, A.rows, A.columns))))
  }

  /** `s21_mult_number`: INCORRECT_MATRIX for an invalid operand or a NULL
      slot, otherwise the same-shape matrix k * A. */
  function MultNumber(a: Option<Matrix>, k: real, slot: bool): (r: Reply<Matrix>)
    ensures r.status != CalcError
    ensures r.status == Ok <==> IsCorrect(a) == Ok && slot
    ensures r.status == Ok ==> r.value.Some? && Valid(r.value.value) && SameShape(r.value.value, a.value)
    ensures r.status == Ok ==> forall i, j :: 0 <= i < a.value.rows && 0 <= j < a.value.columns ==>
              r.value.value.cells[i][j] == a.value.cells[i][j] * k
    ensures r.status != Ok ==> r.value.None?
  {
    if IsCorrect(a) != Ok || !slot then Reply(IncorrectMatrix, None)
    else
      var A := a.value;
      Reply(Ok, Some(Matrix(A.rows, A.columns, Scale(A.cells, k, A.rows, A.columns))))
  }

  /** `s21_mult_matrix`: INCORRECT_MATRIX for an invalid operand or a NULL
      slot, even when the shapes also clash; CALC_ERROR when the columns of
      A are not the rows of B; otherwise the A.rows x B.columns product. */
  function MultMatrix(a: Option<Matrix>, b: Option<Matrix>, slot: bool): (r: Reply<Matrix>)
    ensures r.status == IncorrectMatrix <==> IsCorrect(a) != Ok || IsCorrect(b) != Ok || !slot
    ensures r.status == CalcError <==> IsCorrect(a) == Ok && IsCorrect(b) == Ok && slot && a.value.columns != b.value.rows
    ensures r.status == Ok ==> r.value.Some? && Valid(r.value.value)
    ensures r.status == Ok ==> r.value.value.rows == a.value.rows && r.value.value.columns == b.value.columns
    ensures r.status == Ok ==> forall i, j :: 0 <= i < a.value.rows && 0 <= j < b.value.columns ==>
              r.value.value.cells[i][j] == Dot(a.value.cells, b.value.cells, i, j, a.value.columns)
    ensures r.status != Ok ==> r.value.None?
  {
    if IsCorrect(a) != Ok || IsCorrect(b) != Ok || !slot then Reply(IncorrectMatrix, None)
    else if a.value.columns != b.value.rows then Reply(CalcError, None)
    else
      var A, B := a.value, b.value;
      Reply(Ok, Some(Matrix(A.rows, B.columns, Product(A.cells, B.cells, A.rows, A.columns, B.columns))))
  }

  /** What `s21_transpose` needs so that it does not dereference an invalid
      buffer or a NULL result: it copies from A whenever the result could be
      created, and for a 1x1 input it reads the result slot unconditionally. */
  predicate TransposeIsSafe(a: Matrix, slot: bool)
  {
    && (a.rows >= 1 && a.columns >= 1 && slot ==> Valid(a))
    && (a.rows == 1 && a.columns == 1 ==> slot)
  }

  /** `s21_transpose`: the validity verdict is overwritten by the status of
      creating the columns x rows result, which is then filled with
      result[j][i] = A[i][j]. A 1x1 result is replaced by its reciprocal; a
      zero 1x1 entry keeps the zero and reports 2 (CALC_ERROR). */
  function Transpose(a: Matrix, slot: bool): (r: Reply<Matrix>)
    requires TransposeIsSafe(a, slot)
    ensures r.status == IncorrectMatrix <==> a.rows < 1 || a.columns < 1 || !slot
    ensures r.status == CalcError <==> Valid(a) && a.rows == 1 && a.columns == 1 && a.cells[0][0] == 0.0
    ensures r.status == Ok ==> r.value.Some? && Valid(r.value.value)
    ensures r.status == Ok ==> r.value.value.rows == a.columns && r.value.value.columns == a.rows
    ensures r.status == Ok && (a.rows != 1 || a.columns != 1) ==>
              forall i, j :: 0 <= i < a.rows && 0 <= j < a.columns ==> r.value.value.cells[j][i] == a.cells[i][j]
    ensures r.status == Ok && a.rows == 1 && a.columns == 1 ==> r.value.value.cells[0][0] == 1.0 / a.cells[0][0]
    ensures r.status == CalcError ==> r.value == Some(Matrix(1, 1, [[0.0]]))
    ensures r.status == IncorrectMatrix ==> r.value.None?
  {
    var created := Create(a.columns, a.rows, slot);
    if created.status != Ok then Reply(IncorrectMatrix, None)
    else
      var t := Flip(a.cells, a.rows, a.columns);
      if a.columns == a.rows && a.rows == 1 then
        if t[0][0] != 0.0 then Reply(Ok, Some(Matrix(1, 1, [[1.0 / t[0][0]]])))
        else
          assert t[0] == [0.0];
          assert t == [[0.0]];
          Reply(CalcError, Some(Matrix(1, 1, t)))
      else Reply(Ok, Some(Matrix(a.columns, a.rows, t)))
  }

  // ----- Properties relating the operations to each other -----

  /** Subtracting B from A + B gives back A. */
  lemma SubUndoesSum(a: Matrix, b: Matrix)
    requires Valid(a) && Valid(b) && SameShape(a, b)
    ensures SumMatrix(a, b, true).status == Ok
    ensures SubMatrix(SumMatrix(a, b, true).value, Some(b), true) == Reply(Ok, Some(a))
  {
    var s := SumMatrix(a, b, true).value.value;
    var d := SubMatrix(Some(s), Some(b), true).value.value;
    assert d.cells == a.cells by {
      forall i | 0 <= i < a.rows
        ensures d.cells[i] == a.cells[i]
      {
        assert forall j :: 0 <= j < a.columns ==> d.cells[i][j] == a.cells[i][j];
      }
    }
  }

  /** The sum does not depend on the order of its operands. */
  lemma SumCommutes(a: Matrix, b: Matrix, slot: bool)
    requires SumReadsAreSafe(a, b, slot)
    ensures SumMatrix(a, b, slot) == SumMatrix(b, a, slot)
  {
    var r, s := SumMatrix(a, b, slot), SumMatrix(b, a, slot);
    if r.status == Ok {
      var g, h := r.value.value.cells, s.value.value.cells;
      assert g == h by {
        forall i | 0 <= i < a.rows
          ensures g[i] == h[i]
        {
          assert forall j :: 0 <= j < a.columns ==> g[i][j] == h[i][j];
        }
      }
    }
  }

  /** Scaling by k and then by 1/k gives back the matrix, for k != 0. */
  lemma ScaleRoundTrip(a: Matrix, k: real)
    requires Valid(a) && k != 0.0
    ensures MultNumber(Some(a), k, true).status == Ok
    ensures MultNumber(MultNumber(Some(a), k, true).value, 1.0 / k, true) == Reply(Ok, Some(a))
  {
    var s := MultNumber(Some(a), k, true).value.value;
    var d := MultNumber(Some(s), 1.0 / k, true).value.value;
    assert d.cells == a.cells by {
      forall i | 0 <= i < a.rows
        ensures d.cells[i] == a.cells[i]
      {
        forall j | 0 <= j < a.columns
          ensures d.cells[i][j] == a.cells[i][j]
        {
          calc {
            d.cells[i][j];
            == (a.cells[i][j] * k) * (1.0 / k);
            == a.cells[i][j] * (k * (1.0 / k));
            == a.cells[i][j];
          }
        }
      }
    }
  }

  /** Transposing twice gives back every valid matrix except a 1x1 one. */
  lemma TransposeTwice(a: Matrix)
    requires Valid(a) && (a.rows != 1 || a.columns != 1)
    ensures Transpose(a, true).status == Ok
    ensures Transpose(Transpose(a, true).value.value, true) == Reply(Ok, Some(a))
  {
    var t := Transpose(a, true).value.value;
    var u := Transpose(t, true).value.value;
    assert u.cells == a.cells by {
      forall i | 0 <= i < a.rows
        ensures u.cells[i] == a.cells[i]
      {
        assert forall j :: 0 <= j < a.columns ==> u.cells[i][j] == t.cells[j][i] == a.cells[i][j];
      }
    }
  }

  /** A 1x1 matrix transposes to its reciprocal, so transposing twice gives
      it back when its entry is nonzero; a zero entry reports 2. */
  lemma TransposeTwiceScalar(x: real)
    ensures x == 0.0 ==> Transpose(Matrix(1, 1, [[x]]), true).status == CalcError
    ensures x != 0.0 ==> Transpose(Transpose(Matrix(1, 1, [[x]]), true).value.value, true) == Reply(Ok, Some(Matrix(1, 1, [[x]])))
  {
    if x != 0.0 {
      var t := Transpose(Matrix(1, 1, [[x]]), true).value.value;
      assert t.cells == [[1.0 / x]];
      assert 1.0 / (1.0 / x) == x;
    }
  }

  /** The n x n identity grid; not part of the library, a reference point
      for the product. */
  function Identity(n: nat): (g: Grid)
    ensures IsGrid(g, n, n)
    ensures forall i, j :: 0 <= i < n && 0 <= j < n ==> g[i][j] == if i == j then 1.0 else 0.0
  {
    seq(n, i => seq(n, j => if i == j then 1.0 else 0.0))
  }

  /** The first k steps of the accumulator against the identity pick out
      a[i][j] once k has passed j. */
  lemma {:induction false} DotIdentity(a: Grid, i: nat, j: nat, k: nat, n: nat)
    requires i < |a| && |a[i]| == n && j < n && k <= n
    ensures Dot(a, Identity(n), i, j, k) == if j < k then a[i][j] else 0.0
  {
    if k > 0 {
      DotIdentity(a, i, j, k - 1, n);
    }
  }

  /** The first k steps of the accumulator with the identity on the left
      pick out b[i][j] once k has passed i. */
  lemma {:induction false} IdentityDot(b: Grid, i: nat, j: nat, k: nat, n: nat)
    requires |b| == n && i < n && k <= n && forall t :: 0 <= t < n ==> j < |b[t]|
    ensures Dot(Identity(n), b, i, j, k) == if i < k then b[i][j] else 0.0
  {
    if k > 0 {
      IdentityDot(b, i, j, k - 1, n);
    }
  }

  /** Multiplying on the left by the identity gives back the matrix. */
  lemma IdentityMult(a: Matrix)
    requires Valid(a)
    ensures MultMatrix(Some(Matrix(a.rows, a.rows, Identity(a.rows))), Some(a), true) == Reply(Ok, Some(a))
  {
    var e := Matrix(a.rows, a.rows, Identity(a.rows));
    var p := MultMatrix(Some(e), Some(a), true).value.value;
    assert p.cells == a.cells by {
      forall i | 0 <= i < a.rows
        ensures p.cells[i] == a.cells[i]
      {
        forall j | 0 <= j < a.columns
          ensures p.cells[i][j] == a.cells[i][j]
        {
          IdentityDot(a.cells, i, j, a.rows, a.rows);
        }
      }
    }
  }

  /** Multiplying on the right by the identity gives back the matrix. */
  lemma MultIdentity(a: Matrix)
    requires Valid(a)
    ensures MultMatrix(Some(a), Some(Matrix(a.columns, a.columns, Identity(a.columns))), true) == Reply(Ok, Some(a))
  {
    var e := Matrix(a.columns, a.columns, Identity(a.columns));
    var p := MultMatrix(Some(a), Some(e), true).value.value;
    assert p.cells == a.cells by {
      forall i | 0 <= i < a.rows
        ensures p.cells[i] == a.cells[i]
      {
        forall j | 0 <= j < a.columns
          ensures p.cells[i][j] == a.cells[i][j]
        {
          DotIdentity(a.cells, i, j, a.columns, a.columns);
        }
      }
    }
  }
}
