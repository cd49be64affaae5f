/** The data model of the matrix library: the `matrix_t` record, the
    `code_result` status codes, validation, creation and tolerant equality.

    A `matrix_t` holds a row count, a column count and a pointer to a buffer of
    rows. Here the buffer is a grid of `real` values; a buffer that is NULL or
    that does not have the announced shape is a grid that does not match
    `rows` x `columns`. A NULL pointer to a matrix is `None`, and a NULL result
    pointer is the boolean `slot` being false.
 */
module Matrices {

  datatype Option<T> = None | Some(value: T)

  /** `code_result`: OK = 0, INCORRECT_MATRIX = 1, CALC_ERROR = 2. The bare
      `2` and `COMPUTATION_ERROR` used by some operations are this same code. */
  datatype Status = Ok | IncorrectMatrix | CalcError

  /** What an operation returns: its status and, when it built one, the
      value left in its result slot. */
  datatype Reply<T> = Reply(status: Status, value: Option<T>)

  type Grid = seq<seq<real>>

  datatype Matrix = Matrix(rows: int, columns: int, cells: Grid)

  /** `g` has exactly `rows` rows of exactly `cols` entries each. */
  predicate IsGrid(g: Grid, rows: int, cols: int)
  {
    |g| == rows && forall i :: 0 <= i < |g| ==> |g[i]| == cols
  }

  /** A matrix `is_correct_matrix` accepts: positive dimensions and an
      allocated buffer of that shape. */
  predicate Valid(m: Matrix)
  {
    m.rows >= 1 && m.columns >= 1 && IsGrid(m.cells, m.rows, m.columns)
  }

  predicate SameShape(a: Matrix, b: Matrix)
  {
    a.rows == b.rows && a.columns == b.columns
  }

  /** `is_correct_matrix`: OK for a non-null, valid matrix, otherwise
      INCORRECT_MATRIX; it never reports CALC_ERROR. */
  function IsCorrect(p: Option<Matrix>): (s: Status)
    ensures s != CalcError
    ensures s == Ok <==> p.Some? && Valid(p.value)
  {
    if p.None? then IncorrectMatrix
    else if p.value.columns < 1 || p.value.rows < 1 || !IsGrid(p.value.cells, p.value.rows, p.value.columns) then IncorrectMatrix
    else Ok
  }

  /** The zero-filled buffer `calloc` hands out. */
  function Zeros(rows: nat, cols: nat): (g: Grid)
    ensures IsGrid(g, rows, cols)
    ensures forall i, j :: 0 <= i < rows && 0 <= j < cols ==> g[i][j] == 0.0
  {
    seq(rows, i => seq(cols, j => 0.0))
  }

  /** `s21_create_matrix`: a zero-filled `rows` x `columns` matrix, or
      INCORRECT_MATRIX for a non-positive dimension or a NULL slot. */
  function Create(rows: int, columns: int, slot: bool): (r: Reply<Matrix>)
    ensures r.status != CalcError
    ensures r.status == Ok <==> rows >= 1 && columns >= 1 && slot
    ensures r.status == Ok ==> r.value.Some? && IsCorrect(Some(r.value.value)) == Ok
    ensures r.status == Ok ==> r.value.value.rows == rows && r.value.value.columns == columns
    ensures r.status == Ok ==> forall i, j :: 0 <= i < rows && 0 <= j < columns ==> r.value.value.cells[i][j] == 0.0
    ensures r.status != Ok ==> r.value.None?
  {
    if rows < 1 || columns < 1 || !slot then Reply(IncorrectMatrix, None)
    else Reply(Ok, Some(Matrix(rows, columns, Zeros(rows, columns))))
  }

  /** Absolute tolerance of `s21_eq_matrix`. */
  const Tolerance: real := 0.0000001

  function Abs(x: real): real
  {
    if x < 0.0 then -x else x
  }

  /** Two entries `s21_eq_matrix` treats as equal. */
  predicate Close(x: real, y: real)
  {
    Abs(x - y) < Tolerance
  }

  /** What `s21_eq_matrix` reports as SUCCESS: both operands valid, of the
      same shape, and every pair of entries closer than the tolerance. */
  predicate Matches(a: Option<Matrix>, b: Option<Matrix>)
  {
    && IsCorrect(a) == Ok && IsCorrect(b) == Ok
    && SameShape(a.value, b.value)
    && forall i, j :: 0 <= i < a.value.rows && 0 <= j < a.value.columns ==>
         Close(a.value.cells[i][j], b.value.cells[i][j])
  }

  /** `s21_eq_matrix`: validation first, then a row-major scan that stops at
      the first pair of entries at least the tolerance apart. `true` stands
      for SUCCESS and `false` for FAILURE. */
  method EqMatrix(a: Option<Matrix>, b: Option<Matrix>) returns (res: bool)
    ensures res <==> Matches(a, b)
  {
    if IsCorrect(a) != Ok || IsCorrect(b) != Ok {
      return false;
    }
    var A, B := a.value, b.value;
    res := true;
    if A.columns != B.columns || A.rows != B.rows {
      res := false;
    }
    var i := 0;
    while i < A.rows && res
      invariant 0 <= i <= A.rows
      invariant res ==> SameShape(A, B)
      invariant res ==> forall i', j :: 0 <= i' < i && 0 <= j < A.columns ==> Close(A.cells[i'][j], B.cells[i'][j])
      invariant !res ==> !Matches(a, b)
    {
      var j := 0;
      while j < A.columns && res
        invariant 0 <= j <= A.columns
        invariant res ==> SameShape(A, B)
        invariant res ==> forall i', j' :: 0 <= i' < i && 0 <= j' < A.columns ==> Close(A.cells[i'][j'], B.cells[i'][j'])
        invariant res ==> forall j' :: 0 <= j' < j ==> Close(A.cells[i][j'], B.cells[i][j'])
        invariant !res ==> !Matches(a, b)
      {
        if Abs(A.cells[i][j] - B.cells[i][j]) >= Tolerance {
          res := false;
        }
        j := j + 1;
      }
      i := i + 1;
    }
  }

  /** `s21_eq_matrix` is reflexive on valid matrices. */
  lemma MatchesReflexive(m: Matrix)
    requires Valid(m)
    ensures Matches(Some(m), Some(m))
  {
  }

  /** `s21_eq_matrix` is symmetric. */
  lemma MatchesSymmetric(a: Option<Matrix>, b: Option<Matrix>)
    ensures Matches(a, b) <==> Matches(b, a)
  {
  }
}
