/** Properties of the Laplace core: closed forms of the determinant for
    small sizes, its value on triangular matrices and on matrices with a
    zero row, the agreement of the determinant with the first row of the
    cofactor matrix, and what the inverse computes for sizes 1 and 2. */
module LaplaceFacts {
  import opened Matrices
  import opened Arithmetic
  import opened Laplace

  /** A 2x2 determinant is a*d - b*c. */
  lemma Det2(g: Grid)
    requires |g| == 2 && IsSquare(g)
    ensures Det(g) == g[0][0] * g[1][1] - g[0][1] * g[1][0]
  {
    DetIsRowExpansion(g);
    var m0, m1 := Minor(g, 0, 0), Minor(g, 0, 1);
    assert Det(m0) == g[1][1] by { assert m0[0][0] == g[Skip(0, 0)][Skip(0, 0)]; }
    assert Det(m1) == g[1][0] by { assert m1[0][0] == g[Skip(0, 0)][Skip(0, 1)]; }
    assert RowSum(g, 1) == Term(g, 0);
    assert RowSum(g, 2) == Term(g, 0) + Term(g, 1);
  }

  /** The 3x3 determinant of rows r0, r1, r2 and columns c0, c1, c2 of `g`. */
  function Det3Of(g: Grid, r0: nat, r1: nat, r2: nat, c0: nat, c1: nat, c2: nat): real
    requires IsSquare(g) && r0 < |g| && r1 < |g| && r2 < |g| && c0 < |g| && c1 < |g| && c2 < |g|
  {
      g[r0][c0] * (g[r1][c1] * g[r2][c2] - g[r1][c2] * g[r2][c1])
    - g[r0][c1] * (g[r1][c0] * g[r2][c2] - g[r1][c2] * g[r2][c0])
    + g[r0][c2] * (g[r1][c0] * g[r2][c1] - g[r1][c1] * g[r2][c0])
  }

  /** A 3x3 determinant is the expansion
      a(ei - fh) - b(di - fg) + c(dh - eg). */
  lemma Det3(g: Grid)
    requires |g| == 3 && IsSquare(g)
    ensures Det(g) == Det3Of(g, 0, 1, 2, 0, 1, 2)
  {
    assert Det(g) == Term(g, 0) + Term(g, 1) + Term(g, 2) by {
      DetIsRowExpansion(g);
      assert RowSum(g, 1) == Term(g, 0);
      assert RowSum(g, 2) == Term(g, 0) + Term(g, 1);
    }
    var m0, m1, m2 := Minor(g, 0, 0), Minor(g, 0, 1), Minor(g, 0, 2);
    assert Term(g, 0) == g[0][0] * (g[1][1] * g[2][2] - g[1][2] * g[2][1]) by {
      Det2(m0);
      assert Skip(0, 0) == 1 && Skip(1, 0) == 2;
    }
    assert Term(g, 1) == -(g[0][1] * (g[1][0] * g[2][2] - g[1][2] * g[2][0])) by {
      Det2(m1);
      assert Skip(0, 0) == 1 && Skip(1, 0) == 2 && Skip(0, 1) == 0 && Skip(1, 1) == 2;
    }
    assert Term(g, 2) == g[0][2] * (g[1][0] * g[2][1] - g[1][1] * g[2][0]) by {
      Det2(m2);
      assert Skip(0, 0) == 1 && Skip(1, 0) == 2 && Skip(0, 2) == 0 && Skip(1, 2) == 1;
    }
  }

  // ----- Triangular matrices -----

  /** Every entry above the diagonal is zero. */
  predicate LowerTriangular(g: Grid)
    requires IsSquare(g)
  {
    forall i, j :: 0 <= i < j < |g| ==> g[i][j] == 0.0
  }

  /** The product of the diagonal entries from index lo on. */
  function DiagonalFrom(g: Grid, lo: nat): real
    requires IsSquare(g) && lo <= |g|
    decreases |g| - lo
  {
    if lo == |g| then 1.0 else g[lo][lo] * DiagonalFrom(g, lo + 1)
  }

  /** With a first row that is zero past column 0, the expansion keeps only
      its first term. */
  lemma {:induction false} RowSumFirstTermOnly(g: Grid, k: nat)
    requires |g| >= 2 && IsSquare(g) && 1 <= k <= |g|
    requires forall j :: 1 <= j < |g| ==> g[0][j] == 0.0
    ensures RowSum(g, k) == Term(g, 0)
  {
    if k > 1 {
      RowSumFirstTermOnly(g, k - 1);
      assert Term(g, k - 1) == 0.0;
    }
  }

  /** The diagonal of minor (0, 0) is the diagonal of the matrix shifted by one. */
  lemma {:induction false} DiagonalOfMinor(g: Grid, lo: nat)
    requires |g| >= 1 && IsSquare(g) && lo <= |g| - 1
    ensures DiagonalFrom(Minor(g, 0, 0), lo) == DiagonalFrom(g, lo + 1)
    decreases |g| - lo
  {
    var m := Minor(g, 0, 0);
    if lo < |g| - 1 {
      DiagonalOfMinor(g, lo + 1);
      assert m[lo][lo] == g[Skip(lo, 0)][Skip(lo, 0)];
    }
  }

  /** The determinant of a lower-triangular matrix is the product of its
      diagonal. */
  lemma {:induction false} DetLowerTriangular(g: Grid)
    requires |g| >= 1 && IsSquare(g) && LowerTriangular(g)
    ensures Det(g) == DiagonalFrom(g, 0)
    decreases |g|
  {
    if |g| >= 2 {
      var m := Minor(g, 0, 0);
      assert LowerTriangular(m) by {
        forall i, j | 0 <= i < j < |m|
          ensures m[i][j] == 0.0
        {
          assert m[i][j] == g[i + 1][j + 1];
        }
      }
      DetLowerTriangular(m);
      DiagonalOfMinor(g, 0);
      DetFirstEntryOnly(g);
    }
  }

  /** With a first row that is zero past column 0, the determinant is
      A[0][0] times the determinant of minor (0, 0). */
  lemma DetFirstEntryOnly(g: Grid)
    requires |g| >= 2 && IsSquare(g)
    requires forall j :: 1 <= j < |g| ==> g[0][j] == 0.0
    ensures Det(g) == g[0][0] * Det(Minor(g, 0, 0))
  {
    DetIsRowExpansion(g);
    RowSumFirstTermOnly(g, |g|);
    FirstTerm(g);
  }

  /** The first term of the expansion, whose sign is +1, is A[0][0] det(minor(A, 0, 0)). */
  lemma FirstTerm(g: Grid)
    requires |g| >= 2 && IsSquare(g)
    ensures Term(g, 0) == g[0][0] * Det(Minor(g, 0, 0))
  {
  }

  /** The identity has determinant 1. */
  lemma DetIdentity(n: nat)
    requires n >= 1
    ensures Det(Identity(n)) == 1.0
  {
    var e := Identity(n);
    DetLowerTriangular(e);
    DiagonalIsOne(e, 0);
  }

  /** A diagonal of ones has product 1 from every index on. */
  lemma {:induction false} DiagonalIsOne(e: Grid, lo: nat)
    requires IsSquare(e) && lo <= |e|
    requires forall i :: 0 <= i < |e| ==> e[i][i] == 1.0
    ensures DiagonalFrom(e, lo) == 1.0
    decreases |e| - lo
  {
    if lo < |e| {
      DiagonalIsOne(e, lo + 1);
    }
  }

  // ----- Zero rows -----

  /** Row `r` of `g` is all zero. */
  predicate ZeroRow(g: Grid, r: nat)
    requires IsSquare(g) && r < |g|
  {
    forall j :: 0 <= j < |g| ==> g[r][j] == 0.0
  }

  /** When every term of the expansion vanishes, so does the sum. */
  lemma {:induction false} RowSumOfZeroTerms(g: Grid, k: nat)
    requires |g| >= 2 && IsSquare(g) && k <= |g|
    requires forall j :: 0 <= j < |g| ==> Term(g, j) == 0.0
    ensures RowSum(g, k) == 0.0
  {
    if k > 0 {
      RowSumOfZeroTerms(g, k - 1);
    }
  }

  /** A matrix with a zero row has determinant 0. */
  lemma {:induction false} DetZeroRow(g: Grid, r: nat)
    requires |g| >= 1 && IsSquare(g) && r < |g| && ZeroRow(g, r)
    ensures Det(g) == 0.0
    decreases |g|
  {
    if |g| >= 2 {
      forall j | 0 <= j < |g|
        ensures Term(g, j) == 0.0
      {
        if r > 0 {
          var m := Minor(g, 0, j);
          assert ZeroRow(m, r - 1) by {
            assert Skip(r - 1, 0) == r;
            assert forall y :: 0 <= y < |m| ==> m[r - 1][y] == g[r][Skip(y, j)];
          }
          DetZeroRow(m, r - 1);
        }
      }
      DetIsRowExpansion(g);
      RowSumOfZeroTerms(g, |g|);
    }
  }

  /** `s21_inverse_matrix` refuses a square matrix with a zero row with
      CALC_ERROR. */
  lemma InverseOfZeroRow(a: Matrix, r: nat)
    requires Valid(a) && a.rows == a.columns && r < a.rows && ZeroRow(a.cells, r)
    ensures InverseMatrix(Some(a), true) == Reply(CalcError, None)
  {
    DetZeroRow(a.cells, r);
  }

  // ----- Cofactors and the determinant -----

  /** The sum of the first k products A[0][j] * cofactor(0, j). */
  function FirstRowProducts(g: Grid, cof: Grid, k: nat): real
    requires IsSquare(g) && IsGrid(cof, |g|, |g|) && 1 <= |g| && k <= |g|
  {
    if k == 0 then 0.0 else FirstRowProducts(g, cof, k - 1) + g[0][k - 1] * cof[0][k - 1]
  }

  /** Summing A[0][j] times cofactor (0, j) over the first k columns gives
      the first k terms of the expansion that defines the determinant. */
  lemma {:induction false} FirstRowProductsAreTerms(g: Grid, k: nat)
    requires |g| >= 2 && IsSquare(g) && k <= |g|
    ensures FirstRowProducts(g, Cofactors(g), k) == RowSum(g, k)
  {
    if k > 0 {
      FirstRowProductsAreTerms(g, k - 1);
      TermIsEntryTimesCofactor(g, k - 1);
      assert Cofactors(g)[0][k - 1] == Cofactor(g, 0, k - 1);
    }
  }

  /** The determinant equals the first row of A dotted with the first row
      of the cofactor matrix `s21_calc_complements` builds. */
  lemma DetFromCofactors(a: Matrix)
    requires Valid(a) && a.rows == a.columns && a.rows >= 2
    ensures CalcComplements(Some(a), true).status == Ok
    ensures Determinant(Some(a), true).value.value
              == FirstRowProducts(a.cells, CalcComplements(Some(a), true).value.value.cells, a.rows)
  {
    var cof := CalcComplements(Some(a), true).value.value;
    assert cof.cells == Cofactors(a.cells) by {
      forall x | 0 <= x < a.rows
        ensures cof.cells[x] == Cofactors(a.cells)[x]
      {
      }
    }
    FirstRowProductsAreTerms(a.cells, a.rows);
    DetIsRowExpansion(a.cells);
  }

  // ----- The inverse for sizes 1 and 2 -----

  /** For a nonzero 1x1 matrix the inverse is the reciprocal, and inverting
      twice gives the matrix back; a zero 1x1 matrix reports CALC_ERROR. */
  lemma InverseScalar(x: real)
    ensures x == 0.0 ==> InverseMatrix(Some(Matrix(1, 1, [[x]])), true) == Reply(CalcError, None)
    ensures x != 0.0 ==> InverseMatrix(Some(Matrix(1, 1, [[x]])), true) == Reply(Ok, Some(Matrix(1, 1, [[1.0 / x]])))
    ensures x != 0.0 ==> InverseMatrix(InverseMatrix(Some(Matrix(1, 1, [[x]])), true).value, true)
                           == Reply(Ok, Some(Matrix(1, 1, [[x]])))
  {
    if x != 0.0 {
      assert Det([[1.0 / x]]) == 1.0 / x;
      assert 1.0 / (1.0 / x) == x;
    }
  }

  /** For a nonzero 1x1 matrix, the inverse `s21_inverse_matrix` returns
      times A, and A times it, are the identity, computed with `s21_mult_matrix`. */
  lemma InverseScalarIsInverse(x: real)
    requires x != 0.0
    ensures InverseMatrix(Some(Matrix(1, 1, [[x]])), true).status == Ok
    ensures MultMatrix(Some(Matrix(1, 1, [[x]])), InverseMatrix(Some(Matrix(1, 1, [[x]])), true).value, true)
              == Reply(Ok, Some(Matrix(1, 1, Identity(1))))
    ensures MultMatrix(InverseMatrix(Some(Matrix(1, 1, [[x]])), true).value, Some(Matrix(1, 1, [[x]])), true)
              == Reply(Ok, Some(Matrix(1, 1, Identity(1))))
  {
    InverseScalar(x);
    var a, inv := Some(Matrix(1, 1, [[x]])), Some(Matrix(1, 1, [[1.0 / x]]));
    var right, left := MultMatrix(a, inv, true), MultMatrix(inv, a, true);
    assert Dot([[x]], [[1.0 / x]], 0, 0, 1) == 0.0 + x * (1.0 / x) == 1.0;
    assert Dot([[1.0 / x]], [[x]], 0, 0, 1) == 0.0 + (1.0 / x) * x == 1.0;
    assert right.status == Ok && left.status == Ok;
    assert right.value.value.cells[0] == Identity(1)[0];
    assert left.value.value.cells[0] == Identity(1)[0];
    assert right.value.value.cells == Identity(1) && left.value.value.cells == Identity(1);
    assert right.value.value == Matrix(1, 1, Identity(1)) == left.value.value;
  }

  /** For a 2x2 matrix with determinant D = ad - bc != 0 the inverse is
      (1/D) [[d, -b], [-c, a]]. */
  lemma Inverse2(a: Matrix)
    requires Valid(a) && a.rows == 2 && a.columns == 2
    requires a.cells[0][0] * a.cells[1][1] - a.cells[0][1] * a.cells[1][0] != 0.0
    ensures InverseMatrix(Some(a), true).status == Ok
    ensures var g, inv := a.cells, InverseMatrix(Some(a), true).value.value.cells;
            var k := 1.0 / (g[0][0] * g[1][1] - g[0][1] * g[1][0]);
            && inv[0][0] == g[1][1] * k && inv[0][1] == -g[0][1] * k
            && inv[1][0] == -g[1][0] * k && inv[1][1] == g[0][0] * k
  {
    var g := a.cells;
    Det2(g);
    CofactorsOf2(g);
  }

  /** The four cofactors of a 2x2 matrix. */
  lemma CofactorsOf2(g: Grid)
    requires |g| == 2 && IsSquare(g)
    ensures Cofactor(g, 0, 0) == g[1][1] && Cofactor(g, 0, 1) == -g[1][0]
    ensures Cofactor(g, 1, 0) == -g[0][1] && Cofactor(g, 1, 1) == g[0][0]
  {
  }

  /** Entry (i, j) of a product with inner dimension 2. */
  lemma Dot2(a: Grid, b: Grid, i: nat, j: nat)
    requires i < |a| && |a[i]| == 2 && |b| == 2 && j < |b[0]| && j < |b[1]|
    ensures Dot(a, b, i, j, 2) == a[i][0] * b[0][j] + a[i][1] * b[1][j]
  {
    assert Dot(a, b, i, j, 1) == a[i][0] * b[0][j];
  }

  /** The four entries of [[a, b], [c, d]] times (1/D) [[d, -b], [-c, a]]. */
  lemma AdjugateProduct(a: real, b: real, c: real, d: real, k: real)
    requires (a * d - b * c) * k == 1.0
    ensures a * (d * k) + b * (-c * k) == 1.0
    ensures a * (-b * k) + b * (a * k) == 0.0
    ensures c * (d * k) + d * (-c * k) == 0.0
    ensures c * (-b * k) + d * (a * k) == 1.0
  {
  }

  /** A 2x2 grid times its adjugate scaled by 1/D is the identity. */
  lemma AdjugateProductGrid(g: Grid, h: Grid, k: real)
    requires IsGrid(g, 2, 2) && IsGrid(h, 2, 2)
    requires (g[0][0] * g[1][1] - g[0][1] * g[1][0]) * k == 1.0
    requires h[0][0] == g[1][1] * k && h[0][1] == -g[0][1] * k
    requires h[1][0] == -g[1][0] * k && h[1][1] == g[0][0] * k
    ensures Product(g, h, 2, 2, 2) == Identity(2)
  {
    var a, b, c, d := g[0][0], g[0][1], g[1][0], g[1][1];
    AdjugateProduct(a, b, c, d, k);
    var p := Product(g, h, 2, 2, 2);
    assert p[0][0] == 1.0 by {
      Dot2(g, h, 0, 0);
      assert p[0][0] == a * (d * k) + b * (-c * k);
    }
    assert p[0][1] == 0.0 by {
      Dot2(g, h, 0, 1);
      assert p[0][1] == a * (-b * k) + b * (a * k);
    }
    assert p[1][0] == 0.0 by {
      Dot2(g, h, 1, 0);
      assert p[1][0] == c * (d * k) + d * (-c * k);
    }
    assert p[1][1] == 1.0 by {
      Dot2(g, h, 1, 1);
      assert p[1][1] == c * (-b * k) + d * (a * k);
    }
    IsIdentity2(p);
  }

  /** The four entries of (1/D) [[d, -b], [-c, a]] times [[a, b], [c, d]]. */
  lemma AdjugateProductLeft(a: real, b: real, c: real, d: real, k: real)
    requires (a * d - b * c) * k == 1.0
    ensures (d * k) * a + (-b * k) * c == 1.0
    ensures (d * k) * b + (-b * k) * d == 0.0
    ensures (-c * k) * a + (a * k) * c == 0.0
    ensures (-c * k) * b + (a * k) * d == 1.0
  {
  }

  /** The adjugate scaled by 1/D times the 2x2 grid is the identity. */
  lemma AdjugateProductGridLeft(g: Grid, h: Grid, k: real)
    requires IsGrid(g, 2, 2) && IsGrid(h, 2, 2)
    requires (g[0][0] * g[1][1] - g[0][1] * g[1][0]) * k == 1.0
    requires h[0][0] == g[1][1] * k && h[0][1] == -g[0][1] * k
    requires h[1][0] == -g[1][0] * k && h[1][1] == g[0][0] * k
    ensures Product(h, g, 2, 2, 2) == Identity(2)
  {
    var a, b, c, d := g[0][0], g[0][1], g[1][0], g[1][1];
    AdjugateProductLeft(a, b, c, d, k);
    var p := Product(h, g, 2, 2, 2);
    assert p[0][0] == 1.0 by {
      Dot2(h, g, 0, 0);
      assert p[0][0] == (d * k) * a + (-b * k) * c;
    }
    assert p[0][1] == 0.0 by {
      Dot2(h, g, 0, 1);
      assert p[0][1] == (d * k) * b + (-b * k) * d;
    }
    assert p[1][0] == 0.0 by {
      Dot2(h, g, 1, 0);
      assert p[1][0] == (-c * k) * a + (a * k) * c;
    }
    assert p[1][1] == 1.0 by {
      Dot2(h, g, 1, 1);
      assert p[1][1] == (-c * k) * b + (a * k) * d;
    }
    IsIdentity2(p);
  }

  /** A 2x2 grid with entries 1, 0, 0, 1 is the identity. */
  lemma IsIdentity2(p: Grid)
    requires IsGrid(p, 2, 2) && p[0][0] == 1.0 && p[0][1] == 0.0 && p[1][0] == 0.0 && p[1][1] == 1.0
    ensures p == Identity(2)
  {
    assert p[0] == [1.0, 0.0];
    assert p[1] == [0.0, 1.0];
    assert p == [[1.0, 0.0], [0.0, 1.0]];
    var e := Identity(2);
    assert e[0][0] == 1.0 && e[0][1] == 0.0 && e[1][0] == 0.0 && e[1][1] == 1.0;
    assert e[0] == [1.0, 0.0];
    assert e[1] == [0.0, 1.0];
  }

  /** For an invertible 2x2 matrix, A times the inverse `s21_inverse_matrix`
      returns is the identity, computed with `s21_mult_matrix`. */
  lemma Inverse2IsRightInverse(a: Matrix)
    requires Valid(a) && a.rows == 2 && a.columns == 2
    requires a.cells[0][0] * a.cells[1][1] - a.cells[0][1] * a.cells[1][0] != 0.0
    ensures InverseMatrix(Some(a), true).status == Ok
    ensures MultMatrix(Some(a), InverseMatrix(Some(a), true).value, true) == Reply(Ok, Some(Matrix(2, 2, Identity(2))))
  {
    Inverse2(a);
    var inv := InverseMatrix(Some(a), true).value.value;
    var g := a.cells;
    var k := 1.0 / (g[0][0] * g[1][1] - g[0][1] * g[1][0]);
    AdjugateProductGrid(g, inv.cells, k);
  }

  /** For an invertible 2x2 matrix, the inverse `s21_inverse_matrix`
      returns times A is the identity, computed with `s21_mult_matrix`. */
  lemma Inverse2IsLeftInverse(a: Matrix)
    requires Valid(a) && a.rows == 2 && a.columns == 2
    requires a.cells[0][0] * a.cells[1][1] - a.cells[0][1] * a.cells[1][0] != 0.0
    ensures InverseMatrix(Some(a), true).status == Ok
    ensures MultMatrix(InverseMatrix(Some(a), true).value, Some(a), true) == Reply(Ok, Some(Matrix(2, 2, Identity(2))))
  {
    Inverse2(a);
    var inv := InverseMatrix(Some(a), true).value.value;
    var g := a.cells;
    var k := 1.0 / (g[0][0] * g[1][1] - g[0][1] * g[1][0]);
    AdjugateProductGridLeft(g, inv.cells, k);
  }
}
