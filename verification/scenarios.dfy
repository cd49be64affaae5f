/** The literal scenarios of the library's test suite, stated over the
    model with exact `real` arithmetic. */
module Scenarios {
  import opened Matrices
  import opened Arithmetic
  import opened Laplace
  import opened LaplaceFacts

  /** `s21_init_matrix` of the test suite: entries start, start + 1, ...
      in row-major order. */
  function Counting(start: real, rows: nat, cols: nat): (g: Grid)
    ensures IsGrid(g, rows, cols)
    ensures forall i, j :: 0 <= i < rows && 0 <= j < cols ==> g[i][j] == start + (i * cols + j) as real
  {
    seq(rows, i => seq(cols, j => start + (i * cols + j) as real))
  }

  /** A matrix a test declared as `{0}` and then failed to create. */
  const Empty: Matrix := Matrix(0, 0, [])

  /** A row of four entries is the literal of its entries. */
  lemma Row4(row: seq<real>, a: real, b: real, c: real, d: real)
    requires |row| == 4 && row[0] == a && row[1] == b && row[2] == c && row[3] == d
    ensures row == [a, b, c, d]
  {
  }

  /** Two rows of four entries agree entry by entry. */
  predicate SameRow4(r: seq<real>, s: seq<real>)
    requires |r| == 4 && |s| == 4
  {
    r[0] == s[0] && r[1] == s[1] && r[2] == s[2] && r[3] == s[3]
  }

  /** Two 4x4 grids that agree entry by entry are equal. */
  lemma Grid4(g: Grid, h: Grid)
    requires IsGrid(g, 4, 4) && IsGrid(h, 4, 4)
    requires SameRow4(g[0], h[0]) && SameRow4(g[1], h[1]) && SameRow4(g[2], h[2]) && SameRow4(g[3], h[3])
    ensures g == h
  {
    Row4(g[0], h[0][0], h[0][1], h[0][2], h[0][3]);
    Row4(g[1], h[1][0], h[1][1], h[1][2], h[1][3]);
    Row4(g[2], h[2][0], h[2][1], h[2][2], h[2][3]);
    Row4(g[3], h[3][0], h[3][1], h[3][2], h[3][3]);
    Row4(h[0], h[0][0], h[0][1], h[0][2], h[0][3]);
    Row4(h[1], h[1][0], h[1][1], h[1][2], h[1][3]);
    Row4(h[2], h[2][0], h[2][1], h[2][2], h[2][3]);
    Row4(h[3], h[3][0], h[3][1], h[3][2], h[3][3]);
  }

  lemma CreateScenarios()
    ensures Create(2, 2, true).status == Ok
    ensures Create(0, 0, true).status == IncorrectMatrix
    ensures Create(3, 4, false).status == IncorrectMatrix
    ensures Create(1, 1, true).status == Ok
    ensures Create(-6, -5, true).status == IncorrectMatrix
    ensures Create(2, -5, true).status == IncorrectMatrix
  {
  }

  lemma EqualityScenarios()
    ensures Matches(Create(3, 3, true).value, Create(3, 3, true).value)
    ensures !Matches(Create(3, 3, true).value, Create(2, 2, true).value)
    ensures !Matches(Create(3, 3, true).value, Create(2, 3, true).value)
    ensures !Matches(None, None)
    ensures !Matches(Create(3, 3, true).value, None)
  {
    MatchesReflexive(Create(3, 3, true).value.value);
  }

  lemma SumScenarios()
    ensures SumMatrix(Matrix(4, 4, Counting(1.0, 4, 4)), Matrix(4, 4, Counting(1.0, 4, 4)), true)
              == Reply(Ok, Some(Matrix(4, 4, [[2.0, 4.0, 6.0, 8.0], [10.0, 12.0, 14.0, 16.0],
                                              [18.0, 20.0, 22.0, 24.0], [26.0, 28.0, 30.0, 32.0]])))
    ensures SumMatrix(Matrix(2, 2, Counting(0.0, 2, 2)), Matrix(3, 3, Counting(0.0, 3, 3)), true).status == CalcError
  {
    var r := SumMatrix(Matrix(4, 4, Counting(1.0, 4, 4)), Matrix(4, 4, Counting(1.0, 4, 4)), true).value.value;
    var expected: Grid := [[2.0, 4.0, 6.0, 8.0], [10.0, 12.0, 14.0, 16.0], [18.0, 20.0, 22.0, 24.0], [26.0, 28.0, 30.0, 32.0]];
    forall i, j | 0 <= i < 4 && 0 <= j < 4
      ensures r.cells[i][j] == expected[i][j]
    {
      assert expected[i][j] == 2.0 * (1.0 + (i * 4 + j) as real);
    }
    Grid4(r.cells, expected);
  }

  lemma SubScenarios()
    ensures SubMatrix(Some(Matrix(4, 4, Counting(2.0, 4, 4))), Some(Matrix(4, 4, Counting(1.0, 4, 4))), true)
              == Reply(Ok, Some(Matrix(4, 4, [[1.0, 1.0, 1.0, 1.0], [1.0, 1.0, 1.0, 1.0],
                                              [1.0, 1.0, 1.0, 1.0], [1.0, 1.0, 1.0, 1.0]])))
    ensures SubMatrix(Some(Matrix(2, 2, Counting(0.0, 2, 2))), Some(Matrix(3, 3, Counting(0.0, 3, 3))), true).status == CalcError
  {
    var r := SubMatrix(Some(Matrix(4, 4, Counting(2.0, 4, 4))), Some(Matrix(4, 4, Counting(1.0, 4, 4))), true).value.value;
    Grid4(r.cells, [[1.0, 1.0, 1.0, 1.0], [1.0, 1.0, 1.0, 1.0], [1.0, 1.0, 1.0, 1.0], [1.0, 1.0, 1.0, 1.0]]);
  }

  lemma MultMatrixScenarios()
    ensures MultMatrix(Some(Matrix(4, 4, Counting(1.0, 4, 4))), Some(Matrix(4, 4, Counting(1.0, 4, 4))), true)
              == Reply(Ok, Some(Matrix(4, 4, [[90.0, 100.0, 110.0, 120.0], [202.0, 228.0, 254.0, 280.0],
                                              [314.0, 356.0, 398.0, 440.0], [426.0, 484.0, 542.0, 600.0]])))
  {
    var a := Counting(1.0, 4, 4);
    CountingRows(a);
    var p := MultMatrix(Some(Matrix(4, 4, a)), Some(Matrix(4, 4, a)), true).value.value;
    var expected: Grid := [[90.0, 100.0, 110.0, 120.0], [202.0, 228.0, 254.0, 280.0],
                           [314.0, 356.0, 398.0, 440.0], [426.0, 484.0, 542.0, 600.0]];
    ProductRow(a, 0, 90.0, 100.0, 110.0, 120.0);
    ProductRow(a, 1, 202.0, 228.0, 254.0, 280.0);
    ProductRow(a, 2, 314.0, 356.0, 398.0, 440.0);
    ProductRow(a, 3, 426.0, 484.0, 542.0, 600.0);
    Grid4(p.cells, expected);
  }

  /** Row i of the counting matrix times itself, entry by entry. */
  lemma ProductRow(a: Grid, i: nat, e0: real, e1: real, e2: real, e3: real)
    requires IsGrid(a, 4, 4) && i < 4
    requires a[1] == [5.0, 6.0, 7.0, 8.0] && a[2] == [9.0, 10.0, 11.0, 12.0]
    requires a[3] == [13.0, 14.0, 15.0, 16.0] && a[0] == [1.0, 2.0, 3.0, 4.0]
    requires e0 == a[i][0] * 1.0 + a[i][1] * 5.0 + a[i][2] * 9.0 + a[i][3] * 13.0
    requires e1 == a[i][0] * 2.0 + a[i][1] * 6.0 + a[i][2] * 10.0 + a[i][3] * 14.0
    requires e2 == a[i][0] * 3.0 + a[i][1] * 7.0 + a[i][2] * 11.0 + a[i][3] * 15.0
    requires e3 == a[i][0] * 4.0 + a[i][1] * 8.0 + a[i][2] * 12.0 + a[i][3] * 16.0
    ensures Dot(a, a, i, 0, 4) == e0 && Dot(a, a, i, 1, 4) == e1
    ensures Dot(a, a, i, 2, 4) == e2 && Dot(a, a, i, 3, 4) == e3
  {
    assert Dot(a, a, i, 0, 4) == e0 by {
      assert Dot(a, a, i, 0, 1) == a[i][0] * 1.0;
      assert Dot(a, a, i, 0, 2) == a[i][0] * 1.0 + a[i][1] * 5.0;
      assert Dot(a, a, i, 0, 3) == a[i][0] * 1.0 + a[i][1] * 5.0 + a[i][2] * 9.0;
    }
    assert Dot(a, a, i, 1, 4) == e1 by {
      assert Dot(a, a, i, 1, 1) == a[i][0] * 2.0;
      assert Dot(a, a, i, 1, 2) == a[i][0] * 2.0 + a[i][1] * 6.0;
      assert Dot(a, a, i, 1, 3) == a[i][0] * 2.0 + a[i][1] * 6.0 + a[i][2] * 10.0;
    }
    assert Dot(a, a, i, 2, 4) == e2 by {
      assert Dot(a, a, i, 2, 1) == a[i][0] * 3.0;
      assert Dot(a, a, i, 2, 2) == a[i][0] * 3.0 + a[i][1] * 7.0;
      assert Dot(a, a, i, 2, 3) == a[i][0] * 3.0 + a[i][1] * 7.0 + a[i][2] * 11.0;
    }
    assert Dot(a, a, i, 3, 4) == e3 by {
      assert Dot(a, a, i, 3, 1) == a[i][0] * 4.0;
      assert Dot(a, a, i, 3, 2) == a[i][0] * 4.0 + a[i][1] * 8.0;
      assert Dot(a, a, i, 3, 3) == a[i][0] * 4.0 + a[i][1] * 8.0 + a[i][2] * 12.0;
    }
  }

  /** The rows of the 4x4 counting matrix from 1. */
  lemma CountingRows(a: Grid)
    requires a == Counting(1.0, 4, 4)
    ensures a[0] == [1.0, 2.0, 3.0, 4.0] && a[1] == [5.0, 6.0, 7.0, 8.0]
    ensures a[2] == [9.0, 10.0, 11.0, 12.0] && a[3] == [13.0, 14.0, 15.0, 16.0]
  {
  }

  lemma MultMatrixErrorScenarios()
    ensures MultMatrix(Some(Matrix(2, 2, Counting(0.0, 2, 2))), Some(Matrix(3, 3, Counting(0.0, 3, 3))), false).status == IncorrectMatrix
    ensures MultMatrix(Some(Empty), Some(Matrix(3, 3, Counting(0.0, 3, 3))), true).status == IncorrectMatrix
    ensures MultMatrix(Some(Matrix(2, 2, Counting(0.0, 2, 2))), Some(Empty), true).status == IncorrectMatrix
    ensures MultMatrix(Some(Matrix(3, 3, Counting(0.0, 3, 3))), Some(Matrix(2, 2, Counting(0.0, 2, 2))), true).status == CalcError
  {
  }

  lemma MultNumberScenarios()
    ensures MultNumber(Some(Matrix(4, 4, Counting(1.0, 4, 4))), 3.0, true)
              == Reply(Ok, Some(Matrix(4, 4, [[3.0, 6.0, 9.0, 12.0], [15.0, 18.0, 21.0, 24.0],
                                              [27.0, 30.0, 33.0, 36.0], [39.0, 42.0, 45.0, 48.0]])))
    ensures MultNumber(Some(Matrix(3, 3, Counting(0.0, 3, 3))), 1.0, false).status == IncorrectMatrix
    ensures MultNumber(Some(Empty), 1.0, true).status == IncorrectMatrix
  {
    var r := MultNumber(Some(Matrix(4, 4, Counting(1.0, 4, 4))), 3.0, true).value.value;
    var expected: Grid := [[3.0, 6.0, 9.0, 12.0], [15.0, 18.0, 21.0, 24.0], [27.0, 30.0, 33.0, 36.0], [39.0, 42.0, 45.0, 48.0]];
    forall i, j | 0 <= i < 4 && 0 <= j < 4
      ensures r.cells[i][j] == expected[i][j]
    {
      assert expected[i][j] == 3.0 * (1.0 + (i * 4 + j) as real);
    }
    Grid4(r.cells, expected);
  }

  lemma TransposeScenarios()
    ensures Transpose(Matrix(2, 3, Counting(1.0, 2, 3)), true)
              == Reply(Ok, Some(Matrix(3, 2, [[1.0, 4.0], [2.0, 5.0], [3.0, 6.0]])))
    ensures Transpose(Matrix(2, 2, Counting(0.0, 2, 2)), false).status == IncorrectMatrix
    ensures Transpose(Matrix(1, 1, Counting(1.0, 1, 1)), true) == Reply(Ok, Some(Matrix(1, 1, [[1.0]])))
  {
    var t := Transpose(Matrix(2, 3, Counting(1.0, 2, 3)), true).value.value;
    assert t.cells[0] == [1.0, 4.0];
    assert t.cells[1] == [2.0, 5.0];
    assert t.cells[2] == [3.0, 6.0];
    assert t.cells == [[1.0, 4.0], [2.0, 5.0], [3.0, 6.0]];
    assert Counting(1.0, 1, 1)[0] == [1.0];
  }

  /** The 2x2 determinant of the test suite is a*d - b*c = -1301.223. */
  lemma DeterminantScenarios()
    ensures Determinant(Some(Matrix(2, 2, [[-677700.0, 654.0], [2.0, -0.00001]])), true) == Reply(Ok, Some(-1301.223))
    ensures Determinant(Some(Matrix(2, 2, Counting(1.0, 2, 2))), false).status == IncorrectMatrix
  {
    Det2([[-677700.0, 654.0], [2.0, -0.00001]]);
  }

  /** The cofactor matrix the test suite expects for the sample matrix. */
  const SampleCofactors: Grid :=
    [[0.0, -30.0, -108.0, 106.0], [138.0, -726.0, -1137.0, 1061.0], [0.0, 12.0, 57.0, -47.0], [0.0, 6.0, -75.0, 57.0]]

  /** Cofactor (x, j) of a 4x4 grid, in terms of its entries. */
  lemma Cofactor4(g: Grid, x: nat, j: nat)
    requires |g| == 4 && IsSquare(g) && x < 4 && j < 4
    ensures Cofactor(g, x, j) == Sign(x + j) * Det3Of(g, Skip(0, x), Skip(1, x), Skip(2, x), Skip(0, j), Skip(1, j), Skip(2, j))
  {
    var m := Minor(g, x, j);
    Det3(m);
    assert m[0][0] == g[Skip(0, x)][Skip(0, j)];
  }

  /** `g` is the 4x4 matrix of the cofactor and inverse tests. Stated row by
      row rather than as equality with a literal grid, so that the solver does
      not evaluate determinants of a literal to the bottom. */
  predicate IsSample(g: Grid)
  {
    && |g| == 4
    && g[0] == [-1.0, 2.0, 7.0, 9.0] && g[1] == [1.0, 0.0, 0.0, 0.0]
    && g[2] == [47.0, 13.0, 17.0, 21.0] && g[3] == [22.0, 7.0, 1.0, 3.0]
  }

  lemma SampleCofactor00(g: Grid)
    requires IsSample(g)
    ensures Cofactor(g, 0, 0) == 0.0
  {
    Cofactor4(g, 0, 0);
    assert Skip(0, 0) == 1 && Skip(1, 0) == 2 && Skip(2, 0) == 3;
  }

  lemma SampleCofactor01(g: Grid)
    requires IsSample(g)
    ensures Cofactor(g, 0, 1) == -30.0
  {
    Cofactor4(g, 0, 1);
    assert Skip(0, 0) == 1 && Skip(1, 0) == 2 && Skip(2, 0) == 3;
    assert Skip(0, 1) == 0 && Skip(1, 1) == 2 && Skip(2, 1) == 3;
  }

  lemma SampleCofactor02(g: Grid)
    requires IsSample(g)
    ensures Cofactor(g, 0, 2) == -108.0
  {
    Cofactor4(g, 0, 2);
    assert Skip(0, 0) == 1 && Skip(1, 0) == 2 && Skip(2, 0) == 3;
    assert Skip(0, 2) == 0 && Skip(1, 2) == 1 && Skip(2, 2) == 3;
  }

  lemma SampleCofactor03(g: Grid)
    requires IsSample(g)
    ensures Cofactor(g, 0, 3) == 106.0
  {
    Cofactor4(g, 0, 3);
    assert Skip(0, 0) == 1 && Skip(1, 0) == 2 && Skip(2, 0) == 3;
    assert Skip(0, 3) == 0 && Skip(1, 3) == 1 && Skip(2, 3) == 2;
  }

  lemma SampleCofactor10(g: Grid)
    requires IsSample(g)
    ensures Cofactor(g, 1, 0) == 138.0
  {
    Cofactor4(g, 1, 0);
    assert Skip(0, 1) == 0 && Skip(1, 1) == 2 && Skip(2, 1) == 3;
    assert Skip(0, 0) == 1 && Skip(1, 0) == 2 && Skip(2, 0) == 3;
  }

  lemma SampleCofactor11(g: Grid)
    requires IsSample(g)
    ensures Cofactor(g, 1, 1) == -726.0
  {
    Cofactor4(g, 1, 1);
    assert Skip(0, 1) == 0 && Skip(1, 1) == 2 && Skip(2, 1) == 3;
  }

  lemma SampleCofactor12(g: Grid)
    requires IsSample(g)
    ensures Cofactor(g, 1, 2) == -1137.0
  {
    Cofactor4(g, 1, 2);
    assert Skip(0, 1) == 0 && Skip(1, 1) == 2 && Skip(2, 1) == 3;
    assert Skip(0, 2) == 0 && Skip(1, 2) == 1 && Skip(2, 2) == 3;
  }

  lemma SampleCofactor13(g: Grid)
    requires IsSample(g)
    ensures Cofactor(g, 1, 3) == 1061.0
  {
    Cofactor4(g, 1, 3);
    assert Skip(0, 1) == 0 && Skip(1, 1) == 2 && Skip(2, 1) == 3;
    assert Skip(0, 3) == 0 && Skip(1, 3) == 1 && Skip(2, 3) == 2;
  }

  lemma SampleCofactor20(g: Grid)
    requires IsSample(g)
    ensures Cofactor(g, 2, 0) == 0.0
  {
    Cofactor4(g, 2, 0);
    assert Skip(0, 2) == 0 && Skip(1, 2) == 1 && Skip(2, 2) == 3;
    assert Skip(0, 0) == 1 && Skip(1, 0) == 2 && Skip(2, 0) == 3;
  }

  lemma SampleCofactor21(g: Grid)
    requires IsSample(g)
    ensures Cofactor(g, 2, 1) == 12.0
  {
    Cofactor4(g, 2, 1);
    assert Skip(0, 2) == 0 && Skip(1, 2) == 1 && Skip(2, 2) == 3;
    assert Skip(0, 1) == 0 && Skip(1, 1) == 2 && Skip(2, 1) == 3;
  }

  lemma SampleCofactor22(g: Grid)
    requires IsSample(g)
    ensures Cofactor(g, 2, 2) == 57.0
  {
    Cofactor4(g, 2, 2);
    assert Skip(0, 2) == 0 && Skip(1, 2) == 1 && Skip(2, 2) == 3;
  }

  lemma SampleCofactor23(g: Grid)
    requires IsSample(g)
    ensures Cofactor(g, 2, 3) == -47.0
  {
    Cofactor4(g, 2, 3);
    assert Skip(0, 2) == 0 && Skip(1, 2) == 1 && Skip(2, 2) == 3;
    assert Skip(0, 3) == 0 && Skip(1, 3) == 1 && Skip(2, 3) == 2;
  }

  lemma SampleCofactor30(g: Grid)
    requires IsSample(g)
    ensures Cofactor(g, 3, 0) == 0.0
  {
    Cofactor4(g, 3, 0);
    assert Skip(0, 3) == 0 && Skip(1, 3) == 1 && Skip(2, 3) == 2;
    assert Skip(0, 0) == 1 && Skip(1, 0) == 2 && Skip(2, 0) == 3;
  }

  lemma SampleCofactor31(g: Grid)
    requires IsSample(g)
    ensures Cofactor(g, 3, 1) == 6.0
  {
    Cofactor4(g, 3, 1);
    assert Skip(0, 3) == 0 && Skip(1, 3) == 1 && Skip(2, 3) == 2;
    assert Skip(0, 1) == 0 && Skip(1, 1) == 2 && Skip(2, 1) == 3;
  }

  lemma SampleCofactor32(g: Grid)
    requires IsSample(g)
    ensures Cofactor(g, 3, 2) == -75.0
  {
    Cofactor4(g, 3, 2);
    assert Skip(0, 3) == 0 && Skip(1, 3) == 1 && Skip(2, 3) == 2;
    assert Skip(0, 2) == 0 && Skip(1, 2) == 1 && Skip(2, 2) == 3;
  }

  lemma SampleCofactor33(g: Grid)
    requires IsSample(g)
    ensures Cofactor(g, 3, 3) == 57.0
  {
    Cofactor4(g, 3, 3);
    assert Skip(0, 3) == 0 && Skip(1, 3) == 1 && Skip(2, 3) == 2;
  }

  lemma SampleCofactorsRow0(g: Grid)
    requires IsSample(g)
    ensures Cofactor(g, 0, 0) == 0.0 && Cofactor(g, 0, 1) == -30.0
    ensures Cofactor(g, 0, 2) == -108.0 && Cofactor(g, 0, 3) == 106.0
  {
    SampleCofactor00(g);
    SampleCofactor01(g);
    SampleCofactor02(g);
    SampleCofactor03(g);
  }

  lemma SampleCofactorsRow1(g: Grid)
    requires IsSample(g)
    ensures Cofactor(g, 1, 0) == 138.0 && Cofactor(g, 1, 1) == -726.0
    ensures Cofactor(g, 1, 2) == -1137.0 && Cofactor(g, 1, 3) == 1061.0
  {
    SampleCofactor10(g);
    SampleCofactor11(g);
    SampleCofactor12(g);
    SampleCofactor13(g);
  }

  lemma SampleCofactorsRow2(g: Grid)
    requires IsSample(g)
    ensures Cofactor(g, 2, 0) == 0.0 && Cofactor(g, 2, 1) == 12.0
    ensures Cofactor(g, 2, 2) == 57.0 && Cofactor(g, 2, 3) == -47.0
  {
    SampleCofactor20(g);
    SampleCofactor21(g);
    SampleCofactor22(g);
    SampleCofactor23(g);
  }

  lemma SampleCofactorsRow3(g: Grid)
    requires IsSample(g)
    ensures Cofactor(g, 3, 0) == 0.0 && Cofactor(g, 3, 1) == 6.0
    ensures Cofactor(g, 3, 2) == -75.0 && Cofactor(g, 3, 3) == 57.0
  {
    SampleCofactor30(g);
    SampleCofactor31(g);
    SampleCofactor32(g);
    SampleCofactor33(g);
  }

  lemma CalcComplementsScenario(a: Matrix)
    requires a.rows == 4 && a.columns == 4 && IsSample(a.cells)
    ensures CalcComplements(Some(a), true) == Reply(Ok, Some(Matrix(4, 4, SampleCofactors)))
  {
    SampleCofactorsRow0(a.cells);
    SampleCofactorsRow1(a.cells);
    SampleCofactorsRow2(a.cells);
    SampleCofactorsRow3(a.cells);
    var cof := CalcComplements(Some(a), true).value.value;
    Grid4(cof.cells, SampleCofactors);
  }

  /** A 4x4 determinant is the first row dotted with the first-row cofactors. */
  lemma Det4(g: Grid)
    requires |g| == 4 && IsSquare(g)
    ensures Det(g) == g[0][0] * Cofactor(g, 0, 0) + g[0][1] * Cofactor(g, 0, 1)
                    + g[0][2] * Cofactor(g, 0, 2) + g[0][3] * Cofactor(g, 0, 3)
  {
    DetIsRowExpansion(g);
    TermIsEntryTimesCofactor(g, 0);
    TermIsEntryTimesCofactor(g, 1);
    TermIsEntryTimesCofactor(g, 2);
    TermIsEntryTimesCofactor(g, 3);
    assert RowSum(g, 1) == Term(g, 0);
    assert RowSum(g, 2) == RowSum(g, 1) + Term(g, 1);
    assert RowSum(g, 3) == RowSum(g, 2) + Term(g, 2);
    assert RowSum(g, 4) == RowSum(g, 3) + Term(g, 3);
  }

  lemma SampleDeterminant(g: Grid)
    requires IsSample(g)
    ensures Det(g) == 138.0
  {
    SampleCofactorsRow0(g);
    Det4(g);
  }

  /** The inverse the test suite expects for the sample matrix. */
  const SampleInverse: Grid :=
    [[0.0, 1.0, 0.0, 0.0],
     [-5.0 / 23.0, -121.0 / 23.0, 2.0 / 23.0, 1.0 / 23.0],
     [-18.0 / 23.0, -379.0 / 46.0, 19.0 / 46.0, -25.0 / 46.0],
     [53.0 / 69.0, 1061.0 / 138.0, -47.0 / 138.0, 19.0 / 46.0]]

  lemma InverseSampleScenario(a: Matrix)
    requires a.rows == 4 && a.columns == 4 && IsSample(a.cells)
    ensures InverseMatrix(Some(a), true) == Reply(Ok, Some(Matrix(4, 4, SampleInverse)))
  {
    SampleDeterminant(a.cells);
    SampleCofactorsRow0(a.cells);
    SampleCofactorsRow1(a.cells);
    SampleCofactorsRow2(a.cells);
    SampleCofactorsRow3(a.cells);
    var inv := InverseMatrix(Some(a), true).value.value;
    Grid4(inv.cells, SampleInverse);
  }

  lemma InverseErrorScenarios()
    ensures InverseMatrix(Some(Matrix(2, 2, Counting(0.0, 2, 2))), false).status == IncorrectMatrix
    ensures InverseMatrix(Some(Matrix(3, 2, Counting(0.0, 3, 2))), true).status == CalcError
    ensures InverseMatrix(Some(Matrix(1, 1, Counting(0.0, 1, 1))), true).status == CalcError
    ensures InverseMatrix(None, true).status == IncorrectMatrix
  {
    assert Counting(0.0, 1, 1)[0] == [0.0];
  }
}
