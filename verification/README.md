# s21_matrix in Dafny

A model of the C library `s21_matrix`, a small library of dense `double`
matrices. Each one is a `matrix_t` record with a row count, a column count
and a heap buffer of rows. The model covers:

- creating a matrix and validating one;
- tolerant equality;
- sum, difference, scaling, product and transpose;
- the Laplace-expansion core: minor extraction, the recursive determinant,
  the cofactor matrix and the inverse built from them.

Every library function returns a status code. `code_result` defines
OK = 0, INCORRECT_MATRIX = 1 and CALC_ERROR = 2. The model follows each
function's branches in the order the code takes them, so it keeps the order
of the error checks. It also lists the literal scenarios of the test suite
as lemmas.

Files:

- `matrix.dfy` (module `Matrices`): the data model and `is_correct_matrix`,
  `s21_create_matrix`, `s21_eq_matrix`.
- `arithmetic.dfy` (module `Arithmetic`): `calc_errors`, `s21_sum_matrix`,
  `s21_sub_matrix`, `s21_mult_number`, `s21_mult_matrix`, `s21_transpose`,
  and the laws that relate them.
- `laplace.dfy` (module `Laplace`): `get_minor`, `get_determinant`,
  `s21_determinant`, `s21_calc_complements`, `s21_inverse_matrix`.
- `laplace_facts.dfy` (module `LaplaceFacts`): determinant and inverse facts.
  These are closed forms for sizes 2 and 3, triangular matrices, zero rows,
  and inverses of sizes 1 and 2.
- `scenarios.dfy` (module `Scenarios`): the test-suite scenarios.

How the C world is represented:

- Entries are mathematical `real` numbers. `double` rounding, infinities and
  NaN are not modelled.
- A pointer to a matrix is `Option<Matrix>`, and `None` is NULL.
- A result pointer is the boolean `slot`; `false` is NULL.
- A buffer is a `Grid` (`seq<seq<real>>`). A NULL buffer, or one that does not
  have the announced shape, is a grid that does not match `rows` x `columns`.
- `Valid` is what `is_correct_matrix` accepts of a buffer of the announced
  shape.
- An operation returns a `Reply(status, value)`. The `value` is `Some` when
  the code left a complete result in the slot.
- Where the code reads through a pointer it has not validated, that
  undefined behaviour becomes a precondition (`SumReadsAreSafe`,
  `TransposeIsSafe`). The model says nothing about those inputs.

Behaviour of the code that the model keeps on purpose, although a reader
might expect otherwise:

- `s21_calc_complements` returns status 2 with no result for a 1x1 matrix.
  Its branch that would write `1` into a 1x1 result can never be reached,
  because it sits under the test `rows > 1`.
- `s21_transpose` returns the reciprocal for a 1x1 matrix. It reports a bare
  `2` for a zero 1x1 entry, and `2` is the same code as CALC_ERROR.
- `s21_transpose` overwrites its validity verdict with the status of creating
  the result. So the operand's own buffer is never checked: INCORRECT_MATRIX
  comes only from a dimension below 1 or from a NULL result.
- `s21_sum_matrix` never validates its operands. It reports CALC_ERROR (its
  `COMPUTATION_ERROR`) both for a shape mismatch and for a failed creation,
  including a NULL result.
- `s21_mult_number` and `s21_mult_matrix` report INCORRECT_MATRIX before they
  look at shapes.

## Model

| member | source | states |
|---|---|---|
| Matrices.IsCorrect | src/s21_matrix.c:115-124 | OK exactly for a non-null matrix with at least one row, at least one column and a buffer of that shape; otherwise INCORRECT_MATRIX, never CALC_ERROR |
| Matrices.Create | src/s21_matrix.c:28-43 | OK exactly when rows >= 1, columns >= 1 and the result pointer is non-null; the matrix built passes `is_correct_matrix`, has the requested dimensions and is all zeros; otherwise INCORRECT_MATRIX and nothing built |
| Matrices.EqMatrix | src/s21_matrix.c:88-103 | the row-major scan with early exit answers SUCCESS exactly when both operands are valid, have the same shape and every pair of entries differs by less than 1e-7 |
| Matrices.MatchesReflexive | src/s21_matrix.c:88-103 | every valid matrix is equal to itself |
| Matrices.MatchesSymmetric | src/s21_matrix.c:88-103 | equality does not depend on the order of the operands |
| Arithmetic.CalcErrors | src/s21_matrix.c:142-155 | INCORRECT_MATRIX exactly when an operand is invalid or the result is NULL; OK exactly when both are valid, the result is non-null and the shapes agree; CALC_ERROR otherwise |
| Arithmetic.SubMatrix | src/s21_matrix.c:178-195 | the calc_errors verdict, with INCORRECT_MATRIX before CALC_ERROR; on OK a valid matrix of A's shape whose entries are A[i][j] - B[i][j] |
| Arithmetic.SumMatrix | src/s21_matrix.c:214-233 | never INCORRECT_MATRIX; OK exactly when the shapes agree, the dimensions are positive and the result is non-null; on OK a valid matrix of A's shape whose entries are A[i][j] + B[i][j] |
| Arithmetic.SumCommutes | src/s21_matrix.c:214-233 | A + B and B + A give the same status and the same result |
| Arithmetic.SubUndoesSum | src/s21_matrix.c:178-233 | subtracting B from A + B gives back A, with status OK |
| Arithmetic.MultNumber | src/s21_matrix.c:255-269 | OK exactly for a valid matrix and a non-null result, never CALC_ERROR; on OK a matrix of A's shape with entries A[i][j] * number |
| Arithmetic.ScaleRoundTrip | src/s21_matrix.c:255-269 | scaling by k != 0 and then by 1/k gives back the matrix |
| Arithmetic.MultMatrix | src/s21_matrix.c:294-316 | INCORRECT_MATRIX exactly for an invalid operand or a NULL result, whatever the shapes; then CALC_ERROR exactly when A's columns differ from B's rows; on OK an A.rows x B.columns matrix whose entry (i, j) is the accumulated sum of A[i][k] * B[k][j] for k = 0 .. A.columns - 1 |
| Arithmetic.MultIdentity | src/s21_matrix.c:294-316 | A times the identity of its column count is A |
| Arithmetic.IdentityMult | src/s21_matrix.c:294-316 | the identity of A's row count times A is A |
| Arithmetic.Transpose | src/s21_matrix.c:335-357 | INCORRECT_MATRIX exactly when a dimension is below 1 or the result is NULL; status 2 exactly for a valid 1x1 matrix holding 0; otherwise OK with a columns x rows matrix where result[j][i] = A[i][j], except that a 1x1 result is the reciprocal of the entry |
| Arithmetic.TransposeTwice | src/s21_matrix.c:335-357 | transposing twice gives back every valid matrix that is not 1x1 |
| Arithmetic.TransposeTwiceScalar | src/s21_matrix.c:348-354 | a 1x1 matrix holding x != 0 comes back after two transposes (x to 1/x to x); one holding 0 reports status 2 |
| Laplace.GetMinor | src/s21_matrix.c:478-490 | the x/y-counter loop packs every entry outside row r and column c into an (n-1) x (n-1) grid, keeping rows and columns in order: local[x][y] = A[Skip(x, r)][Skip(y, c)] |
| Laplace.Det | src/s21_matrix.c:443-444 | `get_determinant` of a 1x1 matrix is its sole entry; the larger sizes are stated by `Laplace.ExpandAddsTerms` and `Laplace.DetIsRowExpansion` |
| Laplace.ExpandAddsTerms | src/s21_matrix.c:450-453 | from column j on, the loop whose sign starts at (-1)^j adds exactly the remaining terms (-1)^k A[0][k] det(minor(A, 0, k)) to its accumulator |
| Laplace.DetIsRowExpansion | src/s21_matrix.c:443-457 | the loop of `get_determinant` (sign starting at 1 and flipping each step, accumulator starting at 0) equals the first-row Laplace sum of (-1)^j A[0][j] det(minor(A, 0, j)) |
| Laplace.Determinant | src/s21_matrix.c:418-426 | INCORRECT_MATRIX exactly for an invalid matrix or a NULL result; then CALC_ERROR exactly for a non-square matrix; otherwise OK with the determinant, which is the sole entry for a 1x1 matrix |
| Laplace.TermIsEntryTimesCofactor | src/s21_matrix.c:452 | the j-th term of the expansion is A[0][j] times cofactor (0, j) |
| Laplace.CalcComplements | src/s21_matrix.c:376-400 | INCORRECT_MATRIX for an invalid matrix or a NULL result; then CALC_ERROR exactly for a non-square or a 1x1 matrix; otherwise OK with the n x n matrix whose entry (x, j) is (-1)^(x+j) det(minor(A, x, j)) |
| Laplace.InverseMatrix | src/s21_matrix.c:507-537 | INCORRECT_MATRIX exactly for an invalid matrix or a NULL result; CALC_ERROR exactly for a non-square matrix or a determinant equal to 0; for 1x1 the reciprocal; otherwise OK with entry (i, j) = cofactor(j, i) / det (the adjugate scaled by 1/det) |
| LaplaceFacts.Det2 | src/s21_matrix.c:443-457 | a 2x2 determinant is ad - bc |
| LaplaceFacts.Det3 | src/s21_matrix.c:443-457 | a 3x3 determinant is a(ei - fh) - b(di - fg) + c(dh - eg) |
| LaplaceFacts.DetFirstEntryOnly | src/s21_matrix.c:443-457 | when the first row is zero past column 0, the determinant is A[0][0] det(minor(A, 0, 0)) |
| LaplaceFacts.DetLowerTriangular | src/s21_matrix.c:443-457 | the determinant of a lower-triangular matrix is the product of its diagonal |
| LaplaceFacts.DetIdentity | src/s21_matrix.c:443-457 | the identity has determinant 1 |
| LaplaceFacts.DetZeroRow | src/s21_matrix.c:443-457 | a matrix with a zero row has determinant 0 |
| LaplaceFacts.InverseOfZeroRow | src/s21_matrix.c:507-517 | a square matrix with a zero row has no inverse: CALC_ERROR and no result |
| LaplaceFacts.FirstRowProductsAreTerms | src/s21_matrix.c:376-400 | the first row of A dotted with the first row of the cofactor matrix gives the expansion sum, term by term |
| LaplaceFacts.DetFromCofactors | src/s21_matrix.c:376-426 | for n >= 2, `s21_calc_complements` succeeds, and the first row of A dotted with the first row of its result is the value `s21_determinant` returns |
| LaplaceFacts.InverseScalar | src/s21_matrix.c:507-520 | a 1x1 matrix holding 0 has no inverse; otherwise the inverse is [1/x], and inverting twice gives back [x] |
| LaplaceFacts.InverseScalarIsInverse | src/s21_matrix.c:507-520 | for a nonzero 1x1 matrix, `s21_mult_matrix` of A and its inverse, and of the inverse and A, are both the 1x1 identity |
| LaplaceFacts.CofactorsOf2 | src/s21_matrix.c:376-400 | the cofactors of [[a, b], [c, d]] are d, -c, -b, a |
| LaplaceFacts.Inverse2 | src/s21_matrix.c:507-537 | a 2x2 matrix with ad - bc != 0 inverts to (1/(ad - bc)) [[d, -b], [-c, a]] |
| LaplaceFacts.Inverse2IsRightInverse | src/s21_matrix.c:507-537 | for an invertible 2x2 matrix, `s21_mult_matrix` of A and its inverse is the identity |
| LaplaceFacts.Inverse2IsLeftInverse | src/s21_matrix.c:507-537 | for an invertible 2x2 matrix, `s21_mult_matrix` of the inverse and A is the identity |
| Scenarios.Counting | src/tests/test_matrix.c:5-10 | entry (i, j) of the rows x cols grid is start + i * cols + j, the row-major numbering the helper writes |
| Scenarios.CreateScenarios | src/tests/test_matrix.c:12-69 | the creation tests: 2x2 and 1x1 succeed; 0x0, -6x-5, 2x-5 and a NULL result are INCORRECT_MATRIX |
| Scenarios.EqualityScenarios | src/tests/test_matrix.c:71-129 | the equality tests: two fresh 3x3 matrices are equal; 3x3 against 2x2, 3x3 against 2x3, NULL against NULL and a matrix against NULL are not |
| Scenarios.SumScenarios | src/tests/test_matrix.c:131-193 | the 4x4 counting matrix plus itself is the expected matrix; 2x2 plus 3x3 is CALC_ERROR |
| Scenarios.SubScenarios | src/tests/test_matrix.c:195-257 | the counting matrix from 2 minus the one from 1 is all ones; 2x2 minus 3x3 is CALC_ERROR |
| Scenarios.MultMatrixScenarios | src/tests/test_matrix.c:279-322 | the 4x4 counting matrix times itself is the expected product |
| Scenarios.MultMatrixErrorScenarios | src/tests/test_matrix.c:324-400 | a NULL result or a 0x0 operand is INCORRECT_MATRIX; 3x3 times 2x2 is CALC_ERROR |
| Scenarios.MultNumberScenarios | src/tests/test_matrix.c:422-496 | the 4x4 counting matrix times 3 is the expected matrix; a NULL result and a 0x0 operand are INCORRECT_MATRIX |
| Scenarios.TransposeScenarios | src/tests/test_matrix.c:498-557 | the 2x3 counting matrix transposes to its 3x2 transpose; a NULL result is INCORRECT_MATRIX; [[1]] transposes to [[1]] |
| Scenarios.DeterminantScenarios | src/tests/test_matrix.c:559-587 | [[-677700, 654], [2, -0.00001]] has determinant -1301.223; a NULL result is INCORRECT_MATRIX |
| Scenarios.Cofactor4 | src/s21_matrix.c:376-400 | a 4x4 cofactor is the signed 3x3 determinant of the rows and columns that remain |
| Scenarios.CalcComplementsScenario | src/tests/test_matrix.c:589-642 | the sample 4x4 matrix has the cofactor matrix the test expects |
| Scenarios.SampleDeterminant | src/tests/test_matrix.c:644-697 | the sample 4x4 matrix has determinant 138 |
| Scenarios.InverseSampleScenario | src/tests/test_matrix.c:644-697 | the sample 4x4 matrix has the inverse the test expects, as exact fractions with denominators dividing 138 |
| Scenarios.InverseErrorScenarios | src/tests/test_matrix.c:699-759 | inverting with a NULL result, a NULL matrix, a 3x2 matrix or [[0]] fails with the expected status |

## Left out

- `s21_remove_matrix`, `print_matrix` and all memory management (`calloc`, `free`) are not modelled. Allocation is assumed to succeed.
- `double` arithmetic is not modelled. Entries are exact reals, so rounding is absent and the `isinf` / `isnan` checks of `s21_sub_matrix` (lines 189-191) and `s21_mult_matrix` (lines 309-311) never fire. For the same reason the scenarios with INFINITY entries (test_matrix.c:259-277 and 402-420) are not stated.
- The `int` width of the dimensions is not modelled. No dimension in the code is close to overflow.
- Arithmetic.SumMatrix: inputs on which `s21_sum_matrix` reads an unvalidated NULL or mis-shaped buffer are excluded by the precondition `SumReadsAreSafe`, because the code's behaviour there is undefined.
- Arithmetic.Transpose: inputs on which `s21_transpose` reads an invalid buffer, or dereferences a NULL result for a 1x1 input, are excluded by `TransposeIsSafe`, for the same reason. In the status-2 case the model keeps the [[0]] result the code leaves behind.
- Laplace.InverseMatrix: the model proves A times its inverse, and the inverse times A, are the identity only for sizes 1 and 2, and double inversion only for size 1. The general statement needs the full theory of determinants (multilinearity, expansion along any row). The cofactor form of the result is stated for every size.
- Mis-shaped buffers: a non-NULL buffer that holds fewer entries than `rows` x `columns` passes `is_correct_matrix` (src/s21_matrix.c:120), which only tests for NULL. The model cannot tell such a buffer from NULL, so it treats both as invalid. On the paths that stop before reading the buffer, the model therefore reports INCORRECT_MATRIX where the code reports CALC_ERROR: the non-square checks of `s21_determinant` (line 420), `s21_calc_complements` (lines 378 and 381) and `s21_inverse_matrix` (line 509), the shape check of `calc_errors` (line 150) and the column/row check of `s21_mult_matrix` (line 299).
- Aliasing: a result pointer that is the same matrix as an operand is not modelled, because a result is the boolean `slot` and not a pointer. In that case the code reads the operand after `s21_create_matrix` (src/s21_matrix.c:33-41) has replaced its buffer with a zeroed one. For example, `s21_calc_complements(&A, &A)` returns an all-zero matrix, `s21_inverse_matrix(&A, &A)` on a 1x1 matrix divides by 0, and `s21_sum_matrix(&A, &B, &A)` returns B.
- Arithmetic.SumMatrix: takes a `Matrix`, not an `Option<Matrix>`, for A and B, so a NULL operand (dereferenced at line 215 of src/s21_matrix.c) is ruled out by the parameter type rather than by `SumReadsAreSafe`.
- Arithmetic.Transpose: takes a `Matrix`, not an `Option<Matrix>`, for A, so a NULL operand (dereferenced at line 339 of src/s21_matrix.c) is ruled out by the parameter type rather than by `TransposeIsSafe`.
- Laplace.Expand: the loop's property, that from column j with sign (-1)^j it adds exactly the remaining first-row terms, is stated by the lemma `Laplace.ExpandAddsTerms` rather than by the function's own contract.
- Laplace.Det: the fixed work buffer `local` of `get_determinant` is not modelled separately. Each minor is a fresh grid built with the same index mapping that `GetMinor` is proved to produce.
- A result half-filled by an operation that fails midway is not modelled. In the model a failing operation (other than the status-2 transpose) leaves no result.
- The 4x4 sample matrix of the cofactor and inverse tests is given row by row (`IsSample`) rather than as one literal.
