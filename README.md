# A verified model of the gl-test math module

`gl-test/src/math.rs` is a small fixed-size linear-algebra module for an
OpenGL test program. It has:

- two vectors, `Vec3` and `Vec4`, generated by one macro (`define_vec!`);
- a 4×4 matrix `Mat4`, with its named constructors, row indexing, and the
  two products `Mat4 * Mat4` and `Mat4 * Vec4`.

This project models that module in Dafny and proves its algebra.

- `vectors.dfy` (module `Vectors`): the macro body.
  - `zero` and `length_squared`, plus `normalize`, `index` and `index_mut`.
  - `Dot` is the left-to-right sum of pairwise products. It is the specification the summing loops are proved against.
- `matrix.dfy` (module `Matrix`): `Mat4`.
  - The constructors.
  - The reference product functions `MatMul` and `MatVec`.
  - Models of `index_mut` on a 4×4 place.
  - The two `Mul` loops, as methods proved equal to `MatMul` and `MatVec`.
- `matrix_laws.dfy` (module `MatrixLaws`): the algebra the constructors and products obey.
  - Identity laws, the constructors as special cases of one another, and the action of scale and translate on a point.
  - Composition (`(a * b) * v == a * (b * v)`) and associativity.
  - Every rotation undone by the opposite rotation.
- `math_test.dfy` (module `MathTest`): the module's own unit test, proved for all runs.

Representation:

- `GLfloat` is `real`.
- A vector value is a `seq<real>` of length 3 or 4. A matrix value is a sequence of four `Vec4` rows.
- The operations that change something in place (`normalize`, `index_mut` and the accumulator inside each `Mul`) work on a place:
  - an `array<real>` for a vector;
  - a 4×4 `array2<real>` for a matrix.
- `index` (reading) is Dafny's own selection `v[i]` / `m[i]`. The verifier checks its bound `0 <= i < size` wherever it is used, just as the source panics out of range.

Matrix layout follows the code: in `m[i][j]` the outer index `i` acts as the
row. Examples:

- `translate` puts x, y and z in `m[0][3]`, `m[1][3]` and `m[2][3]`.
- A product entry is `Σ_k self[i][k] * other[k][j]`.
- `Mat4 * Vec4` is `Σ_j self[i][j] * vec[j]`.

A column-major description, with the translation in `m[3][0..3]` and products
summed over `self[k][r] * other[c][k]`, does not match this file. The model
follows the file as written.

## Model

| member | source | states |
|---|---|---|
| Vectors.Zero | gl-test/src/math.rs:13-15 | the zero vector has exactly `size` components and every one is 0 |
| Vectors.LengthSquared | gl-test/src/math.rs:19-27 | the loop's `sum` is the sum of the squares of all components (`Dot(v, v)`), accumulated first to last, and is never negative |
| Vectors.DotSelfNonNegative | gl-test/src/math.rs:19-27 | a sum of squares of any number of components is ≥ 0 |
| Vectors.Normalize | gl-test/src/math.rs:35-41 | given the vector's non-zero length (non-negative, with square equal to the length squared), every component becomes its old value divided by that one length; the size is unchanged |
| Vectors.Set | gl-test/src/math.rs:52-56 | a store through `index_mut(i)` needs `0 <= i < size`; reading `i` afterwards gives the stored value and every other component keeps its old value |
| Vectors.NewPlace | gl-test/src/math.rs:179 | `let mut result = …` yields a fresh place holding exactly the given components |
| Matrix.Zero | gl-test/src/math.rs:67-74 | all sixteen entries are 0 |
| Matrix.Identity | gl-test/src/math.rs:76-83 | entry (i, j) is 1 when i == j and 0 otherwise |
| Matrix.Scale | gl-test/src/math.rs:85-92 | off-diagonal entries are 0; the diagonal is x, y, z, 1 |
| Matrix.Translate | gl-test/src/math.rs:94-101 | identity entries everywhere except m[0][3], m[1][3], m[2][3], which hold x, y, z |
| Matrix.NewPlace | gl-test/src/math.rs:161 | `let mut result = Mat4::zero()` yields a fresh 4×4 place holding exactly the given entries |
| Matrix.SetRow | gl-test/src/math.rs:151-155 | storing a whole row through `index_mut(i)` replaces row i and leaves the other rows unchanged |
| Matrix.SetEntry | gl-test/src/math.rs:151-155 | `result[i][j] = x` through `index_mut(i)` changes entry (i, j) to x and no other entry |
| Matrix.Mul | gl-test/src/math.rs:157-173 | the triple loop yields `r[i][j] == Σ_k a[i][k] * b[k][j]` for every entry, i.e. `r == MatMul(a, b)` |
| Matrix.MulVec | gl-test/src/math.rs:175-189 | the double loop yields `r[i] == Σ_j m[i][j] * v[j]` for every component, i.e. `r == MatVec(m, v)` |
| MatrixLaws.MatMulEntries | gl-test/src/math.rs:163-169 | every product entry is the four-term sum `a[i][0]*b[0][j] + … + a[i][3]*b[3][j]` |
| MatrixLaws.MulIdentityLeft | gl-test/src/math.rs:157-173 | `identity() * m == m` for every m |
| MatrixLaws.MulIdentityRight | gl-test/src/math.rs:157-173 | `m * identity() == m` for every m |
| MatrixLaws.MatVecIdentity | gl-test/src/math.rs:175-189 | `identity() * v == v` for every v |
| MatrixLaws.ScaleOneIsIdentity | gl-test/src/math.rs:85-92 | `scale(1, 1, 1) == identity()` |
| MatrixLaws.TranslateZeroIsIdentity | gl-test/src/math.rs:94-101 | `translate(0, 0, 0) == identity()` |
| MatrixLaws.RotateZeroIsIdentity | gl-test/src/math.rs:104-140 | each rotation by angle 0 (cosine 1, sine 0) is `identity()` |
| MatrixLaws.ScaleAction | gl-test/src/math.rs:85-92 | `scale(x, y, z) * [a, b, c, w] == [x*a, y*b, z*c, w]` |
| MatrixLaws.TranslateAction | gl-test/src/math.rs:94-101 | `translate(x, y, z) * [a, b, c, w] == [a + x*w, b + y*w, c + z*w, w]`: directions (w = 0) are not moved |
| MatrixLaws.TranslatePoint | gl-test/src/math.rs:94-101 | `translate(x, y, z) * [a, b, c, 1] == [a + x, b + y, c + z, 1]` |
| MatrixLaws.MatVecCompose | gl-test/src/math.rs:157-189 | applying a product is applying its factors in turn: `(a * b) * v == a * (b * v)` |
| MatrixLaws.ColOfProduct | gl-test/src/math.rs:157-189 | column j of `b * c` is `b` applied to column j of `c` |
| MatrixLaws.MulAssociative | gl-test/src/math.rs:157-173 | `(a * b) * c == a * (b * c)` |
| MatrixLaws.MatMulExpanded | gl-test/src/math.rs:163-169 | the whole product, written out as sixteen four-term sums |
| MatrixLaws.RotateXInverse | gl-test/src/math.rs:104-114 | when c² + s² = 1, rotating about x by the angle and by its opposite, in either order, gives `identity()` |
| MatrixLaws.RotateYInverse | gl-test/src/math.rs:117-127 | as above, about y |
| MatrixLaws.RotateZInverse | gl-test/src/math.rs:130-140 | as above, about z |
| MathTest.ScaleThenTranslate | gl-test/src/math.rs:191-201 | `(translate(1, 2, 3) * scale(2, 2, 2)) * [3, 3, 3, 1] == [7, 8, 9, 1]` for the reference products |
| MathTest.TestMath | gl-test/src/math.rs:191-201 | the loop implementations of the two products return exactly `[7, 8, 9, 1]` for the test's inputs |

## Left out

- `length` (gl-test/src/math.rs:30-32) takes a square root, which is not modelled. `Normalize` therefore receives the length as a parameter, pinned down as the non-negative number whose square is the length squared.
- No claim is made that a normalized vector has length 1.
- Vectors.Normalize: requires a non-zero length. The source divides by zero anyway and gets non-finite components, which `real` cannot express.
- `rotate_x`, `rotate_y` and `rotate_z` compute `cos` and `sin` of the angle. Here those two values are the parameters `c` and `s`, and the rotations are plain entry layouts.
  - The inverse laws assume c² + s² = 1, which the real cosine and sine satisfy.
- The `TAU` constant and the `gl::types` import (gl-test/src/math.rs:1-5) carry no logic.
- IEEE-754 single precision is not modelled (rounding, overflow, NaN, infinities, signed zeros). Every property holds exactly over the reals, and the summation order of the loops is kept.
- Vectors.LengthSquared: does not state that the result is 0 only for the zero vector; only non-negativity is proved.
- The derived `Copy`, `Clone`, `Debug` and `PartialEq` impls are not modelled. Dafny's value equality of sequences stands in for `PartialEq`.
- `index` on vectors and matrices is not a separate member. It is Dafny's bounds-checked selection on the value.
- `look_at` and `perspective` are not part of this file and are not modelled.
