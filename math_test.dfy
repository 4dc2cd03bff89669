/**
 * The source's own test: a translation by (1, 2, 3) composed with a uniform
 * scale by 2 sends the point (3, 3, 3) to (7, 8, 9).
 */
module MathTest {
  import opened Vectors
  import opened Matrix
  import opened MatrixLaws

  /** The expected value of `(translate(1, 2, 3) * scale(2, 2, 2)) * (3, 3, 3, 1)`. */
  lemma ScaleThenTranslate()
    ensures MatVec(MatMul(Translate(1.0, 2.0, 3.0), Scale(2.0, 2.0, 2.0)), [3.0, 3.0, 3.0, 1.0])
         == [7.0, 8.0, 9.0, 1.0]
  {
    var v: Vec4 := [3.0, 3.0, 3.0, 1.0];
    MatVecCompose(Translate(1.0, 2.0, 3.0), Scale(2.0, 2.0, 2.0), v);
    ScaleAction(2.0, 2.0, 2.0, v);
    TranslatePoint(1.0, 2.0, 3.0, 6.0, 6.0, 6.0);
  }

  /** `test_math`: the two products computed by the loops yield the expected point. */
  method TestMath() returns (got: Vec4)
    ensures got == [7.0, 8.0, 9.0, 1.0]
  {
    var scale := Scale(2.0, 2.0, 2.0);
    var trans := Translate(1.0, 2.0, 3.0);
    var combined := Mul(trans, scale);
    got := MulVec(combined, [3.0, 3.0, 3.0, 1.0]);
    ScaleThenTranslate();
  }
}
