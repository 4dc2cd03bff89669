/**
 * The algebra that the Mat4 constructors and products obey: the identity is a
 * unit on both sides of the product, the constructors are special cases of one
 * another, each transform acts on a homogeneous vector as its name says, and
 * applying a product is applying its factors in turn.
 */
module MatrixLaws {
  import opened Vectors
  import opened Matrix

  /** Row i of the identity is the i-th unit vector, and so is column i. */
  lemma IdentityUnits(i: int)
    requires 0 <= i < 4
    ensures forall k :: 0 <= k < 4 ==> Identity()[i][k] == if k == i then 1.0 else 0.0
    ensures forall k :: 0 <= k < 4 ==> Col(Identity(), i)[k] == if k == i then 1.0 else 0.0
  {
  }

  /** Two four-component vectors with the same components are equal. */
  lemma Vec4Extensionality(u: Vec4, w: Vec4)
    requires u[0] == w[0] && u[1] == w[1] && u[2] == w[2] && u[3] == w[3]
    ensures u == w
  {
  }

  /** `identity() * m == m`. */
  lemma MulIdentityLeft(m: Mat4)
    ensures MatMul(Identity(), m) == m
  {
    var p := MatMul(Identity(), m);
    forall i, j | 0 <= i < 4 && 0 <= j < 4 ensures p[i][j] == m[i][j] {
      IdentityUnits(i);
      DotUnit(Identity()[i], Col(m, j), i);
    }
    Extensionality(p, m);
  }

  /** `m * identity() == m`. */
  lemma MulIdentityRight(m: Mat4)
    ensures MatMul(m, Identity()) == m
  {
    var p := MatMul(m, Identity());
    forall i, j | 0 <= i < 4 && 0 <= j < 4 ensures p[i][j] == m[i][j] {
      IdentityUnits(j);
      DotUnit(Col(Identity(), j), m[i], j);
    }
    Extensionality(p, m);
  }

  /** `identity() * v == v`. */
  lemma MatVecIdentity(v: Vec4)
    ensures MatVec(Identity(), v) == v
  {
    forall i | 0 <= i < 4 ensures MatVec(Identity(), v)[i] == v[i] {
      IdentityUnits(i);
      DotUnit(Identity()[i], v, i);
    }
  }

  /** Scaling by 1 on every axis is the identity. */
  lemma ScaleOneIsIdentity()
    ensures Scale(1.0, 1.0, 1.0) == Identity()
  {
  }

  /** Translating by 0 on every axis is the identity. */
  lemma TranslateZeroIsIdentity()
    ensures Translate(0.0, 0.0, 0.0) == Identity()
  {
  }

  /** A rotation by angle 0 (cosine 1, sine 0) about any axis is the identity. */
  lemma RotateZeroIsIdentity()
    ensures RotateX(1.0, 0.0) == Identity()
    ensures RotateY(1.0, 0.0) == Identity()
    ensures RotateZ(1.0, 0.0) == Identity()
  {
  }

  /** `scale(x, y, z) * [a, b, c, w] == [x*a, y*b, z*c, w]`. */
  lemma ScaleAction(x: real, y: real, z: real, p: Vec4)
    ensures MatVec(Scale(x, y, z), p) == [x * p[0], y * p[1], z * p[2], p[3]]
  {
    var m := Scale(x, y, z);
    Dot4(m[0], p);
    Dot4(m[1], p);
    Dot4(m[2], p);
    Dot4(m[3], p);
    Vec4Extensionality(MatVec(m, p), [x * p[0], y * p[1], z * p[2], p[3]]);
  }

  /**
   * `translate(x, y, z) * [a, b, c, w] == [a + x*w, b + y*w, c + z*w, w]`:
   * a point (w = 1) moves by (x, y, z), a direction (w = 0) does not move.
   */
  lemma TranslateAction(x: real, y: real, z: real, p: Vec4)
    ensures MatVec(Translate(x, y, z), p) == [p[0] + x * p[3], p[1] + y * p[3], p[2] + z * p[3], p[3]]
  {
    var m := Translate(x, y, z);
    Dot4(m[0], p);
    Dot4(m[1], p);
    Dot4(m[2], p);
    Dot4(m[3], p);
    Vec4Extensionality(MatVec(m, p), [p[0] + x * p[3], p[1] + y * p[3], p[2] + z * p[3], p[3]]);
  }

  /** `translate(x, y, z) * [a, b, c, 1] == [a + x, b + y, c + z, 1]`. */
  lemma TranslatePoint(x: real, y: real, z: real, a: real, b: real, c: real)
    ensures MatVec(Translate(x, y, z), [a, b, c, 1.0]) == [a + x, b + y, c + z, 1.0]
  {
    TranslateAction(x, y, z, [a, b, c, 1.0]);
  }

  /**
   * Exchanging the order of a double sum over 4 × 4 terms:
   * the sum over k of (the sum over l of x[l] * r_l[k]) * v[k] equals
   * the sum over l of x[l] * (the sum over k of r_l[k] * v[k]).
   */
  lemma SumExchange(x: Vec4, r0: Vec4, r1: Vec4, r2: Vec4, r3: Vec4, v: Vec4)
    ensures (x[0] * r0[0] + x[1] * r1[0] + x[2] * r2[0] + x[3] * r3[0]) * v[0]
          + (x[0] * r0[1] + x[1] * r1[1] + x[2] * r2[1] + x[3] * r3[1]) * v[1]
          + (x[0] * r0[2] + x[1] * r1[2] + x[2] * r2[2] + x[3] * r3[2]) * v[2]
          + (x[0] * r0[3] + x[1] * r1[3] + x[2] * r2[3] + x[3] * r3[3]) * v[3]
         == x[0] * (r0[0] * v[0] + r0[1] * v[1] + r0[2] * v[2] + r0[3] * v[3])
          + x[1] * (r1[0] * v[0] + r1[1] * v[1] + r1[2] * v[2] + r1[3] * v[3])
          + x[2] * (r2[0] * v[0] + r2[1] * v[1] + r2[2] * v[2] + r2[3] * v[3])
          + x[3] * (r3[0] * v[0] + r3[1] * v[1] + r3[2] * v[2] + r3[3] * v[3])
  {
  }

  /** Component i of `(a * b) * v` equals component i of `a * (b * v)`. */
  lemma MatVecComposeAt(a: Mat4, b: Mat4, v: Vec4, i: int)
    requires 0 <= i < 4
    ensures MatVec(MatMul(a, b), v)[i] == MatVec(a, MatVec(b, v))[i]
  {
    var ab := MatMul(a, b);
    var bv := MatVec(b, v);
    Dot4(ab[i], v);
    Dot4(a[i], bv);
    Dot4(a[i], Col(b, 0));
    Dot4(a[i], Col(b, 1));
    Dot4(a[i], Col(b, 2));
    Dot4(a[i], Col(b, 3));
    Dot4(b[0], v);
    Dot4(b[1], v);
    Dot4(b[2], v);
    Dot4(b[3], v);
    SumExchange(a[i], b[0], b[1], b[2], b[3], v);
  }

  /** Applying a product applies its right factor first: `(a * b) * v == a * (b * v)`. */
  lemma MatVecCompose(a: Mat4, b: Mat4, v: Vec4)
    ensures MatVec(MatMul(a, b), v) == MatVec(a, MatVec(b, v))
  {
    forall i | 0 <= i < 4 ensures MatVec(MatMul(a, b), v)[i] == MatVec(a, MatVec(b, v))[i] {
      MatVecComposeAt(a, b, v, i);
    }
  }

  /** Column j of a product is the left factor applied to column j of the right factor. */
  lemma ColOfProduct(b: Mat4, c: Mat4, j: int)
    requires 0 <= j < 4
    ensures Col(MatMul(b, c), j) == MatVec(b, Col(c, j))
  {
  }

  /** The product is associative: `(a * b) * c == a * (b * c)`. */
  lemma MulAssociative(a: Mat4, b: Mat4, c: Mat4)
    ensures MatMul(MatMul(a, b), c) == MatMul(a, MatMul(b, c))
  {
    var left := MatMul(MatMul(a, b), c);
    var right := MatMul(a, MatMul(b, c));
    forall i, j | 0 <= i < 4 && 0 <= j < 4 ensures left[i][j] == right[i][j] {
      MatVecComposeAt(a, b, Col(c, j), i);
      ColOfProduct(b, c, j);
    }
    Extensionality(left, right);
  }

  /** Every entry of the product of two matrices, written out as a four-term sum. */
  lemma MatMulEntries(a: Mat4, b: Mat4)
    ensures forall i, j :: 0 <= i < 4 && 0 <= j < 4 ==>
      MatMul(a, b)[i][j] == a[i][0] * b[0][j] + a[i][1] * b[1][j] + a[i][2] * b[2][j] + a[i][3] * b[3][j]
  {
    forall i, j | 0 <= i < 4 && 0 <= j < 4
      ensures MatMul(a, b)[i][j] == a[i][0] * b[0][j] + a[i][1] * b[1][j] + a[i][2] * b[2][j] + a[i][3] * b[3][j]
    {
      Dot4(a[i], Col(b, j));
    }
  }

  /** The product of two matrices written out entry by entry. */
  lemma MatMulExpanded(a: Mat4, b: Mat4)
    ensures MatMul(a, b) ==
      [[a[0][0] * b[0][0] + a[0][1] * b[1][0] + a[0][2] * b[2][0] + a[0][3] * b[3][0],
        a[0][0] * b[0][1] + a[0][1] * b[1][1] + a[0][2] * b[2][1] + a[0][3] * b[3][1],
        a[0][0] * b[0][2] + a[0][1] * b[1][2] + a[0][2] * b[2][2] + a[0][3] * b[3][2],
        a[0][0] * b[0][3] + a[0][1] * b[1][3] + a[0][2] * b[2][3] + a[0][3] * b[3][3]],
       [a[1][0] * b[0][0] + a[1][1] * b[1][0] + a[1][2] * b[2][0] + a[1][3] * b[3][0],
        a[1][0] * b[0][1] + a[1][1] * b[1][1] + a[1][2] * b[2][1] + a[1][3] * b[3][1],
        a[1][0] * b[0][2] + a[1][1] * b[1][2] + a[1][2] * b[2][2] + a[1][3] * b[3][2],
        a[1][0] * b[0][3] + a[1][1] * b[1][3] + a[1][2] * b[2][3] + a[1][3] * b[3][3]],
       [a[2][0] * b[0][0] + a[2][1] * b[1][0] + a[2][2] * b[2][0] + a[2][3] * b[3][0],
        a[2][0] * b[0][1] + a[2][1] * b[1][1] + a[2][2] * b[2][1] + a[2][3] * b[3][1],
        a[2][0] * b[0][2] + a[2][1] * b[1][2] + a[2][2] * b[2][2] + a[2][3] * b[3][2],
        a[2][0] * b[0][3] + a[2][1] * b[1][3] + a[2][2] * b[2][3] + a[2][3] * b[3][3]],
       [a[3][0] * b[0][0] + a[3][1] * b[1][0] + a[3][2] * b[2][0] + a[3][3] * b[3][0],
        a[3][0] * b[0][1] + a[3][1] * b[1][1] + a[3][2] * b[2][1] + a[3][3] * b[3][1],
        a[3][0] * b[0][2] + a[3][1] * b[1][2] + a[3][2] * b[2][2] + a[3][3] * b[3][2],
        a[3][0] * b[0][3] + a[3][1] * b[1][3] + a[3][2] * b[2][3] + a[3][3] * b[3][3]]]
  {
    MatMulEntries(a, b);
    var p := MatMul(a, b);
    Vec4Extensionality(p[0], [a[0][0] * b[0][0] + a[0][1] * b[1][0] + a[0][2] * b[2][0] + a[0][3] * b[3][0], a[0][0] * b[0][1] + a[0][1] * b[1][1] + a[0][2] * b[2][1] + a[0][3] * b[3][1], a[0][0] * b[0][2] + a[0][1] * b[1][2] + a[0][2] * b[2][2] + a[0][3] * b[3][2], a[0][0] * b[0][3] + a[0][1] * b[1][3] + a[0][2] * b[2][3] + a[0][3] * b[3][3]]);
    Vec4Extensionality(p[1], [a[1][0] * b[0][0] + a[1][1] * b[1][0] + a[1][2] * b[2][0] + a[1][3] * b[3][0], a[1][0] * b[0][1] + a[1][1] * b[1][1] + a[1][2] * b[2][1] + a[1][3] * b[3][1], a[1][0] * b[0][2] + a[1][1] * b[1][2] + a[1][2] * b[2][2] + a[1][3] * b[3][2], a[1][0] * b[0][3] + a[1][1] * b[1][3] + a[1][2] * b[2][3] + a[1][3] * b[3][3]]);
    Vec4Extensionality(p[2], [a[2][0] * b[0][0] + a[2][1] * b[1][0] + a[2][2] * b[2][0] + a[2][3] * b[3][0], a[2][0] * b[0][1] + a[2][1] * b[1][1] + a[2][2] * b[2][1] + a[2][3] * b[3][1], a[2][0] * b[0][2] + a[2][1] * b[1][2] + a[2][2] * b[2][2] + a[2][3] * b[3][2], a[2][0] * b[0][3] + a[2][1] * b[1][3] + a[2][2] * b[2][3] + a[2][3] * b[3][3]]);
    Vec4Extensionality(p[3], [a[3][0] * b[0][0] + a[3][1] * b[1][0] + a[3][2] * b[2][0] + a[3][3] * b[3][0], a[3][0] * b[0][1] + a[3][1] * b[1][1] + a[3][2] * b[2][1] + a[3][3] * b[3][1], a[3][0] * b[0][2] + a[3][1] * b[1][2] + a[3][2] * b[2][2] + a[3][3] * b[3][2], a[3][0] * b[0][3] + a[3][1] * b[1][3] + a[3][2] * b[2][3] + a[3][3] * b[3][3]]);
  }

  /** A matrix whose four rows are those of the identity is the identity. */
  lemma IdentityByRows(m: Mat4)
    requires m[0][0] == 1.0 && m[0][1] == 0.0 && m[0][2] == 0.0 && m[0][3] == 0.0
    requires m[1][0] == 0.0 && m[1][1] == 1.0 && m[1][2] == 0.0 && m[1][3] == 0.0
    requires m[2][0] == 0.0 && m[2][1] == 0.0 && m[2][2] == 1.0 && m[2][3] == 0.0
    requires m[3][0] == 0.0 && m[3][1] == 0.0 && m[3][2] == 0.0 && m[3][3] == 1.0
    ensures m == Identity()
  {
    Vec4Extensionality(m[0], Identity()[0]);
    Vec4Extensionality(m[1], Identity()[1]);
    Vec4Extensionality(m[2], Identity()[2]);
    Vec4Extensionality(m[3], Identity()[3]);
  }

  /**
   * For a genuine angle (c*c + s*s == 1), rotating about the x-axis by the
   * angle and then by its opposite (cosine c, sine -s), in either order, is
   * the identity.
   */
  lemma RotateXInverse(c: real, s: real)
    requires c * c + s * s == 1.0
    ensures MatMul(RotateX(c, s), RotateX(c, -s)) == Identity()
    ensures MatMul(RotateX(c, -s), RotateX(c, s)) == Identity()
  {
    MatMulExpanded(RotateX(c, s), RotateX(c, -s));
    assert MatMul(RotateX(c, s), RotateX(c, -s))[1][1] == c * c + (-s) * (-s) == 1.0;
    assert MatMul(RotateX(c, s), RotateX(c, -s))[1][2] == c * s + (-s) * c == 0.0;
    assert MatMul(RotateX(c, s), RotateX(c, -s))[2][1] == s * c + c * (-s) == 0.0;
    assert MatMul(RotateX(c, s), RotateX(c, -s))[2][2] == s * s + c * c == 1.0;
    IdentityByRows(MatMul(RotateX(c, s), RotateX(c, -s)));
    MatMulExpanded(RotateX(c, -s), RotateX(c, s));
    assert MatMul(RotateX(c, -s), RotateX(c, s))[1][1] == c * c + s * s == 1.0;
    assert MatMul(RotateX(c, -s), RotateX(c, s))[1][2] == c * (-s) + s * c == 0.0;
    assert MatMul(RotateX(c, -s), RotateX(c, s))[2][1] == (-s) * c + c * s == 0.0;
    assert MatMul(RotateX(c, -s), RotateX(c, s))[2][2] == (-s) * (-s) + c * c == 1.0;
    IdentityByRows(MatMul(RotateX(c, -s), RotateX(c, s)));
  }

  /** As RotateXInverse, about the y-axis. */
  lemma RotateYInverse(c: real, s: real)
    requires c * c + s * s == 1.0
    ensures MatMul(RotateY(c, s), RotateY(c, -s)) == Identity()
    ensures MatMul(RotateY(c, -s), RotateY(c, s)) == Identity()
  {
    MatMulExpanded(RotateY(c, s), RotateY(c, -s));
    assert MatMul(RotateY(c, s), RotateY(c, -s))[0][0] == c * c + s * s == 1.0;
    assert MatMul(RotateY(c, s), RotateY(c, -s))[0][2] == c * (-s) + s * c == 0.0;
    assert MatMul(RotateY(c, s), RotateY(c, -s))[2][0] == (-s) * c + c * s == 0.0;
    assert MatMul(RotateY(c, s), RotateY(c, -s))[2][2] == (-s) * (-s) + c * c == 1.0;
    IdentityByRows(MatMul(RotateY(c, s), RotateY(c, -s)));
    MatMulExpanded(RotateY(c, -s), RotateY(c, s));
    assert MatMul(RotateY(c, -s), RotateY(c, s))[0][0] == c * c + (-s) * (-s) == 1.0;
    assert MatMul(RotateY(c, -s), RotateY(c, s))[0][2] == c * s + (-s) * c == 0.0;
    assert MatMul(RotateY(c, -s), RotateY(c, s))[2][0] == s * c + c * (-s) == 0.0;
    assert MatMul(RotateY(c, -s), RotateY(c, s))[2][2] == s * s + c * c == 1.0;
    IdentityByRows(MatMul(RotateY(c, -s), RotateY(c, s)));
  }

  /** As RotateXInverse, about the z-axis. */
  lemma RotateZInverse(c: real, s: real)
    requires c * c + s * s == 1.0
    ensures MatMul(RotateZ(c, s), RotateZ(c, -s)) == Identity()
    ensures MatMul(RotateZ(c, -s), RotateZ(c, s)) == Identity()
  {
    MatMulExpanded(RotateZ(c, s), RotateZ(c, -s));
    assert MatMul(RotateZ(c, s), RotateZ(c, -s))[0][0] == c * c + (-s) * (-s) == 1.0;
    assert MatMul(RotateZ(c, s), RotateZ(c, -s))[0][1] == c * s + (-s) * c == 0.0;
    assert MatMul(RotateZ(c, s), RotateZ(c, -s))[1][0] == s * c + c * (-s) == 0.0;
    assert MatMul(RotateZ(c, s), RotateZ(c, -s))[1][1] == s * s + c * c == 1.0;
    IdentityByRows(MatMul(RotateZ(c, s), RotateZ(c, -s)));
    MatMulExpanded(RotateZ(c, -s), RotateZ(c, s));
    assert MatMul(RotateZ(c, -s), RotateZ(c, s))[0][0] == c * c + s * s == 1.0;
    assert MatMul(RotateZ(c, -s), RotateZ(c, s))[0][1] == c * (-s) + s * c == 0.0;
    assert MatMul(RotateZ(c, -s), RotateZ(c, s))[1][0] == (-s) * c + c * s == 0.0;
    assert MatMul(RotateZ(c, -s), RotateZ(c, s))[1][1] == (-s) * (-s) + c * c == 1.0;
    IdentityByRows(MatMul(RotateZ(c, -s), RotateZ(c, s)));
  }
}
