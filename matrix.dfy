/**
 * The 4×4 matrix Mat4, stored as four rows of four entries: `m[i][j]` is the
 * entry at outer index i and inner index j, and the outer index acts as the
 * row throughout (translations sit in m[0][3], m[1][3], m[2][3]; a product
 * entry pairs row i of the left operand with column j of the right one).
 *
 * A Mat4 VALUE is a sequence of four Vec4 rows; a Mat4 PLACE, the storage that
 * `index_mut` writes through, is a 4×4 `array2<real>`. Reading row i of a value
 * is Dafny's own selection `m[i]`, bounds-checked by the verifier.
 */
module Matrix {
  import opened Vectors

  const ZeroRow: Vec4 := [0.0, 0.0, 0.0, 0.0]

  type Mat4 = m: seq<Vec4> | |m| == 4 witness [ZeroRow, ZeroRow, ZeroRow, ZeroRow]

  /** `Mat4::zero()`: all sixteen entries are 0. */
  function Zero(): (m: Mat4)
    ensures forall i, j :: 0 <= i < 4 && 0 <= j < 4 ==> m[i][j] == 0.0
  {
    [[0.0, 0.0, 0.0, 0.0],
     [0.0, 0.0, 0.0, 0.0],
     [0.0, 0.0, 0.0, 0.0],
     [0.0, 0.0, 0.0, 0.0]]
  }

  /** `Mat4::identity()`: 1 on the diagonal, 0 everywhere else. */
  function Identity(): (m: Mat4)
    ensures forall i, j :: 0 <= i < 4 && 0 <= j < 4 ==> m[i][j] == if i == j then 1.0 else 0.0
  {
    [[1.0, 0.0, 0.0, 0.0],
     [0.0, 1.0, 0.0, 0.0],
     [0.0, 0.0, 1.0, 0.0],
     [0.0, 0.0, 0.0, 1.0]]
  }

  /** `Mat4::scale(x, y, z)`: the diagonal is (x, y, z, 1), every other entry is 0. */
  function Scale(x: real, y: real, z: real): (m: Mat4)
    ensures forall i, j :: 0 <= i < 4 && 0 <= j < 4 && i != j ==> m[i][j] == 0.0
    ensures m[0][0] == x && m[1][1] == y && m[2][2] == z && m[3][3] == 1.0
  {
    [[x,   0.0, 0.0, 0.0],
     [0.0, y,   0.0, 0.0],
     [0.0, 0.0, z,   0.0],
     [0.0, 0.0, 0.0, 1.0]]
  }

  /**
   * `Mat4::translate(x, y, z)`: the identity except that the last entries of
   * the first three rows hold x, y and z.
   */
  function Translate(x: real, y: real, z: real): (m: Mat4)
    ensures forall i, j :: 0 <= i < 4 && 0 <= j < 4 && !(i < 3 && j == 3) ==>
      m[i][j] == if i == j then 1.0 else 0.0
    ensures m[0][3] == x && m[1][3] == y && m[2][3] == z
  {
    [[1.0, 0.0, 0.0, x  ],
     [0.0, 1.0, 0.0, y  ],
     [0.0, 0.0, 1.0, z  ],
     [0.0, 0.0, 0.0, 1.0]]
  }

  /*
   * The rotations. The source takes an angle and computes its cosine and
   * sine; here those two values are the parameters c and s.
   */

  /** `Mat4::rotate_x(angle)` with c = cos(angle), s = sin(angle). */
  function RotateX(c: real, s: real): Mat4
  {
    [[1.0, 0.0, 0.0, 0.0],
     [0.0, c,   -s,  0.0],
     [0.0, s,   c,   0.0],
     [0.0, 0.0, 0.0, 1.0]]
  }

  /** `Mat4::rotate_y(angle)` with c = cos(angle), s = sin(angle). */
  function RotateY(c: real, s: real): Mat4
  {
    [[c,   0.0, s,   0.0],
     [0.0, 1.0, 0.0, 0.0],
     [-s,  0.0, c,   0.0],
     [0.0, 0.0, 0.0, 1.0]]
  }

  /** `Mat4::rotate_z(angle)` with c = cos(angle), s = sin(angle). */
  function RotateZ(c: real, s: real): Mat4
  {
    [[c,   -s,  0.0, 0.0],
     [s,   c,   0.0, 0.0],
     [0.0, 0.0, 1.0, 0.0],
     [0.0, 0.0, 0.0, 1.0]]
  }

  /** Column j: the entries m[k][j] for k = 0..3. */
  function Col(m: Mat4, j: int): Vec4
    requires 0 <= j < 4
  {
    seq(4, k requires 0 <= k < 4 => m[k][j])
  }

  /** The matrix product: entry (i, j) is the sum over k of a[i][k] * b[k][j]. */
  function MatMul(a: Mat4, b: Mat4): Mat4
  {
    seq(4, i requires 0 <= i < 4 => seq(4, j requires 0 <= j < 4 => Dot(a[i], Col(b, j))))
  }

  /** The matrix-vector product: component i is the sum over j of m[i][j] * v[j]. */
  function MatVec(m: Mat4, v: Vec4): Vec4
  {
    seq(4, i requires 0 <= i < 4 => Dot(m[i], v))
  }

  /** Two matrices with the same sixteen entries are equal. */
  lemma Extensionality(m: Mat4, n: Mat4)
    requires forall i, j :: 0 <= i < 4 && 0 <= j < 4 ==> m[i][j] == n[i][j]
    ensures m == n
  {
    forall i | 0 <= i < 4 ensures m[i] == n[i] {
      assert forall j :: 0 <= j < 4 ==> m[i][j] == n[i][j];
    }
  }

  /** A mutable place for a Mat4: a 4×4 array, row i being p[i, 0..3]. */
  predicate IsPlace(p: array2<real>)
  {
    p.Length0 == 4 && p.Length1 == 4
  }

  /** The Mat4 value a place currently holds. */
  function Contents(p: array2<real>): (m: Mat4)
    requires IsPlace(p)
    reads p
  {
    seq(4, i requires 0 <= i < 4 reads p => seq(4, j requires 0 <= j < 4 reads p => p[i, j]))
  }

  /** Binds a Mat4 value to a fresh mutable place, as `let mut result = value;` does. */
  method NewPlace(m: Mat4) returns (p: array2<real>)
    ensures fresh(p) && IsPlace(p)
    ensures forall i, j :: 0 <= i < 4 && 0 <= j < 4 ==> p[i, j] == m[i][j]
  {
    p := new real[4, 4]((i, j) requires 0 <= i < 4 && 0 <= j < 4 => m[i][j]);
  }

  /**
   * `index_mut(i)` followed by a store of a whole row: row i becomes `row`,
   * the other rows keep their entries.
   */
  method SetRow(p: array2<real>, i: int, row: Vec4)
    requires IsPlace(p)
    requires 0 <= i < 4
    modifies p
    ensures forall r, c :: 0 <= r < 4 && 0 <= c < 4 ==>
      p[r, c] == if r == i then row[c] else old(p[r, c])
  {
    forall c | 0 <= c < 4 {
      p[i, c] := row[c];
    }
  }

  /**
   * `index_mut(i)` followed by a store into entry j of the returned row, as
   * in `result[i][j] = x`: only entry (i, j) changes.
   */
  method SetEntry(p: array2<real>, i: int, j: int, x: real)
    requires IsPlace(p)
    requires 0 <= i < 4 && 0 <= j < 4
    modifies p
    ensures p[i, j] == x
    ensures forall r, c :: 0 <= r < 4 && 0 <= c < 4 && (r != i || c != j) ==> p[r, c] == old(p[r, c])
  {
    p[i, j] := x;
  }

  /**
   * `Mat4 * Mat4`: starting from the zero matrix, accumulates
   * `result[i][j] += self[i][k] * other[k][j]` in a triple loop.
   */
  method Mul(a: Mat4, b: Mat4) returns (r: Mat4)
    ensures forall i, j :: 0 <= i < 4 && 0 <= j < 4 ==> r[i][j] == Dot(a[i], Col(b, j))
    ensures r == MatMul(a, b)
  {
    var result := NewPlace(Zero());
    for i := 0 to 4
      invariant forall p, q :: 0 <= p < i && 0 <= q < 4 ==> result[p, q] == Dot(a[p], Col(b, q))
      invariant forall p, q :: i <= p < 4 && 0 <= q < 4 ==> result[p, q] == 0.0
    {
      for j := 0 to 4
        invariant forall p, q :: 0 <= p < i && 0 <= q < 4 ==> result[p, q] == Dot(a[p], Col(b, q))
        invariant forall q :: 0 <= q < j ==> result[i, q] == Dot(a[i], Col(b, q))
        invariant forall p, q :: (p == i && j <= q < 4) || (i < p < 4 && 0 <= q < 4) ==> result[p, q] == 0.0
      {
        for k := 0 to 4
          invariant forall p, q :: 0 <= p < i && 0 <= q < 4 ==> result[p, q] == Dot(a[p], Col(b, q))
          invariant forall q :: 0 <= q < j ==> result[i, q] == Dot(a[i], Col(b, q))
          invariant result[i, j] == Dot(a[i][..k], Col(b, j)[..k])
          invariant forall p, q :: (p == i && j < q < 4) || (i < p < 4 && 0 <= q < 4) ==> result[p, q] == 0.0
        {
          DotSnoc(a[i], Col(b, j), k);
          SetEntry(result, i, j, result[i, j] + a[i][k] * b[k][j]);
        }
        assert a[i][..4] == a[i] && Col(b, j)[..4] == Col(b, j);
      }
    }
    r := Contents(result);
    Extensionality(r, MatMul(a, b));
  }

  /**
   * `Mat4 * Vec4`: starting from the zero vector, accumulates
   * `result[i] += self[i][j] * vec[j]` in a double loop.
   */
  method MulVec(m: Mat4, v: Vec4) returns (r: Vec4)
    ensures forall i :: 0 <= i < 4 ==> r[i] == Dot(m[i], v)
    ensures r == MatVec(m, v)
  {
    var result := Vectors.NewPlace(Vectors.Zero(4));
    for i := 0 to 4
      invariant forall p :: 0 <= p < i ==> result[p] == Dot(m[p], v)
      invariant forall p :: i <= p < 4 ==> result[p] == 0.0
    {
      for j := 0 to 4
        invariant forall p :: 0 <= p < i ==> result[p] == Dot(m[p], v)
        invariant result[i] == Dot(m[i][..j], v[..j])
        invariant forall p :: i < p < 4 ==> result[p] == 0.0
      {
        DotSnoc(m[i], v, j);
        Set(result, i, result[i] + m[i][j] * v[j]);
      }
      assert m[i][..4] == m[i] && v[..4] == v;
    }
    r := result[..];
  }
}
