/**
 * The fixed-size vectors Vec3 and Vec4, both produced by one size-generic macro.
 *
 * A vector VALUE is a sequence of its components (what `&self` methods see and
 * what is copied around). A vector PLACE, the storage that a `&mut self` method
 * changes in place, is an `array<real>` of the same length. Reading component
 * `i` of either is Dafny's own selection `v[i]`, whose range condition
 * `0 <= i < |v|` the verifier checks at every use, as the source's bounds-checked
 * indexing does at run time.
 */
module Vectors {

  type Vec3 = v: seq<real> | |v| == 3 witness [0.0, 0.0, 0.0]
  type Vec4 = v: seq<real> | |v| == 4 witness [0.0, 0.0, 0.0, 0.0]

  /** `zero()`: the vector of `size` components, every one of them 0. */
  function Zero(size: nat): (v: seq<real>)
    ensures |v| == size
    ensures forall i :: 0 <= i < size ==> v[i] == 0.0
  {
    seq(size, _ => 0.0)
  }

  /**
   * The sum of the pairwise products u[k] * w[k], accumulated from the first
   * component to the last, as the source's summing loops do.
   */
  function Dot(u: seq<real>, w: seq<real>): real
    requires |u| == |w|
    decreases |u|
  {
    if |u| == 0 then 0.0
    else Dot(u[..|u| - 1], w[..|w| - 1]) + u[|u| - 1] * w[|w| - 1]
  }

  /** One more step of the accumulation: the prefix of length k + 1 adds u[k] * w[k]. */
  lemma DotSnoc(u: seq<real>, w: seq<real>, k: int)
    requires |u| == |w|
    requires 0 <= k < |u|
    ensures Dot(u[..k + 1], w[..k + 1]) == Dot(u[..k], w[..k]) + u[k] * w[k]
  {
    assert u[..k + 1][..k] == u[..k];
    assert w[..k + 1][..k] == w[..k];
  }

  /** For four components the accumulation is the familiar four-term sum. */
  lemma Dot4(u: seq<real>, w: seq<real>)
    requires |u| == 4 && |w| == 4
    ensures Dot(u, w) == u[0] * w[0] + u[1] * w[1] + u[2] * w[2] + u[3] * w[3]
  {
    assert u[..4] == u && w[..4] == w;
    DotSnoc(u, w, 3);
    DotSnoc(u, w, 2);
    DotSnoc(u, w, 1);
    DotSnoc(u, w, 0);
  }

  /** A sum of squares is never negative. */
  lemma {:induction false} DotSelfNonNegative(v: seq<real>)
    ensures Dot(v, v) >= 0.0
    decreases |v|
  {
    if |v| > 0 {
      var n := |v| - 1;
      DotSelfNonNegative(v[..n]);
    }
  }

  /**
   * The dot product with a unit vector e (1 at position i, 0 elsewhere) picks
   * out component i of the other vector, on either side.
   */
  lemma {:induction false} DotUnit(e: seq<real>, w: seq<real>, i: int)
    requires |e| == |w|
    requires forall k :: 0 <= k < |e| ==> e[k] == if k == i then 1.0 else 0.0
    ensures Dot(e, w) == (if 0 <= i < |w| then w[i] else 0.0)
    ensures Dot(w, e) == (if 0 <= i < |w| then w[i] else 0.0)
    decreases |e|
  {
    if |e| > 0 {
      var n := |e| - 1;
      DotUnit(e[..n], w[..n], i);
      if 0 <= i < n {
        assert w[..n][i] == w[i];
      }
    }
  }

  /** `length_squared()`: the sum of the squares of the components, accumulated in a loop. */
  method LengthSquared(v: seq<real>) returns (sum: real)
    ensures sum == Dot(v, v)
    ensures sum >= 0.0
  {
    sum := 0.0;
    for i := 0 to |v|
      invariant sum == Dot(v[..i], v[..i])
    {
      DotSnoc(v, v, i);
      sum := sum + v[i] * v[i];
    }
    assert v[..|v|] == v;
    DotSelfNonNegative(v);
  }

  /** Binds a vector value to a fresh mutable place, as `let mut result = value;` does. */
  method NewPlace(v: seq<real>) returns (p: array<real>)
    ensures fresh(p)
    ensures p[..] == v
  {
    p := new real[|v|](i requires 0 <= i < |v| => v[i]);
  }

  /**
   * `index_mut(i)` followed by a store through the returned slot: only
   * component i changes, and reading it back yields the stored value.
   */
  method Set(v: array<real>, i: int, x: real)
    requires 0 <= i < v.Length
    modifies v
    ensures v[i] == x
    ensures forall k :: 0 <= k < v.Length && k != i ==> v[k] == old(v[k])
  {
    v[i] := x;
  }

  /**
   * `normalize()`: divides every component by the vector's length, in place.
   * The length is read once before the loop; the square root that yields it
   * is outside this model, so it is passed in, pinned down by the two facts
   * that define it (non-negative, and its square is the length squared).
   * A zero length is excluded: the source divides by it anyway and produces
   * non-finite components.
   */
  method Normalize(v: array<real>, length: real)
    requires length >= 0.0 && length * length == Dot(v[..], v[..])
    requires length != 0.0
    modifies v
    ensures forall k :: 0 <= k < v.Length ==> v[k] == old(v[k]) / length
  {
    for i := 0 to v.Length
      invariant forall k :: 0 <= k < i ==> v[k] == old(v[k]) / length
      invariant forall k :: i <= k < v.Length ==> v[k] == old(v[k])
    {
      Set(v, i, v[i] / length);
    }
  }
}
