/** Three-vectors and 3x3 matrices over the reals, standing for the numpy
    arrays of the control pipeline, and the element-wise clamp. */
module Vectors {

  /** A numpy array of shape (3,). */
  type Vec3 = v: seq<real> | |v| == 3 witness [0.0, 0.0, 0.0]

  /** A numpy array of shape (3, 3), stored row by row. */
  type Mat3 = m: seq<Vec3> | |m| == 3 witness [Zero, Zero, Zero]

  const Zero: Vec3 := [0.0, 0.0, 0.0]

  /** The third canonical basis vector. */
  const E3: Vec3 := [0.0, 0.0, 1.0]

  const Identity: Mat3 := [[1.0, 0.0, 0.0], [0.0, 1.0, 0.0], [0.0, 0.0, 1.0]]

  /** Two vectors with the same three components are equal. */
  lemma Vec3Equal(a: Vec3, b: Vec3)
    requires a[0] == b[0] && a[1] == b[1] && a[2] == b[2]
    ensures a == b
  {
  }

  /** Two four-element sequences with the same elements are equal. */
  lemma Seq4Equal(a: seq<real>, b: seq<real>)
    requires |a| == 4 && |b| == 4
    requires a[0] == b[0] && a[1] == b[1] && a[2] == b[2] && a[3] == b[3]
    ensures a == b
  {
  }

  function Add(a: Vec3, b: Vec3): Vec3 {
    [a[0] + b[0], a[1] + b[1], a[2] + b[2]]
  }

  function Sub(a: Vec3, b: Vec3): Vec3 {
    [a[0] - b[0], a[1] - b[1], a[2] - b[2]]
  }

  function Scale(k: real, a: Vec3): Vec3 {
    [k * a[0], k * a[1], k * a[2]]
  }

  /** Element-wise (Hadamard) product, numpy's `a * b` on two arrays. */
  function Hadamard(a: Vec3, b: Vec3): Vec3 {
    [a[0] * b[0], a[1] * b[1], a[2] * b[2]]
  }

  function Dot(a: Vec3, b: Vec3): real {
    a[0] * b[0] + a[1] * b[1] + a[2] * b[2]
  }

  /** numpy.dot of a matrix and a vector. */
  function MatVec(m: Mat3, v: Vec3): Vec3 {
    [Dot(m[0], v), Dot(m[1], v), Dot(m[2], v)]
  }

  function Min(a: real, b: real): real { if a <= b then a else b }

  function Max(a: real, b: real): real { if a >= b then a else b }

  /** numpy.clip(x, lo, hi), which numpy computes as minimum(maximum(x, lo), hi). */
  function Clip(x: real, lo: real, hi: real): (r: real)
    ensures lo <= hi ==> lo <= r <= hi
    ensures lo <= hi ==> r == (if x < lo then lo else if x > hi then hi else x)
    ensures hi < lo ==> r == hi
  {
    Min(Max(x, lo), hi)
  }
}
