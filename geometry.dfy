// Points of fractal space and of the voxel grid, and the one comparison the
// evaluators make against a square root.

module Geometry {

  /** A point of fractal space (irrlicht's v3f and the evaluators' double triples), over the reals. */
  datatype Vec3 = Vec3(x: real, y: real, z: real)

  /** An integer voxel coordinate (v3s16). */
  datatype V3s = V3s(x: int, y: int, z: int)

  const Zero: Vec3 := Vec3(0.0, 0.0, 0.0)

  function Abs(a: real): real
  {
    if a < 0.0 then -a else a
  }

  /** Squared Euclidean length x*x + y*y + z*z. */
  function Norm2(v: Vec3): real
  {
    v.x * v.x + v.y * v.y + v.z * v.z
  }

  lemma Norm2Expanded(x: real, y: real, z: real)
    ensures Norm2(Vec3(x, y, z)) == x * x + y * y + z * z
  {
  }

  /** `sqrt(s2) < t`, written without the square root. */
  predicate SqrtLess(s2: real, t: real)
  {
    t > 0.0 && s2 < t * t
  }

  /** Strict monotonicity of the product of non-negative reals. */
  lemma MulStrict(x1: real, y1: real, x2: real, y2: real)
    requires 0.0 <= x1 < x2 && 0.0 <= y1 < y2
    ensures x1 * y1 < x2 * y2
  {
    assert x1 * y1 <= x2 * y1;
    assert x2 * y1 < x2 * y2;
  }

  /** The squared form agrees with the comparison against any non-negative root of `s2`. */
  lemma SqrtLessSound(s2: real, root: real, t: real)
    requires root >= 0.0 && root * root == s2
    ensures SqrtLess(s2, t) <==> root < t
  {
    if root < t {
      MulStrict(root, root, t, t);
    } else if t > 0.0 && t < root {
      MulStrict(t, t, root, root);
    }
  }

  /** Dividing by a positive q preserves the comparison with t scaled by q. */
  lemma QuotientLess(a: real, q: real, t: real)
    requires q > 0.0
    ensures a / q < t <==> a < t * q
  {
    var c := a / q;
    assert c * q == a;
    if c < t {
      assert c * q < t * q;
    } else {
      assert c * q >= t * q;
    }
  }
}
