/**
 * The three-component vectors of the camera (`Vector3` of cuon-matrix), as
 * values with exact real components. `add`, `sub` and `mul` update a
 * `Vector3` in place and return it; the model returns the new value instead.
 */
module Vectors {
  datatype Vec3 = Vec3(x: real, y: real, z: real)

  /** `a.add(b)`: componentwise sum. */
  function Add(a: Vec3, b: Vec3): Vec3
  {
    Vec3(a.x + b.x, a.y + b.y, a.z + b.z)
  }

  /** `a.sub(b)`: componentwise difference. */
  function Sub(a: Vec3, b: Vec3): (r: Vec3)
    ensures Add(b, r) == a
  {
    Vec3(a.x - b.x, a.y - b.y, a.z - b.z)
  }

  /** `v.mul(k)`: every component times k. */
  function Mul(v: Vec3, k: real): (r: Vec3)
    ensures k == 1.0 ==> r == v
    ensures k == 0.0 ==> r == Zero
  {
    Vec3(v.x * k, v.y * k, v.z * k)
  }

  /** `Vector3.cross(a, b)`. */
  function Cross(a: Vec3, b: Vec3): Vec3
  {
    Vec3(a.y * b.z - a.z * b.y, a.z * b.x - a.x * b.z, a.x * b.y - a.y * b.x)
  }

  function Dot(a: Vec3, b: Vec3): real
  {
    a.x * b.x + a.y * b.y + a.z * b.z
  }

  const Zero: Vec3 := Vec3(0.0, 0.0, 0.0)

  /** The sum is commutative and associative, with the zero vector as identity: the order of camera moves does not matter. */
  lemma AddLaws(a: Vec3, b: Vec3, c: Vec3)
    ensures Add(a, b) == Add(b, a)
    ensures Add(Add(a, b), c) == Add(a, Add(b, c))
    ensures Add(a, Zero) == a
  {
  }

  /**
   * Scaling distributes over the factor and composes by multiplication, and it
   * scales the squared length by k * k, so a unit direction scaled by the speed
   * has length |speed|.
   */
  lemma MulLaws(v: Vec3, k: real, j: real)
    ensures Add(Mul(v, k), Mul(v, j)) == Mul(v, k + j)
    ensures Mul(Mul(v, k), j) == Mul(v, k * j)
    ensures Dot(Mul(v, k), Mul(v, k)) == k * k * Dot(v, v)
  {
    assert v.x * k * j == v.x * (k * j) && v.y * k * j == v.y * (k * j) && v.z * k * j == v.z * (k * j);
    calc {
      Dot(Mul(v, k), Mul(v, k));
      (v.x * k) * (v.x * k) + (v.y * k) * (v.y * k) + (v.z * k) * (v.z * k);
      k * k * (v.x * v.x) + k * k * (v.y * v.y) + k * k * (v.z * v.z);
      k * k * (v.x * v.x + v.y * v.y + v.z * v.z);
      k * k * Dot(v, v);
    }
  }

  /** Moving two points by the same offset keeps the vector between them. */
  lemma TranslationKeepsDifference(a: Vec3, b: Vec3, d: Vec3)
    ensures Sub(Add(a, d), Add(b, d)) == Sub(a, b)
  {
  }

  /** Subtracting b and adding it back is the identity. */
  lemma SubThenAdd(a: Vec3, b: Vec3)
    ensures Add(Sub(a, b), b) == a
  {
  }

  /** The cross product is orthogonal to both its factors. */
  lemma CrossOrthogonal(a: Vec3, b: Vec3)
    ensures Dot(Cross(a, b), a) == 0.0 && Dot(Cross(a, b), b) == 0.0
  {
  }

  /** The two directions of a move cancel: `mul(k)` then `mul(-k)` offsets sum to zero. */
  lemma OppositeMovesCancel(v: Vec3, k: real, p: Vec3)
    ensures Add(Add(p, Mul(v, k)), Mul(v, -k)) == p
  {
  }
}
