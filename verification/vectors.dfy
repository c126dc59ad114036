/** Three-component vectors over the reals and the few primitives the
    constraint builder uses (`dCalcVectorCross3`, `dCalcVectorDot3`,
    `dSubtractVectors3`, `dNegateVector3`). The unused fourth padding
    component of `dVector3` is not modelled. */
module Vectors {

  datatype Vec3 = Vec3(x: real, y: real, z: real)

  const Zero: Vec3 := Vec3(0.0, 0.0, 0.0)

  function Add(a: Vec3, b: Vec3): Vec3
  {
    Vec3(a.x + b.x, a.y + b.y, a.z + b.z)
  }

  function Sub(a: Vec3, b: Vec3): Vec3
  {
    Vec3(a.x - b.x, a.y - b.y, a.z - b.z)
  }

  function Neg(a: Vec3): Vec3
  {
    Vec3(-a.x, -a.y, -a.z)
  }

  function Dot(a: Vec3, b: Vec3): real
  {
    a.x * b.x + a.y * b.y + a.z * b.z
  }

  /** `a × b`, as `dCalcVectorCross3(res, a, b)` stores it in `res`. */
  function Cross(a: Vec3, b: Vec3): Vec3
  {
    Vec3(a.y * b.z - a.z * b.y,
         a.z * b.x - a.x * b.z,
         a.x * b.y - a.y * b.x)
  }

  /** A cross product is orthogonal to both of its factors. */
  lemma CrossOrthogonal(a: Vec3, b: Vec3)
    ensures Dot(Cross(a, b), a) == 0.0
    ensures Dot(Cross(a, b), b) == 0.0
  {
  }

  /** Scalar triple product: `(a × b) · c == a · (b × c)`. */
  lemma TripleProduct(a: Vec3, b: Vec3, c: Vec3)
    ensures Dot(Cross(a, b), c) == Dot(a, Cross(b, c))
  {
  }
}
