/** Jacobian assembly for one constraint direction: the linear and angular
    blocks for body A and, when present, body B. */
module Jacobian {
  import opened Vectors
  import opened ContactTypes

  /** Contact point relative to a body's centre of mass (`c1`, `c2`). */
  function LeverArm(p: Vec3, b: Body): Vec3
  {
    Sub(p, b.pos)
  }

  /** Velocity of the material point of rigid body `b` that sits at `p`. */
  function PointVelocity(b: Body, p: Vec3): Vec3
  {
    Add(b.lvel, Cross(b.avel, LeverArm(p, b)))
  }

  /** Velocity of body A's contact point relative to body B's (or to the
      static world when body B is absent). */
  function RelativeVelocity(p: Vec3, b1: Body, b2: Option<Body>): Vec3
  {
    match b2
    case None => PointVelocity(b1, p)
    case Some(b) => Sub(PointVelocity(b1, p), PointVelocity(b, p))
  }

  /** `J v` for one row: the blocks of body A against its velocities, plus
      those of body B when it exists (the sum formed for the bounce test). */
  function RowSpeed(row: Row, b1: Body, b2: Option<Body>): (v: real)
    ensures b2.None? ==> v == Dot(row.j1l, b1.lvel) + Dot(row.j1a, b1.avel)
    ensures b2.Some? ==> v == Dot(row.j1l, b1.lvel) + Dot(row.j1a, b1.avel)
                              + Dot(row.j2l, b2.value.lvel) + Dot(row.j2a, b2.value.avel)
  {
    Dot(row.j1l, b1.lvel) + Dot(row.j1a, b1.avel)
    + match b2
      case None => 0.0
      case Some(b) => Dot(row.j2l, b.lvel) + Dot(row.j2a, b.avel)
  }

  /** True when `r` carries the Jacobian for direction `d` at contact point
      `p`, and keeps `before`'s body-B blocks when there is no body B. */
  predicate JacobianFor(r: Row, before: Row, d: Vec3, p: Vec3, b1: Body, b2: Option<Body>)
  {
    && r.j1l == d
    && r.j1a == Cross(LeverArm(p, b1), d)
    && match b2
       case None => r.j2l == before.j2l && r.j2a == before.j2a
       case Some(b) => r.j2l == Neg(d) && r.j2a == Neg(Cross(LeverArm(p, b), d))
  }

  /** Writes the four Jacobian blocks of one row for direction `d`; every
      other entry of the row is left as it was. */
  function WriteJacobian(row: Row, d: Vec3, p: Vec3, b1: Body, b2: Option<Body>): (r: Row)
    ensures JacobianFor(r, row, d, p, b1, b2)
    ensures r.(j1l := row.j1l, j1a := row.j1a, j2l := row.j2l, j2a := row.j2a) == row
  {
    var r1 := row.(j1l := d, j1a := Cross(LeverArm(p, b1), d));
    match b2
    case None => r1
    case Some(b) => r1.(j2l := Neg(d), j2a := Neg(Cross(LeverArm(p, b), d)))
  }

  /** What a contact row means to the solver: applied to the bodies'
      velocities it gives the relative velocity of the contact point along
      `d`. Also the angular blocks are orthogonal to `d`, and with two bodies
      the linear blocks cancel (equal and opposite forces). */
  lemma JacobianMeaning(r: Row, before: Row, d: Vec3, p: Vec3, b1: Body, b2: Option<Body>)
    requires JacobianFor(r, before, d, p, b1, b2)
    ensures RowSpeed(r, b1, b2) == Dot(d, RelativeVelocity(p, b1, b2))
    ensures Dot(r.j1a, d) == 0.0
    ensures b2.Some? ==> Add(r.j1l, r.j2l) == Zero && Dot(r.j2a, d) == 0.0
  {
    var c1 := LeverArm(p, b1);
    TripleProduct(c1, d, b1.avel);
    TripleProduct(b1.avel, c1, d);
    CrossOrthogonal(c1, d);
    match b2
    case None =>
    case Some(b) =>
      var c2 := LeverArm(p, b);
      TripleProduct(c2, d, b.avel);
      TripleProduct(b.avel, c2, d);
      CrossOrthogonal(c2, d);
  }
}
