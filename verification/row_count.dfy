/** Row-count policy of the contact joint (`getSureMaxInfo`, `getInfo1`). */
module RowCount {
  import opened ExtReal
  import opened ContactTypes

  /** `getSureMaxInfo`: an upper bound on the rows this joint may request. */
  function GetSureMaxInfo(): (maxM: int)
    ensures forall j: ContactJoint :: GetInfo1(j).1.m <= maxM
  {
    MaxRows
  }

  /** A negative friction coefficient is silently replaced by zero. */
  function ClampFriction(mu: EReal): (r: EReal)
    ensures Le(Fin(0.0), r)
    ensures Positive(r) <==> Positive(mu)
    ensures r == PosInf <==> mu == PosInf
    ensures Le(Fin(0.0), mu) ==> r == mu
  {
    if Lt(mu, Fin(0.0)) then Fin(0.0) else mu
  }

  /** The surface coefficients `getInfo2` may read as bounds are nonnegative. */
  predicate FrictionNormalised(s: Surface)
  {
    Le(Fin(0.0), s.mu) && (Mu2 in s.mode ==> Le(Fin(0.0), s.mu2))
  }

  /** 1 if the predicate holds, else 0. */
  function Count(b: bool): int
  {
    if b then 1 else 0
  }

  /** `getInfo1`: clamps the friction coefficients, counts the rows and the
      unbounded rows, and caches the row count in the joint. The row counter
      starts at the normal row and is bumped once per active friction
      direction, in the order the source does it. */
  function GetInfo1(j: ContactJoint): (r: (ContactJoint, Info1))
    // row-count bounds
    ensures 1 <= r.1.m <= MaxRows
    ensures 0 <= r.1.nub <= r.1.m - 1
    ensures r.0.theM == Some(r.1.m)
    // the rule, stated on the caller's (unclamped) coefficients
    ensures Mu2 !in j.contact.surface.mode ==>
      && (r.1.m == 3 <==> Positive(j.contact.surface.mu))
      && (r.1.m == 1 <==> !Positive(j.contact.surface.mu))
      && (r.1.nub == 2 <==> j.contact.surface.mu == PosInf)
      && (r.1.nub == 0 <==> j.contact.surface.mu != PosInf)
    ensures Mu2 in j.contact.surface.mode ==>
      && r.1.m == 1 + Count(Positive(j.contact.surface.mu)) + Count(Positive(j.contact.surface.mu2))
      && r.1.nub == Count(j.contact.surface.mu == PosInf) + Count(j.contact.surface.mu2 == PosInf)
    // the only changes to the joint: clamped coefficients and the cache
    ensures FrictionNormalised(r.0.contact.surface)
    ensures r.0.contact.surface.mu == ClampFriction(j.contact.surface.mu)
    ensures Mu2 in j.contact.surface.mode ==> r.0.contact.surface.mu2 == ClampFriction(j.contact.surface.mu2)
    ensures FrictionNormalised(j.contact.surface) ==> r.0.contact == j.contact
    ensures r.0.contact.geom == j.contact.geom && r.0.contact.fdir1 == j.contact.fdir1
    ensures r.0.contact.surface.(mu := j.contact.surface.mu, mu2 := j.contact.surface.mu2) == j.contact.surface
    ensures Mu2 !in j.contact.surface.mode ==> r.0.contact.surface.mu2 == j.contact.surface.mu2
    ensures r.0.(contact := j.contact, theM := j.theM) == j
  {
    var s := j.contact.surface;
    var mu := ClampFriction(s.mu);
    var s1 := s.(mu := mu);
    var (s2, m, nub) :=
      if Mu2 in s.mode then
        var m1 := if Positive(mu) then 2 else 1;
        var mu2 := ClampFriction(s.mu2);
        var m2 := if Positive(mu2) then m1 + 1 else m1;
        var n1 := if mu == PosInf then 1 else 0;
        var n2 := if mu2 == PosInf then n1 + 1 else n1;
        (s1.(mu2 := mu2), m2, n2)
      else
        var m1 := if Positive(mu) then 3 else 1;
        var n1 := if mu == PosInf then 2 else 0;
        (s1, m1, n1);
    (j.(contact := j.contact.(surface := s2), theM := Some(m)), Info1(m, nub))
  }

  /** Calling `getInfo1` a second time reports the same counts and leaves
      the joint as the first call left it. */
  lemma GetInfo1Idempotent(j: ContactJoint)
    ensures GetInfo1(GetInfo1(j).0) == GetInfo1(j)
  {
    var (j1, i1) := GetInfo1(j);
    assert FrictionNormalised(j1.contact.surface);
    var (j2, i2) := GetInfo1(j1);
    assert j2.contact == j1.contact;
  }

  /** A frictionless contact (every coefficient the mode reads is at most
      zero) contributes the normal row only, and it is bounded. */
  lemma FrictionlessContactIsOneRow(j: ContactJoint)
    requires !Positive(j.contact.surface.mu)
    requires Mu2 in j.contact.surface.mode ==> !Positive(j.contact.surface.mu2)
    ensures GetInfo1(j).1 == Info1(1, 0)
  {
  }

  /** With a finite positive `mu` and no `Mu2` mode: three rows, all bounded. */
  lemma FiniteIsotropicFriction(j: ContactJoint)
    requires Mu2 !in j.contact.surface.mode
    requires j.contact.surface.mu.Fin? && j.contact.surface.mu.v > 0.0
    ensures GetInfo1(j).1 == Info1(3, 0)
  {
  }

  /** Infinite isotropic friction: three rows, both friction rows unbounded. */
  lemma InfiniteIsotropicFriction(j: ContactJoint)
    requires Mu2 !in j.contact.surface.mode
    requires j.contact.surface.mu == PosInf
    ensures GetInfo1(j).1 == Info1(3, 2)
  {
  }
}
