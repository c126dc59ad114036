/** Right-hand side of the normal row: Baumgarte-style penetration
    correction, the maximum correcting velocity cap, and restitution. */
module Bias {
  import opened ExtReal

  /** Penetration beyond the world's minimum depth, never negative. */
  function Penetration(depth: real, minDepth: real): (d: real)
    ensures d >= 0.0
    ensures d >= depth - minDepth
    ensures d == 0.0 || d == depth - minDepth
  {
    var x := depth - minDepth;
    if x < 0.0 then 0.0 else x
  }

  /** The cap on the correcting velocity: a value above `maxVel` is
      replaced by `maxVel`; an infinite `maxVel` disables the cap. */
  function CapBias(pushout: real, maxVel: EReal): (r: EReal)
    ensures Le(r, maxVel) && Le(r, Fin(pushout))
    ensures r == Fin(pushout) || r == maxVel
    ensures maxVel == PosInf ==> r == Fin(pushout)
    ensures r == Min(Fin(pushout), maxVel)
  {
    if Lt(maxVel, Fin(pushout)) then maxVel else Fin(pushout)
  }

  /** Normal-row bias before bounce: `k` times the clamped penetration plus
      the target normal velocity, capped at `maxVel`. */
  function NormalBias(k: real, depth: real, minDepth: real, motionN: real, maxVel: EReal): (r: EReal)
    ensures var pushout := k * Penetration(depth, minDepth) + motionN;
            && Le(r, maxVel) && Le(r, Fin(pushout))
            && (r == maxVel || r == Fin(pushout))
    ensures maxVel == PosInf && depth >= minDepth ==> r == Fin(k * (depth - minDepth) + motionN)
    ensures depth <= minDepth ==> r == CapBias(motionN, maxVel)
  {
    var pen := Penetration(depth, minDepth);
    assert depth >= minDepth ==> pen == depth - minDepth;
    CapBias(k * pen + motionN, maxVel)
  }

  /** Restitution. `speed` is the normal row applied to the bodies'
      velocities; the outgoing velocity is `speed - motionN`. When the
      threshold is nonnegative and the incoming speed exceeds it, the bias
      becomes the larger of itself and `-bounce * outgoing + motionN`. */
  function ApplyBounce(c0: EReal, speed: real, motionN: real, bounce: real, bounceVel: real): (r: EReal)
    ensures Le(c0, r)
    ensures r != c0 ==> bounceVel >= 0.0 && -(speed - motionN) > bounceVel
    ensures r != c0 ==> r == Fin(-bounce * (speed - motionN) + motionN)
    ensures bounceVel >= 0.0 && -(speed - motionN) > bounceVel ==>
              Le(Fin(-bounce * (speed - motionN) + motionN), r)
  {
    var outgoing := speed - motionN;
    if bounceVel >= 0.0 && -outgoing > bounceVel then
      var newc := -bounce * outgoing + motionN;
      if Lt(c0, Fin(newc)) then Fin(newc) else c0
    else
      c0
  }

  lemma MulLeftMonotone(k: real, a: real, b: real)
    requires k >= 0.0 && a <= b
    ensures k * a <= k * b
  {
    assert k * b - k * a == k * (b - a);
  }

  lemma CapBiasMonotone(p1: real, p2: real, maxVel: EReal)
    requires p1 <= p2
    ensures Le(CapBias(p1, maxVel), CapBias(p2, maxVel))
  {
  }

  /** Deeper penetration never yields a smaller bias, for a nonnegative
      gain `k = fps * erp`. */
  lemma NormalBiasMonotone(k: real, d1: real, d2: real, minDepth: real, motionN: real, maxVel: EReal)
    requires k >= 0.0 && d1 <= d2
    ensures Le(NormalBias(k, d1, minDepth, motionN, maxVel), NormalBias(k, d2, minDepth, motionN, maxVel))
  {
    var x1 := Penetration(d1, minDepth);
    var x2 := Penetration(d2, minDepth);
    assert x1 <= x2;
    MulLeftMonotone(k, x1, x2);
    CapBiasMonotone(k * x1 + motionN, k * x2 + motionN, maxVel);
  }

  /** At or below the minimum depth and without a normal motion target,
      the bias is 0 unless the velocity cap is negative, in which case it
      is the cap. */
  lemma ShallowContactBias(k: real, depth: real, minDepth: real, maxVel: EReal)
    requires depth <= minDepth
    ensures Le(Fin(0.0), maxVel) ==> NormalBias(k, depth, minDepth, 0.0, maxVel) == Fin(0.0)
    ensures Lt(maxVel, Fin(0.0)) ==> NormalBias(k, depth, minDepth, 0.0, maxVel) == maxVel
  {
    assert Penetration(depth, minDepth) == 0.0;
  }

  /** Bounce can lift the bias above the velocity cap: the cap applies to
      the penetration correction only. */
  lemma BounceCanExceedCap()
    ensures var c0 := NormalBias(10.0, 1.0, 0.0, 0.0, Fin(1.0));
            c0 == Fin(1.0) && ApplyBounce(c0, -4.0, 0.0, 0.5, 0.1) == Fin(2.0)
  {
  }
}
