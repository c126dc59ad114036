/** Row assembly of the contact joint: `getInfo2` (full) and
    `simpleGetInfo2` (reduced). Each takes the rows the stepper handed to
    the joint and returns them with the joint's entries written; an entry
    the source does not write keeps its previous value. */
module Assembly {
  import opened ExtReal
  import opened Vectors
  import opened ContactTypes
  import opened Jacobian
  import opened Bias
  import opened RowCount

  /** The normal with the sign for the body order: flipped under `dJOINT_REVERSE`. */
  function ContactNormal(j: ContactJoint): (n: Vec3)
    ensures j.reverse ==> n == Neg(j.contact.geom.normal)
    ensures !j.reverse ==> n == j.contact.geom.normal
  {
    if j.reverse then Neg(j.contact.geom.normal) else j.contact.geom.normal
  }

  /** Friction directions: `fdir1` taken as is with `t2 = normal × t1` under
      `FDir1`, else whatever the plane-space routine returns for the normal. */
  function Tangents(j: ContactJoint, normal: Vec3, planeSpace: Vec3 -> Frame): (f: Frame)
    ensures FDir1 in j.contact.surface.mode ==>
              && f.t1 == j.contact.fdir1 && f.t2 == Cross(normal, f.t1)
              && Dot(f.t2, normal) == 0.0 && Dot(f.t2, f.t1) == 0.0
    ensures FDir1 !in j.contact.surface.mode ==> f == planeSpace(normal)
  {
    if FDir1 in j.contact.surface.mode then
      var t1 := j.contact.fdir1;
      CrossOrthogonal(normal, t1);
      Frame(t1, Cross(normal, t1))
    else
      planeSpace(normal)
  }

  /** The error reduction parameter `getInfo2` uses: the surface's own
      under `SoftERP`, else the joint's. */
  function ContactErp(j: ContactJoint): (erp: real)
    ensures SoftERP in j.contact.surface.mode ==> erp == j.contact.surface.softErp
    ensures SoftERP !in j.contact.surface.mode ==> erp == j.erp
  {
    if SoftERP in j.contact.surface.mode then j.contact.surface.softErp else j.erp
  }

  /** The constraint force mixing of the normal row. */
  function NormalCfm(j: ContactJoint): (cfm: real)
    ensures SoftCFM in j.contact.surface.mode ==> cfm == j.contact.surface.softCfm
    ensures SoftCFM !in j.contact.surface.mode ==> cfm == j.cfm
  {
    if SoftCFM in j.contact.surface.mode then j.contact.surface.softCfm else j.cfm
  }

  /** The target normal velocity: zero unless `MotionN` is set. */
  function MotionNormal(s: Surface): (v: real)
    ensures MotionN in s.mode ==> v == s.motionN
    ensures MotionN !in s.mode ==> v == 0.0
  {
    if MotionN in s.mode then s.motionN else 0.0
  }

  /** A value the row takes when the flag is set, nothing otherwise. */
  function When(b: bool, x: real): Option<real>
  {
    if b then Some(x) else None
  }

  /** Fills one friction row for direction `t`: Jacobian, the box
      `[-mu, mu]`, coupling to the normal row when `coupled`, and the
      right-hand side and CFM when they are given. */
  function FrictionRow(before: Row, t: Vec3, p: Vec3, b1: Body, b2: Option<Body>,
                       motion: Option<real>, mu: EReal, coupled: bool, cfm: Option<real>): (r: Row)
    ensures JacobianFor(r, before, t, p, b1, b2)
    ensures r.lo == Negate(mu) && r.hi == mu
    ensures r.findex == (if coupled then 0 else before.findex)
    ensures motion.Some? ==> r.c == Fin(motion.value)
    ensures motion.None? ==> r.c == before.c
    ensures cfm.Some? ==> r.cfm == cfm.value
    ensures cfm.None? ==> r.cfm == before.cfm
  {
    var r := WriteJacobian(before, t, p, b1, b2);
    r.(c := if motion.Some? then Fin(motion.value) else r.c,
       lo := Negate(mu),
       hi := mu,
       findex := if coupled then 0 else r.findex,
       cfm := if cfm.Some? then cfm.value else r.cfm)
  }

  /** Row 1 of `getInfo2`, along `t1`, bounded by `mu`. */
  function FirstFrictionRow(j: ContactJoint, t1: Vec3, before: Row): (r: Row)
    ensures var s := j.contact.surface;
      && JacobianFor(r, before, t1, j.contact.geom.pos, j.body1, j.body2)
      && r.lo == Negate(s.mu) && r.hi == s.mu
      && r.findex == (if Approx1_1 in s.mode then 0 else before.findex)
      && r.c == (if Motion1 in s.mode then Fin(s.motion1) else before.c)
      && r.cfm == (if Slip1 in s.mode then s.slip1 else j.cfm)
  {
    var s := j.contact.surface;
    FrictionRow(before, t1, j.contact.geom.pos, j.body1, j.body2, When(Motion1 in s.mode, s.motion1),
                s.mu, Approx1_1 in s.mode, Some(if Slip1 in s.mode then s.slip1 else j.cfm))
  }

  /** Row 2 of `getInfo2`, along `t2`, bounded by `mu2` under `Mu2` and by `mu` otherwise. */
  function SecondFrictionRow(j: ContactJoint, t2: Vec3, before: Row): (r: Row)
    ensures var s := j.contact.surface;
      && JacobianFor(r, before, t2, j.contact.geom.pos, j.body1, j.body2)
      && r.hi == (if Mu2 in s.mode then s.mu2 else s.mu) && r.lo == Negate(r.hi)
      && r.findex == (if Approx1_2 in s.mode then 0 else before.findex)
      && r.c == (if Motion2 in s.mode then Fin(s.motion2) else before.c)
      && r.cfm == (if Slip2 in s.mode then s.slip2 else j.cfm)
  {
    var s := j.contact.surface;
    FrictionRow(before, t2, j.contact.geom.pos, j.body1, j.body2, When(Motion2 in s.mode, s.motion2),
                if Mu2 in s.mode then s.mu2 else s.mu, Approx1_2 in s.mode,
                Some(if Slip2 in s.mode then s.slip2 else j.cfm))
  }

  /** The rows at or past `n` are those of `before`. */
  predicate UntouchedFrom(rows: seq<Row>, before: seq<Row>, n: int)
    requires |rows| == |before|
  {
    forall i :: 0 <= n <= i < |rows| ==> rows[i] == before[i]
  }

  /** The normal row of `getInfo2`: Jacobian along the (possibly reversed)
      normal, the push-only bound `[0, inf)`, the CFM, and the bias, which
      bounce may only raise above the capped penetration correction. */
  function NormalRow(j: ContactJoint, w: WorldParams, fps: real, before: Row): (r: Row)
    ensures JacobianFor(r, before, ContactNormal(j), j.contact.geom.pos, j.body1, j.body2)
    ensures r.lo == Fin(0.0) && r.hi == PosInf
    ensures r.cfm == NormalCfm(j)
    ensures r.findex == before.findex
    ensures Le(NormalBias(fps * ContactErp(j), j.contact.geom.depth, w.minDepth,
                          MotionNormal(j.contact.surface), w.maxVel), r.c)
    ensures Bounce !in j.contact.surface.mode ==>
              r.c == NormalBias(fps * ContactErp(j), j.contact.geom.depth, w.minDepth,
                                MotionNormal(j.contact.surface), w.maxVel)
    ensures Bounce in j.contact.surface.mode ==>
              r.c == ApplyBounce(NormalBias(fps * ContactErp(j), j.contact.geom.depth, w.minDepth,
                                            MotionNormal(j.contact.surface), w.maxVel),
                                 Dot(ContactNormal(j), RelativeVelocity(j.contact.geom.pos, j.body1, j.body2)),
                                 MotionNormal(j.contact.surface), j.contact.surface.bounce,
                                 j.contact.surface.bounceVel)
  {
    var s := j.contact.surface;
    var row := WriteJacobian(before, ContactNormal(j), j.contact.geom.pos, j.body1, j.body2);
    JacobianMeaning(row, before, ContactNormal(j), j.contact.geom.pos, j.body1, j.body2);
    var motionN := MotionNormal(s);
    var capped := NormalBias(fps * ContactErp(j), j.contact.geom.depth, w.minDepth, motionN, w.maxVel);
    var c0 :=
      if Bounce in s.mode then
        ApplyBounce(capped, RowSpeed(row, j.body1, j.body2), motionN, s.bounce, s.bounceVel)
      else capped;
    row.(c := c0, cfm := NormalCfm(j), lo := Fin(0.0), hi := PosInf)
  }

  /** `getInfo2`: the normal row always, the first friction row when the
      cached row count is at least 2, the second when it is 3; the friction
      directions come from `Tangents`. No other row is touched. */
  function GetInfo2(j: ContactJoint, w: WorldParams, info: Info2, planeSpace: Vec3 -> Frame): (r: Info2)
    requires j.theM.Some?
    requires |info.rows| >= RowsWritten(j.theM.value)
    ensures r.fps == info.fps && r.erp == info.erp && |r.rows| == |info.rows|
    ensures UntouchedFrom(r.rows, info.rows, RowsWritten(j.theM.value))
    ensures r.rows[0] == NormalRow(j, w, info.fps, info.rows[0])
    ensures j.theM.value >= 2 ==>
              r.rows[1] == FirstFrictionRow(j, Tangents(j, ContactNormal(j), planeSpace).t1, info.rows[1])
    ensures j.theM.value >= 3 ==>
              r.rows[2] == SecondFrictionRow(j, Tangents(j, ContactNormal(j), planeSpace).t2, info.rows[2])
  {
    var m := j.theM.value;
    var rows0 := info.rows[0 := NormalRow(j, w, info.fps, info.rows[0])];
    var f := if m >= 2 then Tangents(j, ContactNormal(j), planeSpace) else Frame(Zero, Zero);
    var rows1 := if m >= 2 then rows0[1 := FirstFrictionRow(j, f.t1, rows0[1])] else rows0;
    var rows2 := if m >= 3 then rows1[2 := SecondFrictionRow(j, f.t2, rows1[2])] else rows1;
    info.(rows := rows2)
  }

  /** `simpleGetInfo2`: no reverse flag, no minimum depth, no cap, no
      bounce, no motion or soft parameters, ERP from the stepper, the
      plane-space basis always, and both friction rows bounded by `mu`. */
  function SimpleGetInfo2(j: ContactJoint, info: Info2, planeSpace: Vec3 -> Frame): (r: Info2)
    requires j.theM.Some?
    requires |info.rows| >= RowsWritten(j.theM.value)
    ensures r.fps == info.fps && r.erp == info.erp && |r.rows| == |info.rows|
    ensures UntouchedFrom(r.rows, info.rows, RowsWritten(j.theM.value))
    ensures forall i :: 0 <= i < |r.rows| ==> r.rows[i].cfm == info.rows[i].cfm
    // normal row
    ensures JacobianFor(r.rows[0], info.rows[0], j.contact.geom.normal, j.contact.geom.pos, j.body1, j.body2)
    ensures r.rows[0].lo == Fin(0.0) && r.rows[0].hi == PosInf
    ensures r.rows[0].findex == info.rows[0].findex
    ensures r.rows[0].c == NormalBias(info.fps * info.erp, j.contact.geom.depth, 0.0, 0.0, PosInf)
    // friction rows
    ensures j.theM.value >= 2 ==>
      var row := r.rows[1];
      && JacobianFor(row, info.rows[1], planeSpace(j.contact.geom.normal).t1,
                     j.contact.geom.pos, j.body1, j.body2)
      && row.lo == Negate(j.contact.surface.mu) && row.hi == j.contact.surface.mu
      && row.findex == (if Approx1_1 in j.contact.surface.mode then 0 else info.rows[1].findex)
      && row.c == info.rows[1].c
    ensures j.theM.value >= 3 ==>
      var row := r.rows[2];
      && JacobianFor(row, info.rows[2], planeSpace(j.contact.geom.normal).t2,
                     j.contact.geom.pos, j.body1, j.body2)
      && row.lo == Negate(j.contact.surface.mu) && row.hi == j.contact.surface.mu
      && row.findex == (if Approx1_2 in j.contact.surface.mode then 0 else info.rows[2].findex)
      && row.c == info.rows[2].c
  {
    var s := j.contact.surface;
    var p := j.contact.geom.pos;
    var m := j.theM.value;
    var normal := j.contact.geom.normal;
    var row0 := WriteJacobian(info.rows[0], normal, p, j.body1, j.body2);
    var depth := if j.contact.geom.depth < 0.0 then 0.0 else j.contact.geom.depth;
    var c0 := Fin(info.fps * info.erp * depth);
    var rows0 := info.rows[0 := row0.(c := c0, lo := Fin(0.0), hi := PosInf)];
    var f := if m >= 2 then planeSpace(normal) else Frame(Zero, Zero);
    var rows1 :=
      if m >= 2 then
        rows0[1 := FrictionRow(rows0[1], f.t1, p, j.body1, j.body2, None, s.mu, Approx1_1 in s.mode, None)]
      else rows0;
    var rows2 :=
      if m >= 3 then
        rows1[2 := FrictionRow(rows1[2], f.t2, p, j.body1, j.body2, None, s.mu, Approx1_2 in s.mode, None)]
      else rows1;
    info.(rows := rows2)
  }
}
