/** Properties of the contact joint that relate several of its routines:
    the row count of `getInfo1` against the rows `getInfo2` fills, the
    reduced variant against the full one, and what the rows mean. */
module ContactProperties {
  import opened ExtReal
  import opened Vectors
  import opened ContactTypes
  import opened Jacobian
  import opened Bias
  import opened RowCount
  import opened Assembly
  import opened Layout

  /** Every row `getInfo2` writes, applied to the bodies' velocities, gives
      the relative velocity of the contact point along the row's direction:
      the normal for row 0, the friction directions for rows 1 and 2. */
  lemma RowsMeasureContactVelocity(j: ContactJoint, w: WorldParams, info: Info2, planeSpace: Vec3 -> Frame)
    requires j.theM.Some?
    requires |info.rows| >= RowsWritten(j.theM.value)
    ensures var r := GetInfo2(j, w, info, planeSpace);
            var f := Tangents(j, ContactNormal(j), planeSpace);
            var v := RelativeVelocity(j.contact.geom.pos, j.body1, j.body2);
            && RowSpeed(r.rows[0], j.body1, j.body2) == Dot(ContactNormal(j), v)
            && (j.theM.value >= 2 ==> RowSpeed(r.rows[1], j.body1, j.body2) == Dot(f.t1, v))
            && (j.theM.value >= 3 ==> RowSpeed(r.rows[2], j.body1, j.body2) == Dot(f.t2, v))
  {
    var r := GetInfo2(j, w, info, planeSpace);
    var f := Tangents(j, ContactNormal(j), planeSpace);
    var p := j.contact.geom.pos;
    JacobianMeaning(r.rows[0], info.rows[0], ContactNormal(j), p, j.body1, j.body2);
    if j.theM.value >= 2 {
      JacobianMeaning(r.rows[1], info.rows[1], f.t1, p, j.body1, j.body2);
    }
    if j.theM.value >= 3 {
      JacobianMeaning(r.rows[2], info.rows[2], f.t2, p, j.body1, j.body2);
    }
  }

  /** A friction row has a symmetric box with a nonnegative half-width. */
  predicate CoulombBox(row: Row)
  {
    row.lo == Negate(row.hi) && Le(Fin(0.0), row.hi)
  }

  /** Row 1 has a Coulomb box once the coefficients are nonnegative. */
  lemma FirstFrictionBox(j: ContactJoint, t1: Vec3, before: Row)
    requires FrictionNormalised(j.contact.surface)
    ensures CoulombBox(FirstFrictionRow(j, t1, before))
  {
    assert FirstFrictionRow(j, t1, before).hi == j.contact.surface.mu;
  }

  /** Row 2 has a Coulomb box once the coefficients are nonnegative. */
  lemma SecondFrictionBox(j: ContactJoint, t2: Vec3, before: Row)
    requires FrictionNormalised(j.contact.surface)
    ensures CoulombBox(SecondFrictionRow(j, t2, before))
  {
    var s := j.contact.surface;
    assert SecondFrictionRow(j, t2, before).hi == if Mu2 in s.mode then s.mu2 else s.mu;
  }

  /** After `getInfo1` has clamped the coefficients, every friction row
      `getInfo2` writes has a symmetric Coulomb box. */
  lemma FrictionBoxesSymmetric(j: ContactJoint, w: WorldParams, info: Info2, planeSpace: Vec3 -> Frame)
    requires |info.rows| >= GetInfo1(j).1.m
    ensures var (j1, i1) := GetInfo1(j);
            var r := GetInfo2(j1, w, info, planeSpace);
            && (i1.m >= 2 ==> CoulombBox(r.rows[1]))
            && (i1.m >= 3 ==> CoulombBox(r.rows[2]))
  {
    var (j1, i1) := GetInfo1(j);
    assert FrictionNormalised(j1.contact.surface);
    var f := Tangents(j1, ContactNormal(j1), planeSpace);
    if i1.m >= 2 {
      FirstFrictionBox(j1, f.t1, info.rows[1]);
    }
    if i1.m >= 3 {
      SecondFrictionBox(j1, f.t2, info.rows[2]);
    }
  }

  /** The same for the reduced variant, whose two friction rows are both
      bounded by `mu`. */
  lemma SimpleFrictionBoxesSymmetric(j: ContactJoint, info: Info2, planeSpace: Vec3 -> Frame)
    requires |info.rows| >= GetInfo1(j).1.m
    ensures var (j1, i1) := GetInfo1(j);
            var r := SimpleGetInfo2(j1, info, planeSpace);
            && (i1.m >= 2 ==> CoulombBox(r.rows[1]))
            && (i1.m >= 3 ==> CoulombBox(r.rows[2]))
  {
    var (j1, i1) := GetInfo1(j);
    assert FrictionNormalised(j1.contact.surface);
  }

  /** Number of written friction rows whose upper bound is infinite. */
  function UnboundedFrictionRows(rows: seq<Row>, m: int): int
    requires |rows| >= RowsWritten(m)
  {
    Count(m >= 2 && rows[1].hi == PosInf) + Count(m >= 3 && rows[2].hi == PosInf)
  }

  /** The `Mu2` configuration in which the second coefficient opens a row
      that is then filled with the first coefficient. */
  predicate Mu2Quirk(s: Surface)
  {
    Mu2 in s.mode && !Positive(s.mu) && Positive(s.mu2)
  }

  /** Outside the `Mu2` quirk, `nub` is the number of friction rows that
      `getInfo2` leaves unbounded. */
  lemma NubCountsUnboundedRows(j: ContactJoint, w: WorldParams, info: Info2, planeSpace: Vec3 -> Frame)
    requires |info.rows| >= GetInfo1(j).1.m
    requires !Mu2Quirk(j.contact.surface)
    ensures var (j1, i1) := GetInfo1(j);
            i1.nub == UnboundedFrictionRows(GetInfo2(j1, w, info, planeSpace).rows, i1.m)
  {
    var (j1, i1) := GetInfo1(j);
    var r := GetInfo2(j1, w, info, planeSpace);
    var s := j.contact.surface;
    if Mu2 in s.mode {
      if Positive(s.mu) && Positive(s.mu2) {
        assert i1.m == 3;
      } else if Positive(s.mu) {
        assert i1.m == 2;
        assert s.mu2 != PosInf;
      } else {
        assert i1.m == 1;
        assert s.mu != PosInf && s.mu2 != PosInf;
      }
    } else if Positive(s.mu) {
      assert i1.m == 3;
    } else {
      assert i1.m == 1;
    }
  }

  /** The quirk itself: with `Mu2` set, `mu <= 0` and `mu2 > 0`, two rows
      are requested, row 1 runs along `t1` with the zero box of `mu`, and
      `mu2` bounds no row; an infinite `mu2` is still counted as unbounded. */
  lemma Mu2QuirkRowUsesMu(j: ContactJoint, w: WorldParams, info: Info2, planeSpace: Vec3 -> Frame)
    requires Mu2Quirk(j.contact.surface)
    requires |info.rows| >= 2
    ensures var (j1, i1) := GetInfo1(j);
            var r := GetInfo2(j1, w, info, planeSpace);
            && i1.m == 2
            && r.rows[1].j1l == Tangents(j1, ContactNormal(j1), planeSpace).t1
            && r.rows[1].lo == Fin(0.0) && r.rows[1].hi == Fin(0.0)
            && UntouchedFrom(r.rows, info.rows, 2)
            && (j.contact.surface.mu2 == PosInf ==>
                  i1.nub == 1 && UnboundedFrictionRows(r.rows, i1.m) == 0)
  {
    var (j1, i1) := GetInfo1(j);
    assert j1.contact.surface.mu == Fin(0.0);
  }

  /** The features the reduced variant lacks are all switched off. */
  predicate SimpleSuffices(j: ContactJoint, w: WorldParams, info: Info2)
    requires j.theM.Some?
    requires |info.rows| >= RowsWritten(j.theM.value)
  {
    var s := j.contact.surface;
    && !j.reverse
    && FDir1 !in s.mode && Bounce !in s.mode && SoftERP !in s.mode && SoftCFM !in s.mode
    && Motion1 !in s.mode && Motion2 !in s.mode && MotionN !in s.mode
    && Slip1 !in s.mode && Slip2 !in s.mode
    && (Mu2 in s.mode ==> s.mu2 == s.mu)
    && w.minDepth == 0.0 && w.maxVel == PosInf
    && j.erp == info.erp
    && forall i :: 0 <= i < RowsWritten(j.theM.value) ==> info.rows[i].cfm == j.cfm
  }

  /** With those features off, and the stepper's ERP and the rows' prior
      CFM equal to the joint's, the reduced variant fills exactly the rows
      the full one does. */
  lemma SimpleAgreesWithFull(j: ContactJoint, w: WorldParams, info: Info2, planeSpace: Vec3 -> Frame)
    requires j.theM.Some?
    requires |info.rows| >= RowsWritten(j.theM.value)
    requires SimpleSuffices(j, w, info)
    ensures SimpleGetInfo2(j, info, planeSpace) == GetInfo2(j, w, info, planeSpace)
  {
    var a := SimpleGetInfo2(j, info, planeSpace);
    var b := GetInfo2(j, w, info, planeSpace);
    assert ContactNormal(j) == j.contact.geom.normal;
    assert ContactErp(j) == info.erp;
    forall i | 0 <= i < |a.rows|
      ensures a.rows[i] == b.rows[i]
    {
    }
  }

  /** A resting contact: normal `(0,1,0)`, depth 0.01, ERP 0.2 at 60 steps
      per second, isotropic `mu = 0.5`, no bounce. Three bounded rows, bias
      0.12, friction boxes `[-0.5, 0.5]`. */
  lemma RestingContactExample(j: ContactJoint, w: WorldParams, info: Info2, planeSpace: Vec3 -> Frame)
    requires j.contact.surface.mode == {} && j.contact.surface.mu == Fin(0.5)
    requires j.contact.geom.depth == 0.01
    requires !j.reverse && j.erp == 0.2 && info.fps == 60.0
    requires w.minDepth == 0.0 && w.maxVel == PosInf
    requires |info.rows| >= MaxRows
    ensures GetInfo1(j).1 == Info1(3, 0)
    ensures var r := GetInfo2(GetInfo1(j).0, w, info, planeSpace);
            && r.rows[0].c == Fin(0.12)
            && r.rows[1].lo == Fin(-0.5) && r.rows[1].hi == Fin(0.5)
            && r.rows[2].lo == Fin(-0.5) && r.rows[2].hi == Fin(0.5)
  {
    var j1 := GetInfo1(j).0;
    assert j1.contact == j.contact && j1.erp == j.erp && j1.theM == Some(3);
    assert ContactErp(j1) == 0.2;
    assert Penetration(0.01, 0.0) == 0.01;
    assert NormalBias(60.0 * 0.2, 0.01, 0.0, 0.0, PosInf) == Fin(0.12);
  }

  /** The body-A linear blocks of the first `n` rows: the `J1l` column. */
  function LinearBlocks(rows: seq<Row>, n: int): (vs: seq<Vec3>)
    requires 0 <= n <= |rows|
    ensures |vs| == n && forall i :: 0 <= i < n ==> vs[i] == rows[i].j1l
  {
    seq(n, i requires 0 <= i < n => rows[i].j1l)
  }

  /** Once the `J1l` blocks of the rows `getInfo2` fills are laid out with
      row skip `s`, offsets 0..2 hold the contact normal and, when there is
      friction, offsets `s`..`s+2` and `2s`..`2s+2` hold the two friction
      directions. */
  lemma LinearBlocksInBuffer(j: ContactJoint, w: WorldParams, info: Info2, planeSpace: Vec3 -> Frame,
                             buf: seq<real>, s: int, out: seq<real>)
    requires j.theM.Some?
    requires |info.rows| >= RowsWritten(j.theM.value)
    requires 3 <= s && RowsWritten(j.theM.value) * s <= |buf|
    requires WrittenUpTo(out, buf, LinearBlocks(GetInfo2(j, w, info, planeSpace).rows, RowsWritten(j.theM.value)),
                         RowsWritten(j.theM.value), s)
    ensures forall c :: 0 <= c < 3 ==> out[c] == Component(ContactNormal(j), c)
    ensures j.theM.value >= 2 ==>
              forall c :: 0 <= c < 3 ==> out[s + c] == Component(Tangents(j, ContactNormal(j), planeSpace).t1, c)
    ensures j.theM.value >= 3 ==>
              forall c :: 0 <= c < 3 ==> out[2 * s + c] == Component(Tangents(j, ContactNormal(j), planeSpace).t2, c)
  {
    var r := GetInfo2(j, w, info, planeSpace);
    var vs := LinearBlocks(r.rows, RowsWritten(j.theM.value));
    LeadingRowsInBuffer(out, buf, vs, s);
    assert vs[0] == ContactNormal(j);
    if j.theM.value >= 2 {
      assert vs[1] == Tangents(j, ContactNormal(j), planeSpace).t1;
    }
    if j.theM.value >= 3 {
      assert vs[2] == Tangents(j, ContactNormal(j), planeSpace).t2;
    }
  }
}
