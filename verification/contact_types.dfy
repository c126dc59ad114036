/** The records the contact joint reads and writes: surface parameters,
    contact geometry, the two bodies, the world settings it consults, the
    joint itself, and the solver's row table (`Info2`). */
module ContactTypes {
  import opened ExtReal
  import opened Vectors

  datatype Option<T> = None | Some(value: T)

  /** The bits of the surface `mode` word that this joint tests. */
  datatype Flag =
    | Mu2        // separate coefficient `mu2` for the second friction direction
    | FDir1      // first friction direction supplied in `fdir1`
    | Bounce     // restitution
    | SoftERP    // per-surface error reduction `soft_erp`
    | SoftCFM    // per-surface constraint force mixing `soft_cfm`
    | Motion1    // target velocity along the first friction direction
    | Motion2    // target velocity along the second friction direction
    | MotionN    // target velocity along the normal
    | Slip1      // force-dependent slip along the first friction direction
    | Slip2      // force-dependent slip along the second friction direction
    | Approx1_1  // first friction row bounded relative to the normal force
    | Approx1_2  // second friction row bounded relative to the normal force

  /** `dSurfaceParameters`. */
  datatype Surface = Surface(
    mode: set<Flag>,
    mu: EReal,
    mu2: EReal,
    bounce: real,
    bounceVel: real,
    softErp: real,
    softCfm: real,
    motion1: real,
    motion2: real,
    motionN: real,
    slip1: real,
    slip2: real)

  /** `dContactGeom`: contact point, normal and penetration depth. */
  datatype ContactGeom = ContactGeom(pos: Vec3, normal: Vec3, depth: real)

  /** `dContact`. */
  datatype Contact = Contact(surface: Surface, geom: ContactGeom, fdir1: Vec3)

  /** What the joint reads of a rigid body: centre of mass position and its
      linear and angular velocity. */
  datatype Body = Body(pos: Vec3, lvel: Vec3, avel: Vec3)

  /** The world-wide settings the joint consults: default ERP and CFM given
      to new joints, and the contact minimum depth and maximum correcting
      velocity. */
  datatype WorldParams = WorldParams(globalErp: real, globalCfm: real, minDepth: real, maxVel: EReal)

  /** `dxJointContact`. `body1` is `node[0].body`, which the joint always
      dereferences; `body2` is `node[1].body`, absent for a contact with the
      static environment. `reverse` is the `dJOINT_REVERSE` joint flag.
      `theM` is the row count cached by `getInfo1`; it has no value before
      the first call. */
  datatype ContactJoint = ContactJoint(
    contact: Contact,
    erp: real,
    cfm: real,
    theM: Option<int>,
    reverse: bool,
    body1: Body,
    body2: Option<Body>)

  /** `dxJoint::Info1`: number of rows and of unbounded rows. */
  datatype Info1 = Info1(m: int, nub: int)

  /** One constraint row of `dxJoint::Info2`: the entries at index
      `row * rowskip` of the four Jacobian blocks and entry `row` of the
      right-hand side, CFM, bound and friction-index arrays. */
  datatype Row = Row(
    j1l: Vec3,
    j1a: Vec3,
    j2l: Vec3,
    j2a: Vec3,
    c: EReal,
    cfm: real,
    lo: EReal,
    hi: EReal,
    findex: int)

  /** `dxJoint::Info2`: step frequency, the stepper's ERP and the rows the
      stepper handed to this joint, with whatever they held before. */
  datatype Info2 = Info2(fps: real, erp: real, rows: seq<Row>)

  /** Basis vectors of the tangent plane, as `dPlaneSpace` returns them. */
  datatype Frame = Frame(t1: Vec3, t2: Vec3)

  /** The greatest number of rows a contact joint ever asks for. */
  const MaxRows: int := 3

  /** Number of rows `getInfo2` writes for a cached row count `m`: the
      normal row always, the first friction row when `m >= 2`, the second
      when `m >= 3`. */
  function RowsWritten(m: int): (n: nat)
    ensures 1 <= n <= MaxRows
    ensures m >= 1 && m <= MaxRows ==> n == m
  {
    if m >= 3 then 3 else if m >= 2 then 2 else 1
  }
}
