# Contact joint constraint rows — a Dafny model

This project models the contact joint of the Open Dynamics Engine fork in
`ModifyODESrc/src/joints/contact.cpp`. For one contact between body A and an
optional body B, the joint produces the constraint rows that the
velocity-level LCP solver consumes: Jacobian blocks, right-hand side,
bounds, constraint force mixing (CFM) and friction index. The model covers
the following routines:

- `getSureMaxInfo` and `getInfo1`: the row-count policy. Negative friction
  is clamped to zero. `m` is 1 to 3 rows and `nub` counts the unbounded rows.
  The row count is cached in `the_m`.
- `getInfo2`: full row assembly.
  - The normal can be reversed.
  - Lever arms and Jacobians are built for one or two bodies.
  - The normal bias uses ERP, minimum depth, the maximum correcting velocity
    and bounce.
  - Bounds are `[0, inf)` for the normal row and `±mu` / `±mu2` for the
    friction rows.
  - It also handles friction-index coupling, CFM and slip overrides, and
    motion targets.
- `simpleGetInfo2`: the reduced variant.
- The constructor, plus `dJointGetContactParam` and `dJointSetContactParam`.

Scalars are Dafny `real`. The engine's `dInfinity` is explicit in the
extended-real type `ExtReal.EReal` (`NegInf | Fin(r) | PosInf`). So
`mu == dInfinity`, `hi[0] = dInfinity`, an infinite `max_vel`, and `lo = -mu`
for infinite `mu` are all exact. The surface `mode` bit mask is a
`set<Flag>`.

The solver's output buffer is modelled as a table of `Row` records indexed
by row number. The routines take the rows handed to the joint and return
them updated. Any entry the source does not write keeps its old value:
- body B's blocks when there is no body B,
- `c[1]` / `c[2]` without a motion flag,
- `findex` without a coupling flag,
- CFM in the reduced variant,
- every row at or past the cached row count.

`Layout.WriteStrided` connects the table to the stride-addressed buffers
(`row * rowskip + component`).

The module structure is as follows:
- `ExtReal` and `Vectors` are the primitives.
- `ContactTypes` holds the records.
- `RowCount` holds `getSureMaxInfo` and `getInfo1`.
- `Jacobian` builds the blocks of one row.
- `Bias` holds the normal-row right-hand side.
- `Assembly` holds `getInfo2` and `simpleGetInfo2`.
- `Params` holds the constructor and the accessors.
- `Layout` maps the table to stride addressing.
- `ContactProperties` holds the lemmas that relate several routines.

Two behaviours are kept exactly as the code has them:
- **The `Mu2` quirk.** With `Mu2` set, `mu <= 0` and `mu2 > 0`, `getInfo1`
  asks for two rows. `getInfo2` then fills row 1 along `t1` with the zero
  box of `mu`, and `mu2` bounds nothing. The cause is that rows are gated by
  `the_m`, not by which coefficient was positive. If `mu2` is infinite, it is
  still counted in `nub`. `ContactProperties.Mu2QuirkRowUsesMu` proves this.
  `ContactProperties.NubCountsUnboundedRows` proves that in every other
  configuration `nub` equals the number of friction rows left unbounded.
- **What the code does at four points that are easy to misread.**
  - Under `FDir1`, `t1` is `fdir1` verbatim. It is neither projected onto
    the tangent plane nor normalised. Only `t2 = normal × t1` is
    guaranteed orthogonal to the normal.
  - The reduced variant bounds both friction rows by `mu`, even under
    `Mu2`. It also ignores `FDir1` and takes ERP from the stepper.
  - The cap on the correcting velocity applies before bounce. After bounce
    the bias is at least the capped penetration correction, and it can
    exceed the cap.
  - Penetration at or below the minimum depth gives the capped `motionN`.
    This is 0 when `MotionN` is off and `max_vel >= 0`. A negative
    `max_vel` gives `max_vel` instead.

## Model

| member | source | states |
|---|---|---|
| RowCount.GetSureMaxInfo | ModifyODESrc/src/joints/contact.cpp:39-42 | the announced maximum of 3 rows bounds the row count `getInfo1` returns for every joint |
| RowCount.ClampFriction | ModifyODESrc/src/joints/contact.cpp:50-54 | a clamped coefficient is nonnegative, positive exactly when the input was, infinite exactly when the input was, and unchanged when already nonnegative |
| RowCount.GetInfo1 | ModifyODESrc/src/joints/contact.cpp:45-69 | 1 <= m <= 3, 0 <= nub <= m-1, and the_m caches m. Without Mu2: m is 3 iff mu > 0 (else 1), and nub is 2 iff mu is infinite (else 0). With Mu2: m = 1 + [mu>0] + [mu2>0] and nub = [mu=inf] + [mu2=inf]. Afterwards mu (and mu2 under Mu2) is the clamped input: a negative coefficient becomes exactly 0 and any other is kept. Nothing else in the joint changes |
| RowCount.GetInfo1Idempotent | ModifyODESrc/src/joints/contact.cpp:45-69 | a second call returns the same counts and the same joint |
| RowCount.FrictionlessContactIsOneRow | ModifyODESrc/src/joints/contact.cpp:49-63 | when no coefficient the mode reads is positive, the contact is one bounded row |
| RowCount.FiniteIsotropicFriction | ModifyODESrc/src/joints/contact.cpp:59-65 | finite positive mu without Mu2 gives m = 3, nub = 0 |
| RowCount.InfiniteIsotropicFriction | ModifyODESrc/src/joints/contact.cpp:59-63 | infinite mu without Mu2 gives m = 3, nub = 2 |
| Jacobian.WriteJacobian | ModifyODESrc/src/joints/contact.cpp:95-116 | for direction d: body A gets d and c1 × d. Body B, when present, gets -d and -(c2 × d). Without body B its blocks are not written. Nothing outside the four blocks changes |
| Jacobian.RowSpeed | ModifyODESrc/src/joints/contact.cpp:154-159 | the outgoing speed before motionN is subtracted: body A's blocks against its velocities, plus body B's only when body B exists. JacobianMeaning gives its meaning |
| Jacobian.JacobianMeaning | ModifyODESrc/src/joints/contact.cpp:101-116 | such a row applied to the bodies' velocities is the relative velocity of the contact point along d. The angular block is orthogonal to d. With two bodies the linear blocks cancel |
| Bias.Penetration | ModifyODESrc/src/joints/contact.cpp:125-127 | depth beyond the minimum depth, clamped to be nonnegative |
| Bias.CapBias | ModifyODESrc/src/joints/contact.cpp:145-148 | the capped value is the minimum of the pushout and max_vel. It is at most both, is one of them, and is the pushout when max_vel is infinite |
| Bias.NormalBias | ModifyODESrc/src/joints/contact.cpp:120-148 | the bias before bounce is min(k·max(depth - min_depth, 0) + motionN, max_vel): it is at most both, equals one of them, and is k·(depth - min_depth) + motionN when max_vel is infinite and the depth reaches the minimum. At or below the minimum depth it is the capped motionN |
| Bias.ApplyBounce | ModifyODESrc/src/joints/contact.cpp:150-170 | bounce never lowers the bias. It changes it only when bounce_vel >= 0 and the incoming speed exceeds bounce_vel, and then to -bounce·outgoing + motionN, which it is at least |
| Bias.ShallowContactBias | ModifyODESrc/src/joints/contact.cpp:125-148 | at or below the minimum depth, without a normal motion target, the bias is 0 when max_vel >= 0 and is max_vel when max_vel < 0 |
| Bias.NormalBiasMonotone | ModifyODESrc/src/joints/contact.cpp:124-148 | for k = fps·erp >= 0 the bias is non-decreasing in the penetration depth |
| Bias.BounceCanExceedCap | ModifyODESrc/src/joints/contact.cpp:145-170 | a concrete contact whose bias after bounce exceeds a finite max_vel |
| Assembly.ContactNormal | ModifyODESrc/src/joints/contact.cpp:79-92 | the row normal is the geometry normal, negated when the reverse flag is set and unchanged otherwise |
| Assembly.Tangents | ModifyODESrc/src/joints/contact.cpp:180-193 | under FDir1: t1 = fdir1 and t2 = normal × t1, so t2 is orthogonal to the normal and to t1. Otherwise the frame is the plane-space routine's output for the normal |
| Assembly.FrictionRow | ModifyODESrc/src/joints/contact.cpp:194-227 | one friction row: the Jacobian for t, the box [-mu, mu], and findex 0 only when coupled. The right-hand side and CFM are written only when given |
| Assembly.NormalRow | ModifyODESrc/src/joints/contact.cpp:79-174 | the normal row: the Jacobian along the possibly reversed normal, lo = 0, hi = inf, and CFM = soft_cfm under SoftCFM else the joint's cfm. findex is untouched. Without Bounce the bias is the capped pushout (soft_erp under SoftERP). With Bounce it is ApplyBounce of that pushout at the contact point's relative velocity along the normal: it is raised to -bounce·outgoing + motionN only when bounce_vel >= 0 and the incoming speed exceeds bounce_vel |
| Assembly.ContactErp | ModifyODESrc/src/joints/contact.cpp:120-123 | the ERP of the normal row is soft_erp under SoftERP and the joint's own erp otherwise, never the stepper's |
| Assembly.NormalCfm | ModifyODESrc/src/joints/contact.cpp:129-136 | the normal row's CFM is soft_cfm under SoftCFM and the joint's own cfm otherwise |
| Assembly.MotionNormal | ModifyODESrc/src/joints/contact.cpp:138-140 | the target normal velocity is motionN under MotionN and 0 otherwise |
| Assembly.FirstFrictionRow | ModifyODESrc/src/joints/contact.cpp:194-227 | row 1: the Jacobian along t1 and the box ±mu. findex is 0 only under Approx1_1. c is motion1 only under Motion1. CFM is slip1 under Slip1 else the joint's cfm |
| Assembly.SecondFrictionRow | ModifyODESrc/src/joints/contact.cpp:231-273 | row 2: the Jacobian along t2 and the box ±mu2 under Mu2 else ±mu. findex is 0 only under Approx1_2. c is motion2 only under Motion2. CFM is slip2 under Slip2 else the joint's cfm |
| Assembly.GetInfo2 | ModifyODESrc/src/joints/contact.cpp:72-281 | the normal row is always written, row 1 when the_m >= 2 and row 2 when the_m >= 3. Every row past those is untouched |
| Assembly.SimpleGetInfo2 | ModifyODESrc/src/joints/contact.cpp:284-363 | the normal is never reversed and the bias is exactly the full bias with min depth 0, no motion and no cap. No CFM is written and c[1], c[2] are untouched. Both friction rows are ±mu along the plane-space basis, and rows past the_m are untouched |
| ContactProperties.RowsMeasureContactVelocity | ModifyODESrc/src/joints/contact.cpp:96-245 | every row getInfo2 writes measures the contact point's relative velocity along that row's direction |
| ContactProperties.FirstFrictionBox | ModifyODESrc/src/joints/contact.cpp:213-214 | with nonnegative coefficients, row 1 has lo = -hi and hi >= 0 |
| ContactProperties.SecondFrictionBox | ModifyODESrc/src/joints/contact.cpp:250-261 | with nonnegative coefficients, row 2 has lo = -hi and hi >= 0, under Mu2 as well |
| ContactProperties.FrictionBoxesSymmetric | ModifyODESrc/src/joints/contact.cpp:212-261 | after getInfo1, every friction row of getInfo2 has lo = -hi with hi >= 0 |
| ContactProperties.SimpleFrictionBoxesSymmetric | ModifyODESrc/src/joints/contact.cpp:338-359 | the same for the reduced variant |
| ContactProperties.NubCountsUnboundedRows | ModifyODESrc/src/joints/contact.cpp:49-63 | outside the Mu2 quirk, nub equals the number of friction rows whose bound is infinite |
| ContactProperties.Mu2QuirkRowUsesMu | ModifyODESrc/src/joints/contact.cpp:51-58 | with Mu2, mu <= 0 and mu2 > 0: m = 2, row 1 runs along t1 with box ±0, and row 2 is untouched. An infinite mu2 is counted in nub yet bounds no row |
| ContactProperties.SimpleAgreesWithFull | ModifyODESrc/src/joints/contact.cpp:284-363 | with reverse, FDir1, bounce, soft, motion and slip off, min depth 0, no cap, the stepper's ERP equal to the joint's and prior CFM equal to the joint's, the reduced variant produces exactly the full variant's rows |
| ContactProperties.RestingContactExample | ModifyODESrc/src/joints/contact.cpp:120-174 | normal contact at depth 0.01, ERP 0.2, 60 fps, mu 0.5: m = 3, nub = 0, bias 0.12, boxes ±0.5 |
| Params.GetContactParam | ModifyODESrc/src/joints/contact.cpp:377-393 | the ERP selector reads the joint's erp, the CFM selector reads its cfm, and any other selector reads 0. SetThenGet and GetThenSet relate it to the setter |
| Params.NewContactJoint | ModifyODESrc/src/joints/contact.cpp:32-36 | a new joint reads the world's default ERP and CFM and has no cached row count |
| Params.SetContactParam | ModifyODESrc/src/joints/contact.cpp:396-415 | only the selected field changes, and an unknown selector changes nothing |
| Params.SetThenGet | ModifyODESrc/src/joints/contact.cpp:376-415 | get after set returns the value set for ERP and CFM, and 0 for any other selector |
| Params.SetLeavesOtherParams | ModifyODESrc/src/joints/contact.cpp:396-415 | setting one parameter leaves what every other selector reads unchanged |
| Params.GetThenSet | ModifyODESrc/src/joints/contact.cpp:376-415 | writing back the value read leaves the joint unchanged |
| Layout.WriteStrided | ModifyODESrc/src/joints/contact.cpp:76-77 | after writing a row table into a stride-s buffer (s >= 3), offset i holds component i mod s of row i div s when that row exists and the component is below 3, and its old value otherwise |
| Layout.WrittenAtOffsets | ModifyODESrc/src/joints/contact.cpp:76-77 | in such a buffer, row r component c sits at r·s + c, and every offset outside the rows' first three components is unchanged |
| Layout.LeadingRowsInBuffer | ModifyODESrc/src/joints/contact.cpp:76-77 | in a fully written stride-s buffer, rows 0, 1 and 2 sit at offsets 0..2, s..s+2 and 2s..2s+2 (s2 = 2·s) |
| ContactProperties.LinearBlocksInBuffer | ModifyODESrc/src/joints/contact.cpp:76-235 | when the body-A linear blocks of the rows getInfo2 fills are laid out with row skip s, offsets 0..2 hold the contact normal, offsets s..s+2 hold t1 when the_m >= 2, and offsets 2s..2s+2 hold t2 when the_m = 3 |

## Left out

- `ModifyODESrc/drawstuff/src/drawstuff.cpp` is not modelled at all. It covers rendering, the camera, texture loading and global drawing state, and none of it bears on constraint generation.
- `dPlaneSpace` is not part of this model. It is a parameter `planeSpace: Vec3 -> Frame`, and nothing is claimed about its output (orthonormality, handedness, stability).
- IEEE floating point is not modelled: rounding, NaN and signed zero. For example, `lo = -mu` for `mu = 0` is `-0.0` in the engine and `0` here.
- The bit values of the `mode` flags and of `dParamERP` / `dParamCFM` live in headers that are not part of this model. Flags are a set, and the parameter selector is `ParamERP | ParamCFM | ParamOther`.
- How the engine fills `contact`, the two bodies and `dJOINT_REVERSE` after construction (joint creation and attachment) happens outside this file. `NewContactJoint` takes them as inputs.
- `the_m` is uninitialised in the source until `getInfo1` runs. The model represents this as "no value" and makes `getInfo2` / `simpleGetInfo2` require a cached count.
- How the stepper allocates the row buffers, and how the LCP solver uses `findex`, `nub`, `lo`/`hi` and CFM, are left out. The row table holds what the joint writes. `Layout.WriteStrided` shows the stride addressing, and `ContactProperties.LinearBlocksInBuffer` applies it to the body-A linear blocks of the rows `getInfo2` fills.
- The `dxJoint` base class, `type()` and `size()` are left out, together with the `dUASSERT` debug checks and joint-type checks in the accessors. These checks concern invalid handles, which the model cannot express.
- The commented-out tracing output is left out.
