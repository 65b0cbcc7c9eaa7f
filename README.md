# PyQMRI reconstruction engine in Dafny

This project models the reconstruction engine of PyQMRI. PyQMRI reconstructs quantitative parameter maps, such as M0, ADC or T1, from undersampled multi-coil projection data. It does so with an iteratively regularised Gauss-Newton (IRGN) method: an outer loop linearises the signal model, and an inner primal-dual solver minimises the linearised data misfit plus a total-generalised-variation (TGV) penalty.

The model covers:

- **Finite differences and TGV kernels** (`Stencils`, `Images`, `Tgv`, `TgvKernels`):
  - the forward and backward differences and their divergences;
  - the per-pixel OpenCL kernels `update_p`, `update_q`, `update_u`, `update_w`, `update_lambda`, `functional_discrepancy` and `functional_tgv`, as loops over flattened `Nx*Ny` buffers;
  - the exact summation-by-parts identities that make each divergence the negative adjoint of its gradient.
- **Projector pair** (`RadonGeometry`, `Radon`):
  - the geometry table of `radon_struct`, with the near-vertical snapping rule;
  - the kernels `radon` and `radon_ad` with their hat weight and sinogram layout;
  - the exact adjointness of the pair.
- **Composite operator** (`Operator`, `OperatorKernels`):
  - `operator_fwd` and `operator_ad`, which weight by the Jacobian and the coils and accumulate with `+=` into flattened 5-index buffers;
  - the sample screen of line 318, as written;
  - the adjointness of the pair for real-valued data, and a counterexample otherwise.
- **Box constraints** (`BoxCon`): the kernel `box_con`, which clamps one sample per work item against every constraint in order.
- **Primal-dual solver** (`SolverMath`, `Solver`):
  - `tgv_solve_2D`: the proximal steps, the projections of z1 and z2 onto their balls, the adaptive step-size rule, the backtracking search, and the checkpoint that decides termination;
  - what every exit path persists into the solver object.
- **Gauss-Newton driver** (`Driver`): `execute_2D` and `irgn_solve_2D`, i.e. the per-slice reset, the rescaling of T1 and of the constraints, the iters/gamma/delta schedule, the recorded energy and the `fval_min` test.
- **3-D symmetrised gradient** (`SymGrad3D`, `SymGradRef`, `SymGradComplex`):
  - the gradient and its weighted divergence;
  - the unit tests' `np.flip`/`np.diff`/`np.stack` reference construction, in both array layouts;
  - the weighted adjointness identity those tests assert, for real and complex data.
- **Signal models** (`DiffModel`, `Ivim`, `Ffc`):
  - the `constraint` class;
  - the constraint tables, `rescale`, the b-value conversion and the initial guesses;
  - the algebra that links each forward model to its Jacobian, with `exp` a function parameter.

Conventions:

- Floating-point numbers are idealised as `real`, and a `float2` sample is a `Complex.C` pair.
- `sqrt` and `hypot` are a function parameter constrained by `Roots.IsSqrt`.
- Buffers are flattened `seq`s or `array`s, in the index expressions the kernels use.
- Every kernel is a sequential loop over its work items. The work items of one launch write disjoint entries, so the order does not matter.
- Code that updates state is written as classes and methods: the solver's dual buffers, the reconstruction object, the constraints and the signal-model objects. Each method is proved against a function that specifies it.
- The modules `Sums`, `Complex` and `Roots` are support libraries: finite sums, complex arithmetic and square roots.

## Model

| member | source | states |
|---|---|---|
| Images.IdxInRange | Model_Reco_OpenCL.py:277-282 | the row-major offset y*X + x of an in-image pixel lies in [0, X*Y) |
| Images.IdxInjective | Model_Reco_OpenCL.py:277-282 | distinct in-image pixels have distinct offsets |
| Images.IdxNeighbours | Model_Reco_OpenCL.py:57-75 | the horizontal neighbours of a pixel are one slot apart, the vertical ones X slots apart |
| Images.IdxBefore | Model_Reco_OpenCL.py:277-282 | a pixel of an earlier row, or earlier in the same row, has a smaller offset |
| Images.PixelOf | Model_Reco_OpenCL.py:258-261 | every offset in [0, X*Y) is the offset of exactly one in-image pixel |
| Images.IdxDivMod | Model_Reco_OpenCL.py:258-261 | an offset divided by X gives the row and its remainder the column |
| Images.DoneStep | Model_Reco_OpenCL.py:258-261 | writing the value of the next pixel extends the set of finished pixels by that pixel |
| Images.DoneRow | Model_Reco_OpenCL.py:258-261 | a finished row moves the frontier to the start of the next row |
| Images.Launch | Model_Reco_OpenCL.py:568-618 | a launch over the X-by-Y image writes the kernel's value of every pixel into that pixel's slot |
| Stencils.FwdAdjoint1 | Model_Reco_OpenCL.py:64-119 | along one line, the forward difference (zero at the last index) and the kernels' divergence (zero-flux boundary) satisfy sum(Du*p) + sum(u*div p) == 0 |
| Stencils.BwdAdjoint1 | Model_Reco_OpenCL.py:83-138 | along one line, the backward difference (zero at the first index) and its divergence satisfy sum(Dw*q) + sum(w*div q) == 0 |
| Stencils.FwdAdjointX | Model_Reco_OpenCL.py:64-117 | the same identity summed over every row of an image, differences along x |
| Stencils.FwdAdjointY | Model_Reco_OpenCL.py:64-119 | the same over every column, differences along y |
| Stencils.BwdAdjointX | Model_Reco_OpenCL.py:83-136 | the backward pair summed over the rows |
| Stencils.BwdAdjointY | Model_Reco_OpenCL.py:83-138 | the backward pair summed over the columns |
| Tgv.GradIsFwdDiff | Model_Reco_OpenCL.py:64-67 | each component of update_p's gradient is the forward difference of u along its axis, zero on the last column or row |
| Tgv.DivIsFwdDiv | Model_Reco_OpenCL.py:114-119 | update_u's divergence is, per component, the divergence matching the forward difference |
| Tgv.SymGradIsBwdDiff | Model_Reco_OpenCL.py:83-86 | update_q's differences of w are backward differences along x and y, zero on the first column or row |
| Tgv.DivSymIsBwdDiv | Model_Reco_OpenCL.py:132-138 | update_w's divergence of q combines the backward-divergences of (xx, xy) and (xy, yy) |
| Tgv.GradDivX | Model_Reco_OpenCL.py:64-117 | over the image, <grad_x u, p_x> + <u, div_x p> == 0 |
| Tgv.GradDivY | Model_Reco_OpenCL.py:64-119 | over the image, <grad_y u, p_y> + <u, div_y p> == 0 |
| Tgv.GradDivAdjoint | Model_Reco_OpenCL.py:64-119 | over the image, <grad u, p> == -<u, div p>: the divergence of update_u is the negative adjoint of the gradient of update_p |
| Tgv.XPair | Model_Reco_OpenCL.py:83-136 | one x-directed pairing of the symmetrised gradient with its divergence sums to zero |
| Tgv.YPair | Model_Reco_OpenCL.py:83-138 | one y-directed pairing sums to zero |
| Tgv.SymDotPixel | Model_Reco_OpenCL.py:83-87 | at a pixel, <E w, q> with the xy entry counted twice splits into the four directed pairings |
| Tgv.WDivSymPixel | Model_Reco_OpenCL.py:132-138 | at a pixel, <w, div q> splits into the four matching divergence pairings |
| Tgv.SymGradDivAdjoint | Model_Reco_OpenCL.py:83-141 | over the image, <E w, q> == -<w, div q> with the off-diagonal weighted by two: update_w's divergence is the negative adjoint of update_q's symmetrised gradient |
| TgvKernels.Norm3Squares | Model_Reco_OpenCL.py:93 | hypot(hypot(a, b), 2c) is the square root of a^2 + b^2 + 4c^2 |
| TgvKernels.Norm3Facts | Model_Reco_OpenCL.py:93 | the tensor norm is non-negative and zero exactly for the zero tensor |
| TgvKernels.Norm3Div | Model_Reco_OpenCL.py:93-94 | dividing the tensor by a positive factor divides its norm by that factor |
| TgvKernels.Reproject2Ball | Model_Reco_OpenCL.py:72-74 | the reprojected p lies in the ball of radius 1/alphainv; p is unchanged exactly when it is already inside, and a point outside lands on the boundary |
| TgvKernels.Reproject2Outside | Model_Reco_OpenCL.py:73-74 | dividing by fac > 1 puts the vector on the boundary and changes it |
| TgvKernels.Reproject3Ball | Model_Reco_OpenCL.py:92-94 | the reprojected q satisfies sqrt(q0^2 + q1^2 + 4*q2^2) <= 1/alphainv, is unchanged exactly when already inside, and lands on the boundary from outside |
| TgvKernels.Reproject3Outside | Model_Reco_OpenCL.py:93-94 | dividing by fac > 1 puts the tensor on the boundary and changes it |
| TgvKernels.Reproject2Cases | Model_Reco_OpenCL.py:73-74 | the branch taken: divide by fac when fac > 1, otherwise keep the vector |
| TgvKernels.Reproject3Cases | Model_Reco_OpenCL.py:93-94 | the same branches for the tensor |
| TgvKernels.LambdaResolvent | Model_Reco_OpenCL.py:104 | with sigmap1inv = 1/(1+sigma), the new lambda is the unique solution z of z(1+sigma) = lambda + sigma(Ku - f) |
| TgvKernels.DiscrepancyFacts | Model_Reco_OpenCL.py:150-151 | the discrepancy density is non-negative and zero exactly when Ku equals f |
| TgvKernels.TgvDensityFacts | Model_Reco_OpenCL.py:172-175 | for any first-order residual and any tensor e in the second term, alpha1*|grad u - w| + alpha0*sqrt(e0^2 + e1^2 + 4*e2^2) is non-negative, and for positive weights it vanishes exactly when grad u == w and e == 0 |
| TgvKernels.TgvAtAsWrittenZero | Model_Reco_OpenCL.py:162-175 | the density the kernel computes, whose second term is hypot(hypot(dx w0, dx w1), 2*dy w0) (val2.s0, val2.s1, val2.s2), is non-negative and for positive weights vanishes exactly when grad u == w, both x-differences of w vanish and the y-difference of w0 vanishes: the y-difference of w1 never enters |
| TgvKernels.TgvAtZero | Model_Reco_OpenCL.py:165-175 | corrected: with the symmetrised gradient val3 = (dx w0, dy w1, (dy w0 + dx w1)/2) in the second term, the density is non-negative and for positive weights vanishes exactly when grad u == w and E w == 0 |
| TgvKernels.FunctionalTgvDropsDyW1 | Model_Reco_OpenCL.py:165-175 | on a one-column, two-row image with u = 0, w = ((0, 0), (0, 1)), alpha0 = 1 and alpha1 = 0, the kernel's density at the second pixel is 0 while the TGV density with val3 is 1 |
| TgvKernels.UChangeForm | Model_Reco_OpenCL.py:115-122 | the change u - u_ is tau times the divergence of p minus tau*norming times K*lambda, pixel by pixel |
| TgvKernels.UChangeSplit | Model_Reco_OpenCL.py:115-122 | summed against any v, the change splits into those two terms |
| TgvKernels.UStepWeak | Model_Reco_OpenCL.py:64-122 | the u update in weak form: <u - u_, v> + tau<p, grad v> + tau*norming<K*lambda, v> == 0 for every test image v |
| TgvKernels.WChangeForm | Model_Reco_OpenCL.py:132-141 | the change w - w_ is tau times p plus tau times the divergence of q, pixel by pixel |
| TgvKernels.WChangeSplit | Model_Reco_OpenCL.py:132-141 | summed against any v, the change splits into those two terms |
| TgvKernels.WStepWeak | Model_Reco_OpenCL.py:83-141 | the w update in weak form: <w - w_, v> - tau<p, v> + tau<q, E v> == 0 for every test field v |
| TgvKernels.UpdateP | Model_Reco_OpenCL.py:57-75 | every pixel of p becomes the reprojected dual step, and afterwards every entry of p lies in the alphainv ball |
| TgvKernels.UpdateQ | Model_Reco_OpenCL.py:77-95 | every pixel of q becomes the reprojected dual step, and afterwards every entry satisfies sqrt(q0^2 + q1^2 + 4*q2^2) <= 1/alphainv |
| TgvKernels.UpdateLambda | Model_Reco_OpenCL.py:97-105 | every pixel of lambda becomes the resolvent step of its old value |
| TgvKernels.UpdateU | Model_Reco_OpenCL.py:107-123 | every pixel of u becomes u_ plus tau times (div p - norming*K*lambda) |
| TgvKernels.UpdateW | Model_Reco_OpenCL.py:125-142 | every pixel of w becomes w_ plus tau times (p + div q) |
| TgvKernels.FunctionalDiscrepancy | Model_Reco_OpenCL.py:144-152 | every pixel of accum holds (Ku - f)^2, all of them non-negative |
| TgvKernels.FunctionalTgv | Model_Reco_OpenCL.py:154-176 | every pixel of accum holds the density as the kernel computes it (TgvAtAsWritten, second term built from val2, not val3), and every entry is non-negative for non-negative weights |
| RadonGeometry.DefaultDetectors | Model_Reco_OpenCL.py:395-398 | without an explicit count there are twice as many detector bins as the larger image side, so the bins cover both sides |
| RadonGeometry.RoundHalfEven | Model_Reco_OpenCL.py:418 | numpy's round: within 1/2 of its argument, and an exact tie goes to the even integer |
| RadonGeometry.RoundUnit | Model_Reco_OpenCL.py:418 | the rounded sine of a snapped ray is -1, 0 or 1 |
| RadonGeometry.ProjectionRay | Model_Reco_OpenCL.py:411-422 | the slope and its reciprocal multiply to 1 unless the ray is snapped; a ray is snapped (slope and reciprocal both 0) exactly when abs(1/slope) > 10*nd; an unsnapped reciprocal is at most 10*nd in size; a snapped row step is the rounded sine over dw; and the domain midpoint lands on detector (nd-1)/2 + shift/dw |
| RadonGeometry.ScanMidpoints | Model_Reco_OpenCL.py:403-405 | scan s's domain midpoint is (dimX/2 - shift_read[s], dimY/2 - shift_phase[s]) |
| RadonGeometry.Flatten | Model_Reco_OpenCL.py:406 | the (NScan, 2) midpoint array read in C order: entries 2q and 2q+1 are scan q's x and y midpoint |
| RadonGeometry.Repeat | Model_Reco_OpenCL.py:406 | `np.repeat` has length |s|*n and its entry p is s[p / n]: every entry n times in a row |
| RadonGeometry.MidpointsCollapse | Model_Reco_OpenCL.py:403-422 | as written, the two midpoints the offset reads are both scan 0's x midpoint whenever Nproj >= 2 |
| RadonGeometry.RayTableAsWritten | Model_Reco_OpenCL.py:403-426 | the table as written has NScan*Nproj rays, each with reciprocal slope and slope consistent |
| RadonGeometry.RayTableAsWrittenOffCentre | Model_Reco_OpenCL.py:403-426 | a concrete two-projection table whose first ray puts the true domain midpoint at detector 3.4382 instead of the centre 3.5 |
| RadonGeometry.ScanOfBound | Model_Reco_OpenCL.py:426 | ray n of the reshaped (NScan, Nproj) table belongs to a scan in range |
| RadonGeometry.RayTable | Model_Reco_OpenCL.py:403-426 | the corrected table has NScan*Nproj rays with consistent slope and reciprocal |
| RadonGeometry.ScanRay | Model_Reco_OpenCL.py:411-422 | each corrected ray is a consistent ray record |
| RadonGeometry.RayTableCentred | Model_Reco_OpenCL.py:403-426 | in the corrected table every ray maps its own scan's domain midpoint onto the detector midpoint (nd-1)/2 + shift/dw |
| Radon.Hat | Model_Reco_OpenCL.py:217-218 | the interpolation weight 1 - abs(t) cut at zero lies in [0, 1] and is positive exactly on the open interval (-1, 1) |
| Radon.RayWellFormed | Model_Reco_OpenCL.py:189 | every ray record read from the table has consistent slope and reciprocal |
| Radon.TruncBounds | Model_Reco_OpenCL.py:206-210 | C's (int) cast truncates toward zero: within one of its argument, below it for non-negative values and above it for negative ones |
| Radon.VerticalHitIffWeight | Model_Reco_OpenCL.py:199-218 | the corrected vertical guard accepts a row exactly when the row's interpolation weight is positive |
| Radon.VerticalGuardSkipsBinZero | Model_Reco_OpenCL.py:181-200 | as written (size_t i, so i-1 wraps at i == 0) a vertical ray at distance 0.5 from bin 0 carries weight 0.5, yet the guard skips the row; the corrected guard keeps it |
| Radon.VerticalGuardAgrees | Model_Reco_OpenCL.py:199-200 | for every bin after the first, the guard as written and the corrected guard decide alike |
| Radon.RowWindow | Model_Reco_OpenCL.py:199-213 | the clamped column window lies inside [0, X-1] |
| Radon.CvtInt | Model_Reco_OpenCL.py:205-210 | C's float-to-int conversion lands in the 32-bit range; a value at or below INT_MIN gives INT_MIN, and a value at or above 2^31 gives INT_MIN on x86 and INT_MAX on a saturating target |
| Radon.RowWindowAsWritten | Model_Reco_OpenCL.py:199-213 | the window the kernel computes, with `i-1` taken in size_t (2^64 - 1 at bin 0) and the wrapped edge converted by CvtInt, lies inside [0, X-1] whenever it is not skipped |
| Radon.WindowAsWrittenAgrees | Model_Reco_OpenCL.py:199-213 | for every bin after the first the kernel's window is the corrected window |
| Radon.RowSumAsWrittenAgrees | Model_Reco_OpenCL.py:195-219 | for every bin after the first the kernel's inner loop adds up exactly the hat-weighted sum of the whole row |
| Radon.CoveringWindowSum | Model_Reco_OpenCL.py:214-219 | a window that holds every positive-weight column of a row sums to the hat-weighted sum of the whole row |
| Radon.RowSumAsWrittenIs | Model_Reco_OpenCL.py:214-219 | the kernel's row sum over a known window is the windowed sum of that window |
| Radon.EmptyWindowSum | Model_Reco_OpenCL.py:214 | a window whose upper bound is below its lower bound adds nothing |
| Radon.WrappedEdgeOutOfRange | Model_Reco_OpenCL.py:205-210 | for slopes and row coordinates up to 2^20, the edge (2^64 - d)*o.w is at or below INT_MIN for a falling ray and at or above 2^31 for a rising one |
| Radon.BinZeroWindow | Model_Reco_OpenCL.py:199-213 | at bin 0 a sloped ray's window is not skipped; a falling ray's upper bound is INT_MIN, a rising ray's lower bound is INT_MAX on a saturating target, and on x86 it starts at column 0 and ends where the corrected window ends |
| Radon.BinZeroFalling | Model_Reco_OpenCL.py:208-219 | for a falling ray the kernel adds nothing to bin 0, on any target |
| Radon.BinZeroRisingSaturating | Model_Reco_OpenCL.py:205-219 | for a rising ray on a saturating target the kernel adds nothing to bin 0 |
| Radon.BinZeroRisingTruncating | Model_Reco_OpenCL.py:205-219 | for a rising ray on x86 the kernel's bin-0 row sum is the hat-weighted sum of the whole row |
| Radon.SlopedBinZeroLost | Model_Reco_OpenCL.py:205-219 | the falling ray o = (-1, 0, 0.5, -1) on a one-pixel image of value 1 has weight 0.5 in bin 0, yet the kernel's bin-0 sum is 0 on every target |
| Radon.EdgeUp | Model_Reco_OpenCL.py:205-207 | for a rising ray the window edges bracket every column the ray passes within one bin of |
| Radon.EdgeDown | Model_Reco_OpenCL.py:208-210 | for a falling ray the window edges bracket those columns in reverse order |
| Radon.VerticalCovers | Model_Reco_OpenCL.py:199-204 | a vertical ray with positive weight at some column passes the guard |
| Radon.SlopeUpCovers | Model_Reco_OpenCL.py:205-207 | every column with positive weight lies between the truncated edges of a rising ray |
| Radon.SlopeDownCovers | Model_Reco_OpenCL.py:208-210 | the same for a falling ray |
| Radon.WindowCovers | Model_Reco_OpenCL.py:199-213 | every in-image column with positive weight lies inside the clamped window, so nothing the integral needs is cut off |
| Radon.WeightInRow | Model_Reco_OpenCL.py:196-217 | the weight computed from d = y*o.y + o.z is the hat of the ray's detector coordinate at that pixel |
| Radon.WindowColumn | Model_Reco_OpenCL.py:216-218 | inside the window, a column adds exactly its hat-weighted pixel |
| Radon.WindowRowSum | Model_Reco_OpenCL.py:216-219 | the windowed row sum equals the hat-weighted sum over the whole row |
| Radon.SkippedColumn | Model_Reco_OpenCL.py:199-204 | a column of a skipped row has weight zero |
| Radon.SkippedRowSum | Model_Reco_OpenCL.py:203 | a row the guard skips contributes nothing to the full-row sum |
| Radon.WindowStep | Model_Reco_OpenCL.py:216-218 | one step of the inner loop adds weight*img[x] exactly when the weight is positive |
| Radon.RowIntegral | Model_Reco_OpenCL.py:195-219 | the loop over one image row returns the hat-weighted sum of the entire row |
| Radon.RadonItem | Model_Reco_OpenCL.py:177-222 | one work item returns the projection value: the hat-weighted sum over the whole image for detector bin i of angle j, over scale |
| Radon.HatFar | Model_Reco_OpenCL.py:243-247 | bins more than one away from the coordinate get weight zero |
| Radon.HatNear | Model_Reco_OpenCL.py:244-247 | the two neighbouring bins get weights 1 - frac and frac |
| Radon.InterpInside | Model_Reco_OpenCL.py:243-247 | inside (-1, I) the two-bin linear interpolation equals the hat-weighted sum over all bins |
| Radon.InterpOutside | Model_Reco_OpenCL.py:243 | outside (-1, I) the hat-weighted sum is zero, so skipping is exact |
| Radon.InterpIsHat | Model_Reco_OpenCL.py:242-248 | the interpolation step equals the hat-weighted sum over all bins for every coordinate |
| Radon.BackRowIsInterp | Model_Reco_OpenCL.py:241-249 | the back-projection's sum over bins of one angle is the interpolation at the pixel's detector coordinate |
| Radon.InterpAt | Model_Reco_OpenCL.py:243-248 | the guarded two-term update computes the linear interpolation |
| Radon.RadonAdItem | Model_Reco_OpenCL.py:225-251 | one back-projection work item returns the sum over angles of the interpolated sinogram at the pixel, over scale |
| Radon.ProjectAdjoint | Model_Reco_OpenCL.py:177-251 | for every ray table, image and sinogram, <Rf, s> over the sinogram equals <f, R*s> over the image: the two kernels share the hat weight |
| Radon.SinoPairScaled | Model_Reco_OpenCL.py:222 | one sinogram term of the inner product is 1/scale times the unscaled term |
| Radon.ImgPairScaled | Model_Reco_OpenCL.py:251 | one image term of the inner product is 1/scale times the unscaled term |
| Radon.SinoPairPointwise | Model_Reco_OpenCL.py:222 | every sinogram term is scaled by 1/scale |
| Radon.ImgPairPointwise | Model_Reco_OpenCL.py:251 | every image term is scaled by 1/scale |
| Radon.RadonAdjoint | Model_Reco_OpenCL.py:177-251 | for every channel k, <radon(img), sino> == <img, radon_ad(sino)>, with both divided by the same scale |
| Radon.StackIdx | Model_Reco_OpenCL.py:192-251 | the channel-stacked index k*X*Y + y*X + x is a layout of (k, y, x) |
| Radon.StackSize | Model_Reco_OpenCL.py:192 | K stacked images fill K*X*Y entries |
| Radon.RadonKernel | Model_Reco_OpenCL.py:177-222 | the launch writes every sinogram entry (k, j, i) with its projection value (also lines 435-442) |
| Radon.RadonAdKernel | Model_Reco_OpenCL.py:225-251 | the launch writes every image entry (k, y, x) with its back-projection value (also lines 444-452) |
| Operator.TermIdentity | Model_Reco_OpenCL.py:281-327 | a * conj(y*conj(g)*conj(c)) equals a*g*c*conj(y): one forward term paired with a sample is the unknown paired with one adjoint term |
| Operator.SampleProdExpand | Model_Reco_OpenCL.py:269-283 | the pairing of one forward sample with a sample y is the sum over the unknowns of the three-factor family |
| Operator.ScanExpand | Model_Reco_OpenCL.py:304-327 | the pairing of one unknown with one scan's adjoint sum is the family summed over the coils |
| Operator.EntryProdExpand | Model_Reco_OpenCL.py:304-327 | the pairing of one unknown with its adjoint entry is the family summed over scans and coils |
| Operator.SampleScanSwap | Model_Reco_OpenCL.py:269-283 | one scan's pairing, summed over coils, is the family summed over unknowns with the sums exchanged |
| Operator.OperatorAdjointAt | Model_Reco_OpenCL.py:254-333 | with the screen switched off, <operator_fwd(a), y> == <a, operator_ad(y)> at every pixel and slice, for every Jacobian and coil map |
| Operator.ScreenRealData | Model_Reco_OpenCL.py:318-322 | on samples whose imaginary parts are all zero the screen as written changes nothing |
| Operator.OperatorAdjointRealData | Model_Reco_OpenCL.py:254-333 | the adjoint as written is the true adjoint on real-valued samples |
| Operator.SingleSample | Model_Reco_OpenCL.py:269-333 | with one unknown, scan, coil and slice, each inner product is its single term |
| Operator.ScreenBreaksAdjointness | Model_Reco_OpenCL.py:318-322 | the screen as written breaks adjointness: with unit factors and the sample i, <fwd(1), i> = -i while <1, ad(i)> = 0 |
| Operator.UnitFwdTerm | Model_Reco_OpenCL.py:281-283 | the forward term of the counterexample paired with i is -i |
| Operator.UnitAdTerm | Model_Reco_OpenCL.py:318-327 | the screened adjoint term of the counterexample is zero |
| OperatorKernels.EntryIndex | Model_Reco_OpenCL.py:277-326 | the slot layout of an unknown entry is the kernel's index j*NSl*X*Y + slice*X*Y + y*X + x |
| OperatorKernels.GradIndex | Model_Reco_OpenCL.py:278-313 | the slot layout of a Jacobian entry is the kernel's index j*NSc*NSl*X*Y + scan*NSl*X*Y + slice*X*Y + y*X + x |
| OperatorKernels.CoilIndex | Model_Reco_OpenCL.py:279-315 | the slot layout of a coil entry is the kernel's index coil*NSl*X*Y + slice*X*Y + y*X + x |
| OperatorKernels.SampleIndex | Model_Reco_OpenCL.py:282-316 | the slot layout of a sample is the kernel's index scan*NCo*NSl*X*Y + coil*NSl*X*Y + slice*X*Y + y*X + x |
| OperatorKernels.SampleSlotDecode | Model_Reco_OpenCL.py:282 | a sample slot is in range and decodes back to its slice, coil and scan |
| OperatorKernels.EntrySlotDecode | Model_Reco_OpenCL.py:326 | an entry slot is in range and decodes back to its slice and unknown |
| OperatorKernels.SlotOf | Model_Reco_OpenCL.py:277-282 | a buffer index belongs to a pixel and a slot exactly when it is that pixel's offset in that slot |
| OperatorKernels.FwdStep | Model_Reco_OpenCL.py:282-283 | one innermost iteration adds the forward term of (j, scan, coil, slice) to the pixel's sample slot and nothing else |
| OperatorKernels.FwdSlices | Model_Reco_OpenCL.py:275-284 | the slice loop adds the term of unknown j to each slice of the given scan and coil |
| OperatorKernels.FwdCoils | Model_Reco_OpenCL.py:273-285 | the coil loop does so for every coil of the scan |
| OperatorKernels.FwdScans | Model_Reco_OpenCL.py:271-286 | the scan loop completes unknown j for every sample of the pixel |
| OperatorKernels.FwdItem | Model_Reco_OpenCL.py:258-288 | one work item adds, to every sample slot of its pixel, the sum over the unknowns of unknown*Jacobian*coil, and leaves other pixels' slots alone |
| OperatorKernels.AdStep | Model_Reco_OpenCL.py:324-327 | one innermost iteration adds the screened adjoint term to the pixel's entry slot (j, slice) and nothing else |
| OperatorKernels.AdSoFarDone | Model_Reco_OpenCL.py:304-332 | after all four loops the running value of each entry slot is its full adjoint sum |
| OperatorKernels.AdDone | Model_Reco_OpenCL.py:304-332 | after all loops each slot of the pixel holds its start value plus its adjoint sum, the other slots their start value |
| OperatorKernels.AdSlices | Model_Reco_OpenCL.py:310-329 | the slice loop adds the term of (j, scan, coil) to each slice entry |
| OperatorKernels.AdCoils | Model_Reco_OpenCL.py:308-330 | the coil loop does so for every coil of the scan |
| OperatorKernels.AdItem | Model_Reco_OpenCL.py:294-332 | one work item adds, to every entry slot of its pixel, the sum over scans and coils of screened sample*conj(Jacobian)*conj(coil), other pixels untouched |
| OperatorKernels.PixelsDone | Model_Reco_OpenCL.py:258-261 | once every pixel has been visited, every slot holds its start value plus its pixel's contribution |
| OperatorKernels.FwdPixel | Model_Reco_OpenCL.py:258-288 | the forward work item of pixel pix extends the finished pixels by pix |
| OperatorKernels.FwdKernel | Model_Reco_OpenCL.py:254-289 | the forward launch adds, at every index, the forward value of that index's pixel and slot |
| OperatorKernels.AdPixel | Model_Reco_OpenCL.py:294-332 | the adjoint work item of pixel pix extends the finished pixels by pix |
| OperatorKernels.AdKernel | Model_Reco_OpenCL.py:290-333 | the adjoint launch adds, at every index, the adjoint value of that index's pixel and slot |
| OperatorKernels.FwdOutAt | Model_Reco_OpenCL.py:254-289 | a forward output sample read back from the buffer is the per-pixel forward value of the buffer's unknowns, Jacobian and coils |
| OperatorKernels.AdOutAt | Model_Reco_OpenCL.py:290-333 | an adjoint output entry read back is the per-pixel adjoint value of the buffer's samples |
| OperatorKernels.SliceAdjoint | Model_Reco_OpenCL.py:254-333 | at each pixel and slice, the buffer pairings of forward output with samples and of unknowns with adjoint output agree |
| OperatorKernels.OperatorAdjoint | Model_Reco_OpenCL.py:254-333 | over whole buffers, <operator_fwd(in), y> == <in, operator_ad(y)> when the adjoint passes its samples through unscreened |
| OperatorKernels.ForwardImages | Model_Reco_OpenCL.py:566-580 | the image-domain half of operator_forward_2D: a zeroed NScan*NC image stack plus one forward launch with one slice holds the forward value at every index |
| OperatorKernels.AdjointImages | Model_Reco_OpenCL.py:586-604 | the image-domain half of operator_adjoint_2D: a zeroed stack of unknowns plus one adjoint launch holds the adjoint value at every index |
| BoxCon.ClampLane | Model_Reco_OpenCL.py:354-361 | the clamped lane lies in [lo, hi] whenever lo <= hi, an in-range value is left as it is, and an empty interval (hi < lo) yields lo because the lower test runs last |
| BoxCon.ClampLaneIsMaxMin | Model_Reco_OpenCL.py:354-361 | the two guarded assignments compute max(lo, min(hi, v)) for every bound pair |
| BoxCon.Constrain | Model_Reco_OpenCL.py:351-381 | the real part ends in [lo, hi]; a real-valued constraint zeroes the imaginary part; a complex one clamps the imaginary part into [lo, hi] as well |
| BoxCon.ConstrainFixes | Model_Reco_OpenCL.py:351-381 | a sample that already satisfies the constraint is unchanged, the result satisfies a non-empty constraint, and constraining twice equals constraining once |
| BoxCon.ConstrainAllLast | Model_Reco_OpenCL.py:349-382 | after the loop over all NCon constraints the sample satisfies the last one, when its interval is non-empty |
| BoxCon.ConstrainAllFixes | Model_Reco_OpenCL.py:349-382 | a sample that satisfies every constraint passes through the loop unchanged |
| BoxCon.ApplyConstraint | Model_Reco_OpenCL.py:351-381 | one loop body: out[id] becomes the constrained sample and no other entry changes |
| BoxCon.BoxConItem | Model_Reco_OpenCL.py:337-382 | one work item: out[id] becomes its old value with the constraints applied in order, every other entry is untouched |
| BoxCon.BoxConKernel | Model_Reco_OpenCL.py:334-383 | the launch over the X-by-Y image: every sample becomes its old value with all constraints applied in order |
| SolverMath.VLin | Model_Reco_OpenCL.py:723-756 | a*u + b*w entry by entry, of u's length |
| SolverMath.VSub | Model_Reco_OpenCL.py:745-749 | u - w entry by entry, of u's length |
| SolverMath.Head | Model_Reco_OpenCL.py:755 | u[:n] holds the first n entries (all of u when n exceeds its length) |
| SolverMath.Tail | Model_Reco_OpenCL.py:726-774 | u[-n:] holds the last n entries |
| SolverMath.NormSq | Model_Reco_OpenCL.py:777-780 | the squared norm is non-negative |
| SolverMath.NormSqConcat | Model_Reco_OpenCL.py:777 | the squared norm of a concatenation is the sum of the squared norms |
| SolverMath.ReDotSelf | Model_Reco_OpenCL.py:780-785 | the real part of vdot(u, u) is the squared norm |
| SolverMath.PrimalLaneIff | Model_Reco_OpenCL.py:723 | the primal step is the unique r with r - x + tau*(g + (r - xk)/delta) == 0, i.e. the proximal point of the delta-weighted distance to xk |
| SolverMath.PrimalAtOptimal | Model_Reco_OpenCL.py:723 | the same on complex entries, both directions |
| SolverMath.H1LaneIff | Model_Reco_OpenCL.py:723-726 | the H1 step applied after the primal step is the unique r with r - x + tau*(g + (r - xk)/delta + omega*(r - fa)) == 0 |
| SolverMath.H1AtOptimal | Model_Reco_OpenCL.py:723-726 | the same on complex entries, both directions |
| SolverMath.DualRLaneIff | Model_Reco_OpenCL.py:771 | the update of r is the unique rn with rn - (r + sigma*t) + sigma*(rn/lambd + res) == 0, the proximal point of the conjugate data term |
| SolverMath.DualRAtOptimal | Model_Reco_OpenCL.py:771 | the same on complex entries, both directions |
| SolverMath.Z3LaneIff | Model_Reco_OpenCL.py:774-775 | the update of z3 is the unique zn with zn - (z + sigma*g) + (sigma/omega)*zn == 0 |
| SolverMath.Z3AtOptimal | Model_Reco_OpenCL.py:774-775 | the same on complex entries, both directions |
| SolverMath.PrimalUpdateOptimal | Model_Reco_OpenCL.py:723-726 | every entry of x_new satisfies the optimality condition of its step, the H1 one on the trailing unknowns when there are any |
| SolverMath.DivisorBounds | Model_Reco_OpenCL.py:757-763 | the divisor max(1, norm/bound) is at least 1 and at least norm/bound, and exactly 1 inside the ball |
| SolverMath.ProjectAt | Model_Reco_OpenCL.py:757-765 | each entry is divided by its pixel's divisor |
| SolverMath.ProjectPixel | Model_Reco_OpenCL.py:757-765 | all entries of one pixel are divided by the same divisor |
| SolverMath.ProjectNormSq | Model_Reco_OpenCL.py:757-765 | the scaled pixel's weighted squared norm is the old one times the square of 1/divisor |
| SolverMath.ProjectBall | Model_Reco_OpenCL.py:757-765 | after the scaling every pixel lies in the ball of radius alpha (z1) or beta (z2, off-diagonal counted twice) |
| SolverMath.ProjectKeeps | Model_Reco_OpenCL.py:757-765 | a pixel already inside its ball is left unchanged |
| SolverMath.StepSizeRule | Model_Reco_OpenCL.py:734-736 | beta grows, and the new step is positive with tau_new^2 == tau^2*(1 + theta)/(1 + mu*tau) |
| SolverMath.CandidateDecreasing | Model_Reco_OpenCL.py:790 | the trial steps tried by the backtracking loop are positive and strictly decreasing, none above the first |
| SolverMath.YNormForms | Model_Reco_OpenCL.py:777-780 | the two ways of measuring the change of the duals agree when there is no z3 |
| SolverMath.TrialBalls | Model_Reco_OpenCL.py:755-766 | every trial keeps z1 in the alpha ball and z2 in the beta ball at every pixel |
| SolverMath.TrialR | Model_Reco_OpenCL.py:768-771 | every trial's r satisfies the optimality condition of its proximal step |
| SolverMath.TrialZ3 | Model_Reco_OpenCL.py:773-775 | without H1 unknowns z3 is left as it is, with them every entry satisfies its optimality condition |
| SolverMath.HalfRecip | Model_Reco_OpenCL.py:808-816 | 1/(2*delta) is positive and its product with 2*delta is 1 |
| SolverMath.PrimalNonneg | Model_Reco_OpenCL.py:815-816 | with positive weights the primal energy is never negative |
| SolverMath.Decide | Model_Reco_OpenCL.py:823-848 | a checkpoint stops for a stalled primal energy exactly when abs(primal - primal_new) < lambd*tol; if it goes on, primal becomes primal_new and gap_min the smaller of gap and gap_min; in iterations 0 and 1 only the first test can stop it |
| SolverMath.DecideContinues | Model_Reco_OpenCL.py:826-848 | a checkpoint goes on exactly when none of the three stopping tests holds |
| Solver.SearchFirst | Model_Reco_OpenCL.py:751-790 | the backtracking search returns the first accepted trial within the fuel, or none when no trial within it is accepted |
| Solver.StartGood | Model_Reco_OpenCL.py:646-687 | the initial state satisfies the solver's invariant and its step is tau = 1/sqrt(L) |
| Solver.PrepareStep | Model_Reco_OpenCL.py:723-749 | the preparation of a pass grows beta and computes the first trial step by the step-size rule |
| Solver.CheckNext | Model_Reco_OpenCL.py:792-852 | a pass that goes on stores x_new, v_new, the accepted duals, K*y, Ax, tau_new and theta = tau_new/tau |
| Solver.CheckGood | Model_Reco_OpenCL.py:792-852 | a pass that goes on keeps the invariant, grows beta and sets theta = tau_new/tau |
| Solver.StepGood | Model_Reco_OpenCL.py:721-852 | every pass that goes on keeps the invariant, grows beta and never takes a step above its first trial |
| Solver.CheckHalt | Model_Reco_OpenCL.py:803-846 | a pass halts only at a checkpoint; a stalled primal energy returns x_new with v_new; stagnation (only after iteration 1) returns the old x and v; a stalled gap returns x_new; the accepted r, z1, z2 are persisted and z3 is not |
| Solver.CheckContinue | Model_Reco_OpenCL.py:803-848 | off checkpoints primal and gap_min are kept; at a checkpoint primal becomes primal_new and gap_min does not exceed gap |
| Solver.TrialBallsAt | Model_Reco_OpenCL.py:755-766 | every trial's z1 and z2 lie in their balls |
| Solver.TrialInBalls | Model_Reco_OpenCL.py:755-766 | every trial's duals have the right shapes and lie in their balls |
| Solver.StepBalls | Model_Reco_OpenCL.py:721-852 | after every pass, or at every halt, z1 and z2 lie in their balls |
| Solver.RunBalls | Model_Reco_OpenCL.py:721-862 | the z1 and z2 the solver leaves behind always lie in the alpha and beta balls |
| Solver.GapWithoutH1 | Model_Reco_OpenCL.py:814-823 | without H1 unknowns the dual energy stays 0, so the gap is the primal energy |
| Solver.StepKeepsZ3 | Model_Reco_OpenCL.py:773-845 | without H1 unknowns a pass never changes z3, and an early exit never persists it |
| Solver.RunZ3 | Model_Reco_OpenCL.py:797-860 | self.z3 is written only when there are H1 unknowns and the loop ran to the end |
| Solver.StepHaltKeepsZ3 | Model_Reco_OpenCL.py:826-846 | an early exit never writes z3 |
| Solver.StepGapMin | Model_Reco_OpenCL.py:803-848 | gap_min never grows after iteration 0; at a checkpoint primal becomes the non-negative primal energy |
| Solver.SearchSkip | Model_Reco_OpenCL.py:787-790 | a rejected trial moves the search on to the next candidate |
| Solver.Backtrack | Model_Reco_OpenCL.py:751-790 | the loop finds a step exactly when the search does, and then the step is the first accepted candidate and its trial passes the test |
| Solver.TgvSolver.constructor | Model_Reco_OpenCL.py:652-663 | the solver's buffers v, r, z1, z2, z3 hold the given values |
| Solver.TgvSolver.Reset | Model_Reco_OpenCL.py:652-663 | the buffers are overwritten with the given values |
| Solver.TgvSolver.Solve | Model_Reco_OpenCL.py:624-862 | the returned x and exit are those of the whole iteration; v, r, z1, z2 are persisted unless the search ran out of fuel, and z3 only when the iteration wrote it |
| Solver.TgvSolver.Persist | Model_Reco_OpenCL.py:828-860 | the fields are written from the outcome, with z3 only when the outcome writes it |
| Solver.Loop | Model_Reco_OpenCL.py:721-852 | the loop over the iterations returns the outcome of Run |
| Solver.Pass | Model_Reco_OpenCL.py:722-852 | one pass of the loop body computes StepAt |
| Solver.CheckOffCheckpoint | Model_Reco_OpenCL.py:803 | off checkpoints the energies are not consulted |
| Solver.Checkpoint | Model_Reco_OpenCL.py:792-852 | the checkpoint code computes Check |
| Solver.Extrapolate | Model_Reco_OpenCL.py:723-749 | the preparation code computes Prepare |
| Solver.Energies | Model_Reco_OpenCL.py:815-823 | the energies are the primal energy and the gap of the model |
| Solver.StepFound | Model_Reco_OpenCL.py:751-852 | when the search accepts a trial, the pass is the checkpoint of that trial |
| Solver.StepNotFound | Model_Reco_OpenCL.py:751-790 | when no trial within the fuel is accepted, the pass halts with the state unchanged |
| Solver.TrialZ3Kept | Model_Reco_OpenCL.py:773-775 | without H1 unknowns a trial leaves z3 as it was |
| Driver.NextIters | Model_Reco_OpenCL.py:553 | iters becomes 2*iters, capped at max_iters, and is one of the two |
| Driver.NextGamma | Model_Reco_OpenCL.py:554 | gamma becomes 0.1*gamma, never below gamma_min, and is one of the two |
| Driver.NextDelta | Model_Reco_OpenCL.py:555 | delta becomes delta*delta_inc, never above delta_max, and is one of the two |
| Driver.ItersClosedForm | Model_Reco_OpenCL.py:531-553 | after k steps iters is min(iters0*2^k, max_iters) |
| Driver.GammaClosedForm | Model_Reco_OpenCL.py:522-554 | after k steps gamma is max(gamma0*0.1^k, gamma_min) |
| Driver.DeltaClosedForm | Model_Reco_OpenCL.py:523-555 | after k steps delta is min(delta0*delta_inc^k, delta_max) |
| Driver.ScheduleBounds | Model_Reco_OpenCL.py:553-555 | iters stays within max_iters, gamma at least gamma_min and delta at most delta_max; gamma never grows and delta never shrinks under the stated signs |
| Driver.GammaAbove | Model_Reco_OpenCL.py:554 | gamma never falls below gamma_min |
| Driver.DeltaBelow | Model_Reco_OpenCL.py:555 | delta stays between 0 and delta_max when it starts there |
| Driver.ScheduleSigns | Model_Reco_OpenCL.py:554-555 | gamma stays nonnegative and delta positive |
| Driver.TgvParamsFacts | Model_Reco_OpenCL.py:625-626 | the TGV solve gets lambd, delta and omega unchanged, beta = 2*alpha, and alpha*scale^2 = gamma; its parameters are valid under positive weights (also line 494) |
| Driver.PyTail | Model_Reco_OpenCL.py:500 | x[-n:] is the last n entries, and all of x when n is 0 |
| Driver.FvalNonneg | Model_Reco_OpenCL.py:496-500 | the recorded energy, as written and corrected, is never negative |
| Driver.FvalChargesAllUnknowns | Model_Reco_OpenCL.py:497-500 | without H1 unknowns the energy as written adds omega/2 times the gradient energy of every unknown, so it is larger than the intended one (see Findings) |
| Driver.FvalH1Term | Model_Reco_OpenCL.py:496-500 | the corrected energy has no H1 term without H1 unknowns and charges only the trailing H1 unknowns otherwise |
| Driver.NextFvalMin | Model_Reco_OpenCL.py:563 | fval_min becomes the smaller of fval and fval_min |
| Driver.FvalMinStuckAtZero | Model_Reco_OpenCL.py:560-563 | starting from 0 and fed nonnegative energies, fval_min stays 0, so the stopping test reduces to fval < lambd*tol (see Findings) (also line 49) |
| Driver.StallNotDetected | Model_Reco_OpenCL.py:560 | an energy stalled at 5 with lambd*tol = 1 never stops the run as written, while the corrected test stops it |
| Driver.BestOfIsMin | Model_Reco_OpenCL.py:560-563 | the best earlier energy exists exactly when there was one, is one of them, and is no larger than any |
| Driver.NextEstimateAsWritten | Model_Reco_OpenCL.py:494-550 | the next GN step starts from the stored estimate, of its length |
| Driver.NextEstimate | Model_Reco_OpenCL.py:494-550 | the corrected next estimate has the solve's length |
| Driver.SolveOutputLost | Model_Reco_OpenCL.py:494-550 | two different solve results leave the same next estimate as written, so at least one of them is lost (see Findings) |
| Driver.SolveOutputKept | Model_Reco_OpenCL.py:494-550 | corrected, the next step starts from what the solve returned, whatever was stored |
| Driver.RescaleT1 | Model_Reco_OpenCL.py:541-543 | each entry of the slice estimate is that of the rescaled T1 block |
| Driver.RescaleT1Facts | Model_Reco_OpenCL.py:541-543 | only unknown 1 changes, and T1_sc*result[1] is kept when the new T1_sc is nonzero |
| Driver.UndoScale | Model_Reco_OpenCL.py:541-543 | scaling by 1/t and then by t gives the entry back |
| Driver.RescaleTail | Diff_model.py:24-26 | constraint 0 is kept and each later one is rescaled (applied at Model_Reco_OpenCL.py lines 538-539) |
| Driver.RescaleTailFacts | Diff_model.py:24-26 | constraint 0 and every realness flag are kept, a positive scale keeps min <= max, and rescaling by 1/scale undoes it (applied at Model_Reco_OpenCL.py lines 538-539) |
| Driver.T1KeptStep | Model_Reco_OpenCL.py:541-543 | a further rescale keeps T1_sc*result[1] equal to its original value |
| Driver.ZeroBuffers | Model_Reco_OpenCL.py:526-530 | the per-slice reset gives v, z1, z2, z3 and r the shapes of lines 526-530, all zero |
| Driver.ZeroBuf | Model_Reco_OpenCL.py:526-530 | a zero buffer of the given length |
| Driver.Persisted | Model_Reco_OpenCL.py:855-862 | the solver keeps v, r, z1, z2 from the solve unless it ran out of fuel, and z3 only when the solve wrote it |
| Driver.HistoryStep | Model_Reco_OpenCL.py:551 | storing step n of slice s keeps the other slices' entries and extends slice s's keys by one |
| Driver.Reco.constructor | Model_Reco_OpenCL.py:44-50 | fval and fval_min start at 0, with no stored estimates |
| Driver.Reco.RescaleConstraints | Model_Reco_OpenCL.py:538-539 | every constraint after the first is rescaled by scale, the first is kept |
| Driver.Reco.RescaleT1Block | Model_Reco_OpenCL.py:541-543 | T1_sc is multiplied by scale and unknown 1 of the slice is rescaled; nothing else changes |
| Driver.Reco.SolveStep | Model_Reco_OpenCL.py:494 | the solve returns the solver's iterate and persists its buffers |
| Driver.Reco.Measure | Model_Reco_OpenCL.py:496-500 | fval becomes the energy as written, nonnegative under nonnegative weights |
| Driver.Reco.Advance | Model_Reco_OpenCL.py:553-563 | the schedule advances, stop is the test of line 560, and fval_min becomes min(fval, fval_min) only when the run goes on |
| Driver.Reco.Linearise | Model_Reco_OpenCL.py:534-543 | the scale is the ratio of the Jacobian's first two blocks; constraints and T1 block are rescaled by it |
| Driver.Reco.Record | Model_Reco_OpenCL.py:496-563 | the estimate is stored, the energy recorded, the schedule advanced and the stopping test applied |
| Driver.Reco.GnStep | Model_Reco_OpenCL.py:533-563 | one Gauss-Newton step: rescale, solve, record, advance and test |
| Driver.Reco.ResetSlice | Model_Reco_OpenCL.py:522-530 | gamma and delta return to their initial values and the dual buffers are zeroed |
| Driver.Reco.SliceStep | Model_Reco_OpenCL.py:532-563 | one pass of the Gauss-Newton loop keeps the slice's progress invariant |
| Driver.Reco.Slice | Model_Reco_OpenCL.py:521-563 | a slice runs max_GN_it steps unless it stops earlier, and stops only when the test holds |
| Driver.Reco.Execute | Model_Reco_OpenCL.py:507-563 | every estimate differs from the guess only in unknown 1; the history holds exactly the steps run; a stop happens only when the test holds; and fval_min stays 0 throughout |
| SymGrad3D.LineCancelX | test/unittests/test_symmetrized_gradient.py:92-162 | summation by parts along x: the backward difference of a times b plus a times the negative-adjoint divergence of b sums to 0 on every line |
| SymGrad3D.LineCancelY | test/unittests/test_symmetrized_gradient.py:95-162 | the same along y |
| SymGrad3D.LineCancelZ | test/unittests/test_symmetrized_gradient.py:98-162 | the same along the slice axis |
| SymGrad3D.PairX | test/unittests/test_symmetrized_gradient.py:92-162 | summation by parts along x over the whole volume |
| SymGrad3D.PairY | test/unittests/test_symmetrized_gradient.py:95-162 | summation by parts along y over the whole volume |
| SymGrad3D.PairZ | test/unittests/test_symmetrized_gradient.py:98-162 | summation by parts along the slice axis over the whole volume |
| SymGrad3D.RowCancel | test/unittests/test_symmetrized_gradient.py:102-162 | for one row of the tensor, the weighted gradient products and the weighted divergence products cancel over the volume |
| SymGrad3D.SymGradDiagAt | test/unittests/test_symmetrized_gradient.py:102-109 | the diagonal components are w(u) times the x-difference of component 0, the y-difference of component 1, and dz times the z-difference of component 2 |
| SymGrad3D.SymGradOffAt | test/unittests/test_symmetrized_gradient.py:105-109 | each off-diagonal component is w(u) times the mean of the two mixed differences, the slice-axis ones times dz |
| SymGrad3D.LhsPoint | test/unittests/test_symmetrized_gradient.py:156-159 | at every voxel, the three tensor rows' products with q equal the diagonal products plus twice the off-diagonal products |
| SymGrad3D.NegDivPoint | test/unittests/test_symmetrized_gradient.py:161-162 | at every voxel, v times minus the divergence is minus the divergence products of the tensor row |
| SymGrad3D.UnknownAdjoint | test/unittests/test_symmetrized_gradient.py:156-166 | for each unknown, the diagonal products plus twice the off-diagonal products sum to the sum of v times minus the divergence of q |
| SymGrad3D.SymGradAdjoint | test/unittests/test_symmetrized_gradient.py:147-191 | over all unknowns and voxels, <symgrad v, q> on the diagonal plus twice <symgrad v, q> off the diagonal equals <v, -div q> (the test's a1 + a2 == b) |
| SymGradRef.Flip | test/unittests/test_symmetrized_gradient.py:92-100 | np.flip keeps the length |
| SymGradRef.Diff | test/unittests/test_symmetrized_gradient.py:92-100 | np.diff has one entry fewer, none for an empty line |
| SymGradRef.Negate | test/unittests/test_symmetrized_gradient.py:92-100 | negation keeps the length |
| SymGradRef.NpBackward | test/unittests/test_symmetrized_gradient.py:92-100 | -flip(diff(flip(s))) written into entries 1.. of a zeroed line keeps the length |
| SymGradRef.FlipFlip | test/unittests/test_symmetrized_gradient.py:92-100 | flipping twice gives the line back |
| SymGradRef.NpBackwardAt | test/unittests/test_symmetrized_gradient.py:92-100 | entry k of the np construction is the backward difference s[k] - s[k-1], and 0 at k == 0 |
| SymGradRef.NpBackwardIsBwd | test/unittests/test_symmetrized_gradient.py:92-100 | the whole np construction is the backward difference of the line |
| SymGradRef.GradXIs | test/unittests/test_symmetrized_gradient.py:92-94 | gradx is the backward x-difference of each component |
| SymGradRef.GradYIs | test/unittests/test_symmetrized_gradient.py:95-97 | grady is the backward y-difference of each component |
| SymGradRef.GradZIs | test/unittests/test_symmetrized_gradient.py:98-100 | gradz is the backward slice-axis difference of each component |
| SymGradRef.NpStackIs | test/unittests/test_symmetrized_gradient.py:102-108 | the np.stack of the six components is the stacked tensor of the model |
| SymGradRef.NpSymGradMatches | test/unittests/test_symmetrized_gradient.py:102-139 | the reference construction, weights included, equals the model's symmetrised gradient |
| SymGradRef.DiagonalFirstZero | test/unittests/test_symmetrized_gradient.py:92-104 | each diagonal component is zero at the first index of its own axis |
| SymGradRef.StreamedGrads | test/unittests/test_symmetrized_gradient.py:227-261 | in the streamed layout (slice axis first, unknowns second) the three differences equal those of the standard layout |
| SymGradRef.StreamedStackIs | test/unittests/test_symmetrized_gradient.py:227-261 | the streamed stacked tensor equals the standard one |
| SymGradRef.StreamedLayout | test/unittests/test_symmetrized_gradient.py:227-261 | the streamed reference, with weights broadcast on axis 1, equals the standard reference and the model's symmetrised gradient |
| SymGradComplex.ConjDot3Lanes | test/unittests/test_symmetrized_gradient.py:156-162 | the conjugated three-term product of np.vdot, lane by lane |
| SymGradComplex.CDot3Re | test/unittests/test_symmetrized_gradient.py:156-162 | the real part of a complex product field is the sum of the real-real and imaginary-imaginary real products |
| SymGradComplex.CDot3Im | test/unittests/test_symmetrized_gradient.py:156-162 | its imaginary part is the real-imaginary minus the imaginary-real real products |
| SymGradComplex.GradLanes | test/unittests/test_symmetrized_gradient.py:92-109 | the symmetrised gradient of complex data acts on the real and imaginary parts separately |
| SymGradComplex.NegDivLanes | test/unittests/test_symmetrized_gradient.py:161-162 | so does minus the divergence |
| SymGradComplex.NegDivDotRe | test/unittests/test_symmetrized_gradient.py:161-162 | the real part of <v, -div q> from real products |
| SymGradComplex.NegDivDotIm | test/unittests/test_symmetrized_gradient.py:161-162 | the imaginary part of <v, -div q> from real products |
| SymGradComplex.SymGradAdjointC | test/unittests/test_symmetrized_gradient.py:147-191 | for complex v and q the identity a1 + a2 == b holds with np.vdot's conjugation, both real and imaginary parts |
| DiffModel.DivBy | Diff_model.py:24-26 | dividing a bound by a finite scale keeps NaN as NaN, keeps finite bounds finite and infinite ones infinite for a non-zero scale, and for a positive scale gives v/scale or leaves an infinity as it is |
| DiffModel.DivByMonotone | Diff_model.py:24-26 | dividing both bounds by a positive scale keeps their order |
| DiffModel.DivByReverses | Diff_model.py:24-26 | dividing both bounds by a negative scale reverses their order |
| DiffModel.DivByUndo | Diff_model.py:24-26 | dividing by scale and then by 1/scale gives the bound back, for every non-zero scale |
| DiffModel.Rescaled | Diff_model.py:24-26 | `update` leaves the real-valued flag alone |
| DiffModel.RescaledOrder | Diff_model.py:24-26 | a positive scale keeps an ordered constraint ordered, and rescaling by 1/scale undoes it |
| DiffModel.Constraint.constructor | Diff_model.py:20-23 | the new constraint holds the given min, max and real flag (defaults -inf, +inf, false) |
| DiffModel.Constraint.Update | Diff_model.py:24-26 | both bounds of the object are divided by the scale in place, the flag is kept |
| DiffModel.Unbounded | Diff_model.py:20-23 | a default-constructed constraint is (-inf, +inf, complex) |
| DiffModel.UnboundedStays | Diff_model.py:20-26 | the default constraint admits every non-NaN value and a positive rescale leaves it unchanged |
| DiffModel.Views | Diff_model.py:19-26 | the value view of a constraint list has one entry per object, entry j being object j's bounds |
| DiffModel.Build | Diff_model.py:72-73 | appending fresh constraint objects yields distinct objects whose views are exactly the requested bounds |
| DiffModel.Table | Diff_model.py:72-73 | the model has two constraints: M0 complex-valued, ADC real-valued |
| DiffModel.TableOrdered | Diff_model.py:72-73 | for positive unknown scales both constraints are finite and ordered, and the M0 interval is symmetric about zero |
| DiffModel.MakeConstraints | Diff_model.py:72-73 | the model's constraint list is two fresh distinct objects holding the table above |
| DiffModel.ScaleImage | Diff_model.py:75-76 | every pixel of the image is multiplied by the factor, nothing else changes |
| DiffModel.ScaleImageUndo | Diff_model.py:75-76 | scaling by t and then by 1/t returns the image, for t != 0 |
| DiffModel.Rescale | Diff_model.py:74-77 | the rescaled pair holds M0 times uk_scale[0] and ADC times uk_scale[1], pixel by pixel |
| DiffModel.RescaleUndo | Diff_model.py:74-77 | rescaling with the reciprocal factors inverts `rescale` for non-zero unknown scales |
| DiffModel.SignalFactors | Diff_model.py:95-110 | the signal is M0 times its M0 derivative, is linear in M0 with that derivative as slope, and the ADC derivative is -TE*uk1 times the signal |
| DiffModel.Forward3D | Diff_model.py:95-100 | one image per scan, each the size of the unknown images |
| DiffModel.Gradient3D | Diff_model.py:102-110 | two derivative stacks (M0, ADC), one image per scan each, of the unknowns' size |
| DiffModel.ForwardMatchesGradient | Diff_model.py:95-110 | for every scan and pixel, the forward image equals x0 times the M0 Jacobian entry, and the ADC Jacobian entry equals -TE*uk1 times the forward image |
| Ivim.MaxOf | pyqmri/models/Ivim.py:24 | the value `np.max` returns is one of the b-values and bounds all of them |
| Ivim.PerThousand | pyqmri/models/Ivim.py:25 | every b-value is divided by 1000, the length is kept |
| Ivim.NormaliseBFacts | pyqmri/models/Ivim.py:19-25 | the conversion keeps the count and the order of the b-values, divides the largest by 1000 exactly when it exceeds 100, and leaves every list whose maximum is at most 100000 with a maximum of at most 100 |
| Ivim.LoadB | pyqmri/models/Ivim.py:19-25 | the b array holds the first NScan b-values, converted when the largest exceeds 100 |
| Ivim.FillB | pyqmri/models/Ivim.py:19-22 | the loop writes b-value i into slot i of the buffer, for every slot |
| Ivim.DivideB | pyqmri/models/Ivim.py:24-25 | the in-place division leaves each slot at its old value over 1000 |
| Ivim.IvimTable | pyqmri/models/Ivim.py:43-62 | four constraints: M0 complex-valued, ADC, f and ADC_ivim real-valued |
| Ivim.IvimTableUnit | pyqmri/models/Ivim.py:32-34 | with the unit scales the constructor sets, the table is [0,10] complex, [0,10], [0,1] and [0,150] real, each ordered |
| Ivim.IvimTableOrdered | pyqmri/models/Ivim.py:43-62 | for any positive scales every bound is finite and every interval ordered |
| Ivim.Rescale4 | pyqmri/models/Ivim.py:64-71 | the rescaled stack has the four unknowns |
| Ivim.Rescale4Facts | pyqmri/models/Ivim.py:64-71 | each unknown's pixels are multiplied by its own scale, and the reciprocal scales undo the rescale when no scale is zero |
| Ivim.MixAffine | pyqmri/models/Ivim.py:86-90 | the two-compartment mixture f*Ei + (1-f)*Ea is Ea plus f times the difference of the decays |
| Ivim.MixShift | pyqmri/models/Ivim.py:86-90 | moving the fraction by g moves the mixture by g times the difference of the decays |
| Ivim.SignalIsM0TimesGrad | pyqmri/models/Ivim.py:86-104 | the forward sample is x0 times the M0 entry of the Jacobian |
| Ivim.SignalAffineInF | pyqmri/models/Ivim.py:86-114 | changing x2 by h changes the forward sample by exactly h times the f entry of the Jacobian (the model is affine in f) |
| Ivim.AdcInner | pyqmri/models/Ivim.py:107-109 | the two ADC terms combine to -b*s1 times (1 - x2*s2) times the diffusion decay |
| Ivim.DecayGradients | pyqmri/models/Ivim.py:86-120 | the signal is the sum of its pseudo-diffusion and diffusion parts; the ADC entry is -b*s1 times the diffusion part and the ADC_ivim entry -b*s3 times the pseudo-diffusion part, the chain rule of each exponential |
| Ivim.PhasedFactors | pyqmri/models/Ivim.py:93-128 | after both are multiplied by the phase map, the signal is still x0 times the M0 entry and still moves by h times the f entry when x2 moves by h |
| Ivim.Forward2D | pyqmri/models/Ivim.py:73-75 | the 2-D forward model always fails with NotImplementedError |
| Ivim.Gradient2D | pyqmri/models/Ivim.py:77-79 | the 2-D Jacobian always fails with NotImplementedError |
| Ivim.InitialGuessFeasible | pyqmri/models/Ivim.py:320-337 | under the unit scales each constant map of the guess (ADC 1, f 0.2, ADC_ivim 50) is real and inside its constraint, and the M0 map is the b0 image when given, else the first scan |
| Ivim.IvimModel.constructor | pyqmri/models/Ivim.py:13-62 | b holds the converted b-values, there are four unknowns with unit scales, and the constraint objects are fresh and hold the table in order |
| Ivim.IvimModel.ComputeInitialGuess | pyqmri/models/Ivim.py:320-337 | the stored guess is the b0 or first-scan image over uk_scale[0] followed by the three constant maps; b-values, scales and constraints are unchanged |
| Ffc.Promote | pyqmri/models/FFCPaperPhaseAlpha.py:22-24 | a 1-D time list becomes a single row, a 2-D one is kept row by row |
| Ffc.UnknownsTgv | pyqmri/models/FFCPaperPhaseAlpha.py:28 | three TGV unknowns per field |
| Ffc.Flags | pyqmri/models/FFCPaperPhaseAlpha.py:73-75 | one real-valued flag per constraint, in constraint order |
| Ffc.FfcTableFacts | pyqmri/models/FFCPaperPhaseAlpha.py:39-53 | 3n constraints: n concentrations in [0, 1000] complex, n inversion factors in [0, 5] real, T1_j in [0, 2000/(j+1)] real; the flags are false exactly on the first block and every interval is ordered |
| Ffc.T1MaxFalls | pyqmri/models/FFCPaperPhaseAlpha.py:49-53 | the T1 upper bound 2000/(j+1) strictly falls with the field index |
| Ffc.Decimal | pyqmri/models/FFCPaperPhaseAlpha.py:66 | str(k) of a natural number is a non-empty string of digits |
| Ffc.DecimalRoundTrip | pyqmri/models/FFCPaperPhaseAlpha.py:66 | parsing str(k) gives k back |
| Ffc.DecimalInjective | pyqmri/models/FFCPaperPhaseAlpha.py:66 | different numbers have different decimal strings |
| Ffc.BlockNames | pyqmri/models/FFCPaperPhaseAlpha.py:64-72 | one block of names: prefix followed by str(1+j) for j < n |
| Ffc.NamesFacts | pyqmri/models/FFCPaperPhaseAlpha.py:63-72 | 3n names C_1..C_n, alpha_1..alpha_n, T1_1..T1_n, in that order and pairwise different |
| Ffc.NameAt | pyqmri/models/FFCPaperPhaseAlpha.py:63-72 | name k is its block's prefix followed by its number within the block |
| Ffc.NamesDiffer | pyqmri/models/FFCPaperPhaseAlpha.py:63-72 | no two unknowns get the same name |
| Ffc.ScaledBelowAll | pyqmri/models/FFCPaperPhaseAlpha.py:62-72 | once all three loops have run, every unknown is scaled |
| Ffc.RescaleDataUndo | pyqmri/models/FFCPaperPhaseAlpha.py:61-78 | scaling by the reciprocal scales undoes `rescale` for non-zero scales, and unit scales leave the data unchanged |
| Ffc.PyIndex | pyqmri/models/FFCPaperPhaseAlpha.py:71 | a negative list index counts from the end, a non-negative one from the start |
| Ffc.FieldGradients | pyqmri/models/FFCPaperPhaseAlpha.py:88-140 | the signal of a field is x_C times the concentration entry of the Jacobian, and moving the inversion factor by h moves it by h times the inversion-factor entry |
| Ffc.Blocks | pyqmri/models/FFCPaperPhaseAlpha.py:85-94 | one block per field, with one row per evolution time of that field |
| Ffc.StackRow | pyqmri/models/FFCPaperPhaseAlpha.py:85-94 | row i of field j's block lands at scan row i + j*offset |
| Ffc.StackZero | pyqmri/models/FFCPaperPhaseAlpha.py:81-83 | scan rows after the last field's block stay zero |
| Ffc.BlocksStack | pyqmri/models/FFCPaperPhaseAlpha.py:85-88 | when every field has the same number of times and n*offset <= NScan, the blocks fit the scan axis without overlap |
| Ffc.ForwardRow | pyqmri/models/FFCPaperPhaseAlpha.py:85-94 | scan row i + j*offset of the forward model is field j's signal at time t[j][i] for every pixel |
| Ffc.ForwardZeros | pyqmri/models/FFCPaperPhaseAlpha.py:81-94 | scan rows beyond n*offset are zero in the forward model |
| Ffc.GuessBoundAt | pyqmri/models/FFCPaperPhaseAlpha.py:300-326 | after the concentration bounds are divided by 1/dscale, the alpha and T1 guesses lie within their bounds, and the concentration guess 0.1 does so exactly when dscale >= 0.0001 |
| Ffc.GuessFeasible | pyqmri/models/FFCPaperPhaseAlpha.py:300-326 | the guess is constant per unknown (0.1, 1, 300/(j+1)); alpha and T1 guesses are feasible for every positive dscale, concentration guesses exactly when dscale >= 0.0001 |
| Ffc.MakeFfcConstraints | pyqmri/models/FFCPaperPhaseAlpha.py:39-53 | 3n fresh, distinct constraint objects holding the table in order |
| Ffc.FfcModel.constructor | pyqmri/models/FFCPaperPhaseAlpha.py:12-53 | times promoted to rows, b0 the given value or else b[0], 3n unit scales, constraint objects holding the table |
| Ffc.FfcModel.Rescale | pyqmri/models/FFCPaperPhaseAlpha.py:61-78 | the returned data are x with each unknown scaled by its own uk_scale, the names are C_j, alpha_j, T1_j, and the flags are the constraints' real flags |
| Ffc.FfcModel.RealFlags | pyqmri/models/FFCPaperPhaseAlpha.py:73-75 | the loop collects the real flag of every constraint in order |
| Ffc.FfcModel.ScaleBlock | pyqmri/models/FFCPaperPhaseAlpha.py:64-72 | one loop of `rescale` scales the next count unknowns (from the end for a negative base) and appends their names |
| Ffc.FfcModel.WriteBlock | pyqmri/models/FFCPaperPhaseAlpha.py:88 | the slice assignment writes the block into rows [start, start+len) and nothing else |
| Ffc.FfcModel.Forward3D | pyqmri/models/FFCPaperPhaseAlpha.py:80-97 | the result is the zero scan array with field j's block written into rows [offset*j, offset*(j+1)) for every field |
| Ffc.FfcModel.RescaleConcentrations | pyqmri/models/FFCPaperPhaseAlpha.py:305-308 | each concentration constraint is rescaled in place by update, the others are kept |
| Ffc.FfcModel.ComputeInitialGuess | pyqmri/models/FFCPaperPhaseAlpha.py:300-326 | dscale is stored, the concentration constraints are divided by 1/dscale, the guess is the constant maps; scales, times and field strengths are kept |

## Left out

- OpenCL plumbing is not modelled, and each kernel is a sequential loop over its work items. This covers the `Program` class, `cl.Buffer`, queues, events and the `clarray` host/device transfers (Model_Reco_OpenCL.py:24-31, 53, 438-452, 566-604).
- Data-parallel execution and float2 vector lanes are not modelled: both lanes of a float2 are weighted identically, so the projector model follows one lane.
- Floating point is idealised as `real`, with no rounding or overflow. Only the bounds of `constraint` keep IEEE infinities and NaN (`DiffModel.Ext`), because its defaults are infinite.
- `np.sqrt`, `hypot` and `np.exp` are function parameters. The square root is constrained to be one (`Roots.IsSqrt`); `exp` and the decays of the signal models are uninterpreted.
- The non-finite replacements `S[~np.isfinite(S)] = 1e-20` cannot arise over reals and are left out (Diff_model.py:82,91,98,108; pyqmri/models/Ivim.py:94,127; pyqmri/models/FFCPaperPhaseAlpha.py:95,123,141,161).
- `radon_normest` and the power iteration for the Lipschitz constant (Model_Reco_OpenCL.py:454-476, 628-642) run on random data and floating-point norms. The model takes the operator norm `scale` and the estimate L as inputs, and proves the step tau = 1/sqrt(L) from L.
- The adjointness print check on random data at the start of `irgn_solve_2D` (Model_Reco_OpenCL.py:484-489) is not modelled; the exact adjointness lemmas replace it.
- The trajectory angles of `radon_struct` are not modelled: cos and sin of every angle are inputs, and the trigonometry is not modelled.
- `nFT_2D` and `nFTH_2D` (Model_Reco_OpenCL.py:866-884) only reshape around `radon`/`radon_ad`, so they are not modelled separately.
- `operator_forward_2D` is `operator_fwd` followed by `radon`, and `operator_adjoint_2D` is `radon_ad` followed by `operator_ad`. Both halves are modelled and proved adjoint, but the composition is not stated as one member.
- The Fourier/Radon operator `self.FT`, `model.execute_forward_2D` and `execute_gradient_2D`, the coil maps and the module `gradients_divergences_old` (`fgrad_1`, `bdiv_1`, `sym_bgrad_2`, `fdiv_2`) are not part of this model. They are function parameters of the solver and of the driver's `Env`.
- `eval_const` is never called (its call in `tgv_solve_2D` is commented out), so only the kernel `box_con` is modelled.
- Plotting, interaction, `print` and `time` calls are not modelled: `plot_unknowns`, `onclick` and the matplotlib setup.
- The `Model` constructor of Diff_model.py (lines 30-73) is modelled only through its constraint table. Its TE loading and the data-dependent unknown scales (lines 38-63: `np.median`, `norm`) are not modelled, and neither is the guess that depends on them.
- The 2-D entry points of Diff_model.py (lines 79-93) have the algebra of the 3-D ones. They are not modelled separately.
- File loading of b0 images is not modelled, and the IVIM phase map (`np.angle`, pyqmri/models/Ivim.py:321) is an input.
- `_gradT1` of the FFC model (pyqmri/models/FFCPaperPhaseAlpha.py:145 onwards) is not modelled: only the concentration and inversion-factor Jacobians are related to the forward model.
- The ICTGV test class (test/unittests/test_symmetrized_gradient.py:332-445) is not modelled. The 3-D OpenCL symmetrised-gradient kernel the tests call is not part of this model either: the model proves the identity between the tests' reference construction and the divergence written in the pattern of `update_w`.
- The tests compare only components `[..., :6]` of a wider output buffer and divide both sides by `size/4`. Neither matters to the identity, so the model uses six components and no normalisation.
- Solver.TgvSolver.Solve: the unbounded `while True` backtracking loop is cut after `fuel` trials; a search that runs out reports `OutOfFuel` and persists only what the loop had persisted.
- Solver.SearchFirst: states the search only within its fuel, for the same reason.
- Driver.Reco.Execute: every inner solve carries the same fuel bound. A solve that runs out of fuel keeps the old dual buffers.
- DiffModel.Forward3D: its contract gives only the shape; the content is stated by DiffModel.ForwardMatchesGradient.
- DiffModel.Gradient3D: its contract gives only the shape; the content is stated by DiffModel.ForwardMatchesGradient.
- Ivim.Rescale4: its contract gives only the shape; the content is stated by Ivim.Rescale4Facts.
- Ffc.FfcModel.constructor: a 1-D time list is accepted only together with a single field strength. The promotion `b[None]` of a longer b array is not modelled.
- Ffc.FfcModel.ComputeInitialGuess: requires a non-zero data scale, because the source divides by it (1/dscale).
- Radon.RowWindow: takes `i-1` as a real number, so at bin 0 it is the intended window. The kernel's size_t `i-1`, which wraps at bin 0, is modelled separately by Radon.RowWindowAsWritten (see Findings).
- Radon.RowIntegral: sums over the corrected window. For every bin after the first this is the kernel's sum (Radon.RowSumAsWrittenAgrees); at bin 0 the kernel's own sum is Radon.RowSumAsWritten, which drops falling rays on every target and rising rays on a saturating one.
- Radon.RadonItem: at bin 0 returns the intended projection value, not the kernel's (built from Radon.RowIntegral).
- Radon.RadonKernel: writes the intended bin-0 entries, so it agrees with the kernel on every bin after the first only (built from Radon.RadonItem).
- Radon.CvtInt: C leaves the conversion of an out-of-range float to int undefined. The model takes the two usual outcomes, INT_MIN (x86) and clamping (a saturating target). The other `(int)` casts of the window are modelled as truncation without a range (Radon.Trunc).
- Radon.BinZeroWindow: stated for |o.x| <= 2^20 and row coordinates up to 2^20, which is where the wrapped edge provably leaves the int range.
- Radon.BinZeroFalling: the same bounds on o.x and the row coordinate.
- Radon.BinZeroRisingSaturating: the same bounds, and an image width that fits in an int.
- Radon.BinZeroRisingTruncating: the same bounds on o.x and the row coordinate.

## Findings

| source | as written | input that shows it | evidently intended | confidence | as-written member | corrected member |
|---|---|---|---|---|---|---|
| Model_Reco_OpenCL.py:181-200 | the vertical-ray test `d > i-1` computes `i-1` in the unsigned `size_t`; at bin i = 0 it wraps to 2^64 - 1, so the test always fails | a vertical ray (o.x == 0) whose row has detector coordinate d = 0.5: weight 1/2 in bin 0, and `radon_ad` deposits it there, but `radon` skips it | the row meets bin i exactly when i - 1 < d < i + 1, i.e. when its hat weight is positive | high (not executed) | Radon.VerticalGuardSkipsBinZero | Radon.VerticalHitIffWeight |
| Model_Reco_OpenCL.py:205-210 | for a sloped ray `i-1` is also computed in size_t: at bin 0 the far edge is (2^64 - d)*o.w, far outside int, and its conversion gives INT_MIN on x86 and INT_MAX on a saturating target, so a falling ray's window ends at INT_MIN and is empty, and a rising ray's window on a saturating target starts at INT_MAX | the falling ray o = (-1, 0, 0.5, -1) on a one-pixel image of value 1: the pixel has weight 0.5 in bin 0, but the kernel's bin-0 sum is 0 | bin 0 sums every positive-weight column of the row, as the other bins do | high (not executed) | Radon.SlopedBinZeroLost | Radon.RowIntegral |
| Model_Reco_OpenCL.py:169-175 | the second-order term is hypot(hypot(val2.s0, val2.s1), 2*val2.s2), the norm of (dx w0, dx w1, dy w0); the symmetrised gradient val3 is built and never used, so dy w1 never enters the functional | one column and two rows, u = 0, w = ((0, 0), (0, 1)), alpha0 = 1, alpha1 = 0, second pixel: the kernel's density is 0, the TGV density is 1 | alpha0*hypot(hypot(val3.s0, val3.s1), 2*val3.s2), the norm of the symmetrised gradient | high (not executed) | TgvKernels.FunctionalTgvDropsDyW1 | TgvKernels.TgvAtZero |
| Model_Reco_OpenCL.py:403-406 | `np.repeat` without an axis flattens the (NScan, 2) midpoint array, so midpoint_domain[0] and [1] are both the x midpoint of scan 0 | one scan, two projections, a 4-by-4 image with eight detectors and a vertical ray: the domain midpoint maps to detector coordinate 3.4382 instead of 3.5 | each ray uses the (x, y) midpoint of its own scan, which then maps to the detector midpoint (nd - 1)/2 + shift/dw | medium (not executed) | RadonGeometry.RayTableAsWrittenOffCentre | RadonGeometry.RayTableCentred |
| Model_Reco_OpenCL.py:318 | `isnan(tmp_in.x) \|\| tmp_in.y` reads the imaginary part as a truth value, so `operator_ad` zeroes every sample with a non-zero imaginary part | unit unknown, Jacobian and coil, and the sample i: <fwd(1), i> = -i but <1, ad(i)> = 0 | only NaN samples are zeroed, so that `operator_ad` is the adjoint of `operator_fwd` | medium (not executed) | Operator.ScreenBreaksAdjointness | OperatorKernels.OperatorAdjoint |
| Model_Reco_OpenCL.py:49,560-563 | `fval_min` starts at 0 and becomes min(fval, fval_min); every energy is non-negative, so it stays 0 and the test only asks whether fval < lambd*tol | energies that stall at 5 with lambd*tol = 1: the run never stops early | stop when the new energy is within lambd*tol of the best earlier one | high (not executed) | Driver.StallNotDetected | Driver.BestOfIsMin |
| Model_Reco_OpenCL.py:494,550 | `irgn_solve_2D` returns the solver's iterate, but line 550 drops it, so `result` changes only through the T1 rescale | two solves that return different iterates x1 != x2 leave the same estimate | store the returned iterate as the next linearisation point (`result[:, islice] = ...`) | high (not executed) | Driver.SolveOutputLost | Driver.SolveOutputKept |
| Model_Reco_OpenCL.py:500 | with `unknowns_H1 == 0`, `x[-0:]` is the whole of x, so the energy charges omega/2 times the gradient energy of every unknown | no H1 unknowns, omega > 0 and an x with a non-zero gradient: the energy as written exceeds the intended one | no H1 term when there are no H1 unknowns | high (not executed) | Driver.FvalChargesAllUnknowns | Driver.FvalH1Term |

The projector and the composite operator use the corrected definitions: `radon` uses `Radon.VerticalHit` and the unwrapped bin-0 window, and the operator kernels take the screen as a flag. The kernel's own bin-0 row sum is `Radon.RowSumAsWritten`. The functional kernel `TgvKernels.FunctionalTgv` follows the kernel as written (`TgvKernels.TgvAtAsWritten`), and `TgvKernels.TgvAt` is the intended density. The driver object `Driver.Reco` follows `execute_2D` as written, because its termination, its stored estimates and its recorded energy are what the program does. The corrected functions beside it (`Driver.BestOf`, `Driver.StopCorrected`, `Driver.NextEstimate`, `Driver.Fval`) state the intended behaviour.
