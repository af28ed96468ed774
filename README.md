# apep core in Dafny

This project models the array and index logic of apep's 2D finite-volume Euler solver and of its
Rayleigh-Taylor demo, and proves properties of the model:

- `hydro.dfy` (module `Hydro`) holds the line and field containers. `QVec` keeps one line of cells as
  four parallel buffers (density, two velocity components, energy or pressure); `QVec2` keeps a 2D field.
  Both are classes whose `seq` fields the methods reassign.
- `reconstruct.dfy` (module `Reconstruction`) covers the minmod slope limiter and the two
  reconstruction methods. Constant reconstruction copies cell values to the faces. Linear
  reconstruction extrapolates each cell by half its limited slope from a ghost-padded line.
- `riemann.dfy` (module `Riemann`) holds the HLLC flux of one face as a pure function over `real`,
  with the loop that writes it for every face of a sweep, and the solver-tag dispatch. HLLE has an
  empty body in the code and is modelled as leaving the flux as it was.
- `grid.dfy` (module `Grids`) covers the grid's set-up: its attributes are derived from the settings,
  its six ghost-padded fields are sized, and the two-layer Rayleigh-Taylor initial condition is
  written cell by cell.
- `heatmap.dfy` (module `Heatmap`) models the heatmap `Image`, which copies the interior of a field
  into a flat buffer, transposed and flipped.
- `settings.dfy` (module `Settings`) holds the `RTSettings` record, its defaults, and the list and
  button choices that change it. Those choices are kept because they are where the program's
  settings change at run time: the reconstruction and solver tags, the Runge-Kutta stage count, and
  the reset, play and single-step requests. The
  console dump `Heatmap.Image.Print` is kept because its row-by-row order is the same storage order
  that `Heatmap.Flat` proves.

The single-precision floats of the code are `real` here. `std::sqrt` and `std::cos` are function
parameters, constrained only by `SqrtLike` (non-negative on non-negative input, positive on positive
input) and `CosLike` (values in [-1, 1]).

## Model

| member | source | states |
|---|---|---|
| Hydro.QVec2.Empty | src/hydro/Hydro.h:14 | The defaulted constructor leaves all four fields empty. |
| Hydro.QVec2.constructor | src/hydro/Hydro.h:16-18 | The sized constructor is default construction followed by `Resize(nx, ny)`. Each field is the all-zero nx x ny field. |
| Hydro.QVec2.Resize | src/hydro/Hydro.h:20-31 | Each of the four fields is `Resized2` of its old value: exactly nx rows of ny entries, old entries kept, new entries zero. |
| Hydro.Resized | src/hydro/Hydro.h:21-29 | `resize(n)` of one vector: length n, the first min(n, old length) entries kept, the padding zero. |
| Hydro.Resized2 | src/hydro/Hydro.h:20-31 | A resized 2D field has exactly the requested shape, keeps every entry that was inside both shapes, and holds zero at every entry that is new. |
| Hydro.QVec.constructor | src/hydro/Hydro.h:40-45 | The four buffers are zero-filled and of length n. |
| Hydro.QVec.Set | src/hydro/Hydro.h:47-52 | Index i of all four buffers takes the given values; every other index and every length is unchanged. Requires i to be inside all four buffers. |
| Hydro.QVec.SetAll | src/hydro/Hydro.h:54-60 | Each buffer becomes its argument, length included. |
| Hydro.QVec.FlipVelocities | src/hydro/Hydro.h:62-69 | The velocities become `QuarterTurn` of the old ones: u[i] := v[i] and v[i] := -u[i] for every index i of u. Density and energy are untouched. Requires v to be at least as long as u. |
| Hydro.QuarterTurn | src/hydro/Hydro.h:62-69 | The rotation keeps both lengths; on the indices of u the new u is the old v and the new v is minus the old u; v's entries past the length of u stay. |
| Hydro.QuarterTurnTwice | src/hydro/Hydro.h:62-69 | Two rotations negate both components on the indices of u, so the rotation is not a swap. |
| Hydro.QuarterTurnFour | src/hydro/Hydro.h:62-69 | Four rotations restore the original velocities. |
| Hydro.QuarterTurnKeepsSpeed | src/hydro/Hydro.h:62-69 | A rotation keeps u[i]^2 + v[i]^2 at every index of u. |
| Reconstruction.MinmodSignAndMagnitude | src/hydro/Reconstruct.cpp:5-8 | minmod is 0 when a * b <= 0. Otherwise it has the sign of both a and b and magnitude the smaller of abs(a) and abs(b). |
| Reconstruction.Minmod | src/hydro/Reconstruct.cpp:5-8 | The limiter returns 0, a or b, and never exceeds either difference in magnitude. |
| Reconstruction.SlopeExamples | src/hydro/Reconstruct.cpp:10-14 | slope(1, 2, 3) = 1, slope(1, 3, 1) = 0, and three equal values have slope 0. |
| Reconstruction.Slope | src/hydro/Reconstruct.cpp:10-14 | A local extremum or a flat side (the two differences of opposite sign or one zero) has slope 0, and the slope is never steeper than either side. |
| Reconstruction.SlopeWithinDifferences | src/hydro/Reconstruct.cpp:10-14 | The limited slope lies between 0 and each one-sided difference. |
| Reconstruction.ConstantLeft | src/hydro/Reconstruct.cpp:32-33 | The left state of face k is q[k], for k below the face count. |
| Reconstruction.ConstantRight | src/hydro/Reconstruct.cpp:32-34 | The right state of face k is q[k + 1], with no ghost offset. |
| Reconstruction.LinearLeft | src/hydro/Reconstruct.cpp:49-56 | The left state of face k is q[c - 1] plus half the limited slope of q[c - 2], q[c - 1], q[c], where c = nghost + k. Requires nghost >= 2 and nghost + m + 1 entries. |
| Reconstruction.LinearRight | src/hydro/Reconstruct.cpp:58-64 | The right state of face k is q[c] minus half the limited slope of q[c - 1], q[c], q[c + 1]. |
| Reconstruction.LeftValue | src/hydro/Reconstruct.cpp:51-56 | The left state of the face before cell c lies between q[c - 1] and the midpoint of q[c - 1] and q[c]. |
| Reconstruction.RightValue | src/hydro/Reconstruct.cpp:59-64 | The right state of the face before cell c lies between the midpoint of q[c - 1] and q[c] and q[c]. |
| Reconstruction.LinearFacesAt | src/hydro/Reconstruct.cpp:48-65 | Face i of linear reconstruction, in all four buffers, is the left and right cell value at c = nghost + i. |
| Reconstruction.LinearFacesBetween | src/hydro/Reconstruct.cpp:51-64 | No new extrema: both linear face states of face k lie between q[c - 1] and q[c]. |
| Reconstruction.UniformBufferFaces | src/hydro/Reconstruct.cpp:28-85 | On a buffer holding one value everywhere, every constant and linear face value is that value. |
| Reconstruction.UniformLineFaces | src/hydro/Reconstruct.cpp:20-85 | On a line holding one cell everywhere, the configured method gives that cell on both sides of every face it writes. |
| Reconstruction.UnknownTagWritesNothing | src/hydro/Reconstruct.cpp:20-26 | An unrecognised method tag or sweep direction writes nothing to ql or qr. |
| Reconstruction.Reconstructor.constructor | src/hydro/Reconstruct.cpp:16-18 | The extents, ghost depth and method tag are stored as given. |
| Reconstruction.Reconstructor.FaceStates | src/hydro/Reconstruct.cpp:28-85 | The configured method yields face lines of exactly `Written(dir)` entries per buffer: n + 1 faces for a known method and direction, none otherwise. |
| Reconstruction.Reconstructor.Reconstruct | src/hydro/Reconstruct.cpp:20-26 | Dispatches on the tag. ql and qr become the face states overlaid on their old contents: only the first `Written(dir)` indices change. |
| Reconstruction.Reconstructor.ReconstructConstant | src/hydro/Reconstruct.cpp:28-43 | For every face k in 0 .. n, ql[k] = q[k] and qr[k] = q[k + 1] in all four buffers; every other index of ql and qr keeps its value. |
| Reconstruction.Reconstructor.ReconstructLinear | src/hydro/Reconstruct.cpp:45-85 | For every face k in 0 .. n, ql[k] and qr[k] are the linear left and right states; every other index keeps its value. |
| Riemann.Sign | src/hydro/RiemannSolver.cpp:8-10 | The result is -1 or 1, never 0, and it is -1 exactly when val < 0. |
| Riemann.Hllc | src/hydro/RiemannSolver.cpp:29-81 | The per-face flux. The tangential momentum flux is the mass flux times the upwind side's tangential velocity. A contact at rest passes no mass, no tangential momentum and no energy, and the normal momentum flux is then the star pressure. |
| Riemann.Weights | src/hydro/RiemannSolver.cpp:63-72 | Of the two upwind weights exactly one is 1 and the other 0; the left one is 1 exactly when u* >= 0. |
| Riemann.BlendIsUpwind | src/hydro/RiemannSolver.cpp:71-80 | The weighted blend is exactly the upwind side's value, so star density, star energy and tangential velocity come wholly from one side. |
| Riemann.WaveBounds | src/hydro/RiemannSolver.cpp:45-51 | cmax >= 0, so sl <= min(ul, ur) and max(ul, ur) <= sr. |
| Riemann.FluxShape | src/hydro/RiemannSolver.cpp:63-81 | The flux the loop body writes, with the weights (1 + sign)/2 and (1 - sign)/2 multiplying both sides' star density, tangential velocity and star energy (`WeightedFlux`), equals the upwind flux `Hllc` for every face that is defined. |
| Riemann.AssembledIsUpwind | src/hydro/RiemannSolver.cpp:71-81 | Assembling the four fluxes from the weighted sums gives the star flux of the upwind side's star density, tangential velocity and star energy. |
| Riemann.EqualStateWaves | src/hydro/RiemannSolver.cpp:45-51 | For equal states with positive density and pressure and gamma > 1, the sound speed squared is positive and the wave fan is u -/+ cmax with cmax > 0. |
| Riemann.EqualStateContact | src/hydro/RiemannSolver.cpp:56 | With equal density, velocity and pressure on both sides, the contact-speed formula gives that velocity. |
| Riemann.EqualStateStar | src/hydro/RiemannSolver.cpp:65-69 | When u* is the side's own velocity, the side's star density and star energy are its own density and total energy. |
| Riemann.EqualStateUpwind | src/hydro/RiemannSolver.cpp:65-75 | With u* equal to the common velocity, the upwind star density and star energy are the state's own. |
| Riemann.EqualStateDefined | src/hydro/RiemannSolver.cpp:45-69 | Equal states with positive density and pressure and gamma > 1 keep every divisor of the face non-zero; u* is the common velocity and p* the common pressure. |
| Riemann.StarFluxOfState | src/hydro/RiemannSolver.cpp:78-81 | The star flux built from one state's own quantities is the exact Euler flux of that state. |
| Riemann.EqualStateFlux | src/hydro/RiemannSolver.cpp:30-81 | An equal-state face whose u* and p* are the state's own velocity and pressure has the exact Euler flux. |
| Riemann.Consistency | src/hydro/RiemannSolver.cpp:30-81 | Equal left and right states with rho > 0, p > 0 and gamma > 1 give (rho u, rho u^2 + p, rho u v, (E + p) u), where E = p/(gamma - 1) + rho (u^2 + v^2)/2. |
| Riemann.RiemannSolver.constructor | src/hydro/RiemannSolver.cpp:12-13 | The extents, ghost depth and solver tag are stored as given. |
| Riemann.RiemannSolver.HllcFluxes | src/hydro/RiemannSolver.cpp:27-81 | The first m fluxes, each the HLLC flux of that face's two states only. |
| Riemann.RiemannSolver.Solve | src/hydro/RiemannSolver.cpp:15-22 | With HLLC, the flux buffers hold the HLLC fluxes of the face states on entry over their old contents. With HLLE or an unknown tag they are unchanged. |
| Riemann.RiemannSolver.SolveHLLC | src/hydro/RiemannSolver.cpp:24-83 | flux[i] = Hllc(ql[i], qr[i]) of the states on entry, for i < nx + 1 (XDIR) or ny + 1 (any other direction); every later index keeps its value. The flux buffer may be the same object as ql or qr. |
| Riemann.RiemannSolver.SolveHLLE | src/hydro/RiemannSolver.cpp:85-88 | The flux buffers keep their values. |
| Settings.Defaults | src/utils/Settings.h:25-50 | nx = 5, ny = 15, nghost = 1. The domain is symmetric with x1 < x2 and y1 < y2. The lower density is positive and below the upper one; gravity is zero along x and negative along y. The tags are LINEAR and HLLC with 2 stages; the control flags are 0 and cycles per frame is 1. |
| Settings.SelectReconstruction | src/utils/Settings.h:71-86 | Entry n in {0, 1} sets the reconstruction tag to n (CONSTANT or LINEAR) and nothing else. |
| Settings.SelectRiemannSolver | src/utils/Settings.h:87-102 | Entry n in {0, 1} sets the solver tag to n (HLLE or HLLC) and nothing else. |
| Settings.SelectIntegrator | src/utils/Settings.h:103-118 | Entry n in {0, 1} sets rkstages to n + 1, so rkstages is 1 or 2; nothing else changes. |
| Settings.PressReset | src/utils/Settings.h:119-121 | The reset counter goes up by one; nothing else changes. |
| Settings.TogglePlaying | src/utils/Settings.h:122-124 | The playing flag becomes the C negation of itself: non-zero exactly when it was zero, always 0 or 1; nothing else changes. |
| Settings.ToggleTwice | src/utils/Settings.h:122-124 | Two presses normalise the flag to 0 or 1, and restore it when it already was 0 or 1. |
| Settings.PressAdvance | src/utils/Settings.h:127-129 | The single-step counter goes up by one; nothing else changes. |
| Settings.DefaultsBreakLinearStencil | src/utils/Settings.h:29 | The defaults pair one ghost cell with LINEAR reconstruction; the first face then reads index -1, so no line fits the linear stencil. |
| Settings.MinGhost | src/hydro/Reconstruct.cpp:51 | The ghost depth a method needs is 2 exactly for LINEAR and 1 otherwise. |
| Settings.ClampGhost | src/utils/Settings.h:29 | The ghost depth is raised to at least what the method needs and never lowered; nothing else changes. |
| Settings.CorrectedDefaults | src/utils/Settings.h:25-50 | The defaults with nghost = 2. |
| Settings.ClampedSweepFits | src/hydro/Reconstruct.cpp:32-34 | After clamping, a sweep over a line of nx + 2 nghost cells fits the constant stencil, and the linear one when LINEAR is configured. |
| Settings.CorrectedDefaultsFit | src/hydro/Reconstruct.cpp:48-65 | The corrected defaults fit the linear stencil of their own sweeps. |
| Grids.Grid.constructor | src/hydro/Grid.cpp:62-64 | Construction is `Reset`: the attributes come from the settings and every field holds the initial condition. |
| Grids.Grid.Reset | src/hydro/Grid.cpp:66-70 | Runs `AttrsFromSettings`, `Resize` and `RTInstability` in that order. Afterwards the attributes are `AttrsOf(s)` and each of the six fields is its initial-condition field over nxg x nyg cells. |
| Grids.Grid.AttrsFromSettings | src/hydro/Grid.cpp:72-93 | The attributes become `AttrsOf(s)`. No other field is touched: cfl, gamma_ad, dt and the method tags are not copied. |
| Grids.AttrsOf | src/hydro/Grid.cpp:72-93 | The sizes are copied; nxmg - nghost = nx and nxg - nxmg = nghost, likewise along y. nx cells of width dlx span exactly x2 - x1, and ny cells of width dly span y2 - y1. The time is 0. |
| Grids.Grid.Resize | src/hydro/Grid.cpp:95-110 | Each of the six fields is `Resized2` of its old value to nxg rows of nyg entries. |
| Grids.ResizeField | src/hydro/Grid.cpp:95-110 | One field's row and column resizing equals `Resized2`. |
| Grids.Grid.RTInstability | src/hydro/Grid.cpp:113-132 | Every ghost-inclusive cell of all six fields gets its initial state. |
| Grids.FillInitial | src/hydro/Grid.cpp:115-131 | The double loop leaves each of the six fields equal to its initial-condition field. The energy uses the gravity and density just written to the same cell. |
| Grids.InitialField | src/hydro/Grid.cpp:115-116 | The initial-condition field has nxg rows of nyg entries. |
| Grids.AtRestUnlessPerturbed | src/hydro/Grid.cpp:120-129 | u = 0 everywhere, v = 0 when the perturbation strength is 0, and gx, gy are the uniform initial gravity. |
| Grids.InitialCell | src/hydro/Grid.cpp:117-129 | Cell (i, j) has u = 0 and the uniform gravity. Its density is the lower one when its centre is below y = 0 and the upper one otherwise. Its energy exceeds en_ini by g_y * y_j * rho, using the cell's own gravity and density. |
| Grids.CellCentre | src/hydro/Grid.cpp:117-118 | With positive cell size, the centre of cell i lies strictly inside [lo + (i - 1) dl, lo + i dl]. |
| Grids.Interface | src/hydro/Grid.cpp:118-126 | A cell holds the lower density exactly when its centre is below y = 0, and the upper one exactly when it is not. |
| Grids.SingleInterface | src/hydro/Grid.cpp:118-126 | With dly > 0 and either order of the two densities, once a row holds the upper density every row above it does too, in every column. |
| Grids.ColumnIndependent | src/hydro/Grid.cpp:118-127 | Density and energy do not depend on the column, for any attributes. |
| Grids.Stratified | src/hydro/Grid.cpp:118-126 | With dly > 0 and lower <= upper, density never decreases going up. |
| Grids.CentreMonotone | src/hydro/Grid.cpp:117-118 | With positive cell size, cell centres increase with the index. |
| Grids.InteriorCentresInside | src/hydro/Grid.cpp:117-118 | Centres of cells 1 .. n lie strictly inside their cell and inside [lo, lo + n dl]. |
| Grids.EnergyFallsWithHeight | src/hydro/Grid.cpp:127 | Under downward gravity with positive densities and dly > 0, the initial energy strictly falls going up a column, across the interface too. |
| Grids.PerturbationBounded | src/hydro/Grid.cpp:129 | For any cosine in [-1, 1], v lies between 0 and the perturbation strength. |
| Grids.DefaultInterfaceRow | src/utils/Settings.h:27-35 | With the defaults the padded grid is 7 x 17, and the lower density fills exactly rows j < 8. |
| Grids.ResetFeedsImage | src/hydro/Grid.cpp:14 | The density field a reset leaves holds every interior cell the heatmap image reads. |
| Heatmap.FlatInRange | src/utils/Image.h:32-37 | Every write index j nx + i with i < nx and j < ny is inside the nx ny buffer. |
| Heatmap.Flat | src/utils/Image.h:37 | Cell (i, j) with i < nx is written in the j-th block of nx indices, [j nx, (j + 1) nx). |
| Heatmap.FlatDecode | src/utils/Image.h:37 | The write index determines i as its remainder and j as its quotient by nx. |
| Heatmap.FlatInjective | src/utils/Image.h:35-37 | No two cells share a write index. |
| Heatmap.FlatOnto | src/utils/Image.h:32-37 | Every buffer index is written, by cell (k mod nx, k div nx). |
| Heatmap.Transposed | src/utils/Image.h:32-39 | The image has nx ny entries. |
| Heatmap.TransposedAt | src/utils/Image.h:33-37 | Image entry j nx + i is value[nghost + i][ny + nghost - 1 - j]: only interior cells, second index reversed. |
| Heatmap.Image.constructor | src/utils/Image.h:27-40 | The members nx and ny are the parameters ny and nx. The buffer is fresh, has nx ny entries and equals `Transposed`. Every read is in bounds under `Readable`. The field is a value and is not modified. |
| Heatmap.Image.Print | src/utils/Image.h:42-49 | Prints nx lines of ny values each; joined, they are the whole buffer in storage order. |
| Heatmap.ConcatSnoc | src/utils/Image.h:43-48 | Appending a line to the printed lines appends its values. |

## Left out

- Floating point is left out: single-precision rounding and the float arithmetic of `M_PI`, `0.5f` and friends. All quantities are `real`.
- Infinities and NaN are left out. `Riemann.Hllc` requires `FaceDefined`: every divisor is non-zero and the square root arguments are non-negative. `Grids.AttrsOf`, `Grids.Grid.AttrsFromSettings`, `Grids.Grid.Reset` and `Grids.Grid.constructor` require nx and ny to be non-zero. In the code those cases produce inf or NaN.
- Riemann.Sign: `sign` returns -1 for -0.0 because `std::signbit(-0.0)` is true; a `real` has no signed zero, so this case is not modelled. For the same reason the default gravity `-0.0f` is `0.0` in `Settings.Defaults`.
- `std::sqrt` and `std::cos` are function parameters; only `SqrtLike` and `CosLike` are assumed of them.
- Riemann.Hllc picks each upwind quantity with `Upwind` rather than the weighted sum of the code. `Riemann.BlendIsUpwind` proves the two equal for every input.
- Reconstruction.Reconstructor.ReconstructLinear writes each face through `QVec.Set`, where the code assigns the four buffers one statement at a time. The resulting buffers are the same.
- Reconstruction.Reconstructor.Reconstruct, Reconstruction.Reconstructor.ReconstructConstant and Reconstruction.Reconstructor.ReconstructLinear require q, ql and qr to be three distinct objects. That is a modelling assumption. Nothing in the repository calls these methods: `Grid::TimeStep` (src/hydro/Grid.h:49), where a sweep would run, is declared but has no body. The Riemann solver methods allow the flux buffer to be the same object as ql or qr.
- Hydro.QVec2.Resize, Hydro.QVec2.constructor, Grids.Grid.Resize, Grids.ResizeField, Grids.Grid.Reset, Grids.Grid.constructor and Heatmap.Image.constructor require non-negative sizes. `Reset` and the grid constructor require nx + 2 nghost and ny + 2 nghost to be non-negative. The image constructor requires nx and ny to be non-negative. In the code, a negative count passed to `resize` converts to a huge `size_t`. The image constructor also accepts two negative extents: `ny * nx` is then positive and both loops run zero times. That case is not modelled.
- Grids.Grid.RTInstability requires the fields to have exactly nxg x nyg shape, which `Resize` establishes just before it in `Reset`.
- Grids.Grid.Resize resizes each field in its own pass rather than all six in one loop. Grids.Grid.RTInstability runs its loops over values in `Grids.FillInitial`. The resulting fields are the same.
- The grid's scalar members are grouped in one `attrs` record. The model's `Grid` omits the `cons` field and the reconstructor and solver members, because no modelled operation uses them. `cfl`, `gamma_ad`, `dt` and the method tags are fields of the model that no modelled operation sets.
- The reset does not clamp `nghost`, does not convert primitive to conserved variables and does not rebuild the reconstructor or solver. The model follows the code.
- Cell centres are `lo + dl * (i - 0.5)` as in the code. That places the interior cells inside [lo, hi] only for one ghost cell (`Grids.InteriorCentresInside`); with more ghost cells the domain shifts.
- The following members of `Grid` are declared in src/hydro/Grid.h:35-51 but have no bodies in the source, so there is nothing to model: `TimeStep`, `PrimToCons`, `ConsToPrim`, `ApplyBoundaryConditions`, `Clear`, time integration, gravity sources and boundary conditions.
- `Grid::Update` is ImGui and ImPlot rendering and is left out. Only its construction of the density heatmap is captured, by `Grids.ResetFeedsImage`.
- `Grid::WriteGrid` is file output and is left out.
- The default constructors `Reconstructor()` and `RiemannSolver()` are declared but never defined.
- The header declares `Solve`, `SolveHLLC` and `SolveHLLE` without the direction parameter; the model follows the definitions in the `.cpp`.
- Parts of `Image` are left out: `aspect_ratio`, `GetWindowSize`, `GetImage` and the destructor are window-layout and memory management. Heatmap.Image.Print returns the printed lines instead of writing to standard output.
- From `RTSettings::Update`, only the list-box choices and the three buttons are modelled. The input widgets only copy user input into fields, and the static `item_current` highlight state is UI.
- Settings.PressReset and Settings.PressAdvance do not model `int` overflow of the counters; the integers are unbounded.
- Window, OpenGL and application plumbing is left out: src/main.cpp, src/demo.cpp, src/rt_instability.cpp and src/app/App.h.

## Findings

| source | as written | input that shows it | evidently intended | confidence | as-written member | corrected member |
|---|---|---|---|---|---|---|
| src/utils/Settings.h:29 | The default settings pair `nghost = 1` with `reconstruct_type = 1` (LINEAR, src/utils/Settings.h:47). Linear reconstruction reads `q[nghost + i - 2]` (src/hydro/Reconstruct.cpp:51). | The default settings: the x sweep's face 0 reads `q.rho[-1]`, out of bounds. | At least two ghost cells whenever LINEAR is configured (default `nghost = 2`). | not executed | Settings.DefaultsBreakLinearStencil | Settings.ClampGhost |
