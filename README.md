# Robot trajectory visualisation — Dafny model

This project models the computational core of a small browser visualisation of a
robot following a circular path. The core has three parts:

- **World-to-canvas transform.** A world point in metres becomes a canvas pixel.
  The world origin sits at the canvas centre, the scale is in pixels per metre,
  and the y axis is flipped.
- **Circular trajectory generator.** It samples `numPoints` points on a circle
  of a given radius, at angles `(i / numPoints) · 2π`.
- **Simulation controller.** On each animation tick it moves the robot pose a
  tenth of the way toward the current trajectory point, points the heading
  along that vector, calls the redraw, advances the index, and schedules the
  next frame. `stop` cancels the pending frame. `reset` stops and restores the
  pose and the index.

The repository holds two copies of this logic. The modular one lives in
`src/js/` and is the `CoordinateTransform`, `TrajectoryGenerator`, `Motion` and
`Controller` modules here. The older single-class `visualization.js` is the
`Visualization` module. Both copies share `Motion`'s definition of what a tick
does. The model states where the copies differ:

- The older copy's loop index is local to each start, so every start begins at
  index 0. The controller keeps its index, so a restart resumes.
- The older copy's reset cancels the frame but keeps its stale handle. The
  controller's stop also forgets the handle.
- The older copy replaces the robot-state object with a fresh one. The
  controller writes into the shared object in place.

Modelling choices:

- JavaScript doubles are modelled as exact `real`s. Only `+`, `-`, `*` and `/`
  appear in the modelled arithmetic.
- `Math.cos`, `Math.sin` and `Math.atan2` are passed in as function
  parameters, and nothing is assumed about them. Where a lemma needs
  `cos 0 = 1`, `sin 0 = 0` or `cos² + sin² = 1`, it says so in its `requires`.
- `Math.PI` is the constant `Config.PI`.
- The browser's frame scheduler is part of each class's state. `animationId` is
  the recorded handle, or `None` for `null`. `pending` is the set of frames the
  host will still run. Requesting a frame adds a fresh handle, which is never 0
  and so always truthy. Cancelling removes one.
- `RunFrame` models the host running a pending frame. A cancelled frame never
  runs.
- The redraw callback is modelled as the pose it receives, returned as `frame`.
  The `Tick` bodies call it before they increment the index, as the code does.
  `frame` holds only the pose, so no contract tells that order apart from the
  reverse one.

Two behaviours of the code a reader might not expect, which the model follows:

- The code wraps the index lazily, at the start of the next tick. Between ticks
  the index can therefore equal the trajectory length; it is not always taken
  modulo the length.
- With an empty trajectory the code does not work. A tick first resets the index
  to 0 and then fails reading the missing point. The model returns `None` and
  leaves the pose unchanged, with nothing scheduled.

## Model

| member | source | states |
|---|---|---|
| `CoordinateTransform.NewTransformer` | src/js/utils/coordinate-transform.js:2-6 | the transformer keeps the scale, and the world origin (0, 0) maps to the canvas centre (width/2, height/2) |
| `CoordinateTransform.WorldToCanvas` | src/js/utils/coordinate-transform.js:8-12 | for scale ≠ 0, the world point is recovered from the pixel as ((cx − centerX)/scale, (centerY − cy)/scale); its other properties are the lemmas `ConfiguredMap`, `RoundTrip`, `Injective`, `Orientation` and `UnitStep` |
| `CoordinateTransform.ConfiguredMap` | src/js/utils/coordinate-transform.js:2-12 | canvas x is width/2 + x·scale and canvas y is height/2 − y·scale, so the y axis is flipped |
| `CoordinateTransform.CanvasToWorld` | src/js/utils/coordinate-transform.js:8-12 | for scale ≠ 0 the map is onto: every pixel is the image of the world point ((cx − W/2)/scale, (H/2 − cy)/scale) |
| `CoordinateTransform.RoundTrip` | src/js/utils/coordinate-transform.js:8-12 | for scale ≠ 0, mapping a world point to the canvas and back recovers it exactly |
| `CoordinateTransform.Injective` | src/js/utils/coordinate-transform.js:8-12 | for scale ≠ 0, two world points drawn at the same pixel are equal |
| `CoordinateTransform.Orientation` | src/js/utils/coordinate-transform.js:10-11 | for scale > 0, canvas x increases exactly when world x increases, and canvas y decreases exactly when world y increases |
| `CoordinateTransform.UnitStep` | src/js/utils/coordinate-transform.js:10-11 | one metre along world x is `scale` pixels right; one metre along world y is `scale` pixels up |
| `CoordinateTransform.GridRangeFillsCanvas` | src/js/config.js:3-9 | on the 800×800 canvas at 100 px/m, the grid corners (−4, 4) and (4, −4) map onto pixels (0, 0) and (800, 800) |
| `TrajectoryGenerator.GenerateCircular` | src/js/utils/trajectory-generator.js:2-12 | the loop yields max(n, 0) points, and point i is (r·cos θᵢ, r·sin θᵢ) with θᵢ = (i/n)·2π, appended in increasing i |
| `TrajectoryGenerator.Angle` | src/js/utils/trajectory-generator.js:5 | angle i is the fraction i/n of a full turn: n·θᵢ = 2π·i; its range, order and spacing are `AngleInRange`, `AnglesIncrease` and `EvenSpacing` |
| `TrajectoryGenerator.CircularUnique` | visualization.js:26-36 | the description fixes the list, so both generator copies give the same points for the same arguments |
| `TrajectoryGenerator.NonPositiveCountIsEmpty` | src/js/utils/trajectory-generator.js:4 | a count n ≤ 0 gives the empty list |
| `TrajectoryGenerator.AngleInRange` | src/js/utils/trajectory-generator.js:4-5 | every sampled angle lies in [0, 2π) |
| `TrajectoryGenerator.AnglesIncrease` | src/js/utils/trajectory-generator.js:4-5 | angles strictly increase with the index, so the start point is not repeated at the end |
| `TrajectoryGenerator.EvenSpacing` | src/js/utils/trajectory-generator.js:5 | the first angle is 0 and consecutive angles differ by exactly 2π/n |
| `TrajectoryGenerator.FirstPointOnAxis` | src/js/utils/trajectory-generator.js:5-8 | if cos 0 = 1 and sin 0 = 0, the first point is (radius, 0) |
| `TrajectoryGenerator.PointsOnCircle` | src/js/utils/trajectory-generator.js:7-8 | if cos² + sin² = 1, every point lies at distance `radius` from the origin |
| `Motion.TargetIndex` | src/js/simulation-controller.js:11-15 | the index a tick reads is the stored one or 0 after a wrap, and is within bounds for a non-empty trajectory |
| `Motion.NextIndex` | src/js/simulation-controller.js:11-25 | after a tick on a non-empty trajectory, 1 ≤ index ≤ length |
| `Motion.IndexAfterBounds` | src/js/simulation-controller.js:11-25 | after k ≥ 1 ticks from index 0 the stored index is between 1 and the length |
| `Motion.VisitOrder` | src/js/simulation-controller.js:11-25 | starting at index 0, tick k reads point k mod length: 0, 1, …, length−1, then 0 again |
| `Motion.Step` | src/js/simulation-controller.js:16-22 | one tick leaves exactly 90% of the offset to the target in x and in y; the 10% move and the heading are in `StepRemainingOffset`, repeated ticks in `ApproachOffset`; the inline copy at visualization.js:162-168 is the same step |
| `Motion.StepRemainingOffset` | src/js/simulation-controller.js:16-22 | a tick moves x and y by 10% of the vector to the target, leaving exactly 90% of the offset; the heading is atan2(dy, dx) of the original vector |
| `Motion.FirstTickFromInitialState` | src/js/simulation-controller.js:15-22 | from pose (0, −2, 0) toward (2, 0), one tick gives (0.2, −1.8) with heading atan2(2, 2) |
| `Motion.ApproachOffset` | src/js/simulation-controller.js:16-21 | after k ticks toward a fixed target the remaining offset is 0.9^k times the original |
| `Motion.NeverArrives` | src/js/simulation-controller.js:16-21 | a coordinate that starts off its target never reaches it exactly |
| `Controller.SimulationController.constructor` | src/js/simulation-controller.js:2-7 | a new controller shares the given robot state, starts at index 0 and has no pending frame |
| `Controller.SimulationController.Tick` | src/js/simulation-controller.js:10-28 | wraps the index, moves the shared pose by one `Step` toward the target, passes the moved pose to the redraw, sets the index one past the target, and records a fresh pending frame; on an empty trajectory it fails after resetting the index |
| `Controller.SimulationController.Start` | src/js/simulation-controller.js:9-34 | cancels any pending frame before the first tick, so at most one frame is pending and the old one is gone; resumes from the kept index |
| `Controller.SimulationController.RunFrame` | src/js/simulation-controller.js:27 | the host runs the pending frame as a tick; with no pending frame (after stop or reset) nothing changes |
| `Controller.SimulationController.Stop` | src/js/simulation-controller.js:36-41 | afterwards no frame is pending and no handle is recorded, with the index and pose unchanged; on an idle controller it changes nothing, so stopping twice is stopping once |
| `Controller.SimulationController.Reset` | src/js/simulation-controller.js:43-47 | afterwards the controller is idle, the shared pose holds the fields of `initial` and the index is 0, whatever ran before |
| `Controller.NewDemoController` | src/js/main.js:28-44 | the controller gets a fresh copy of the initial state (0, −2, 0), not the constant itself, and the 50-point circle of radius 2 |
| `Visualization.RobotVisualization.constructor` | visualization.js:2-24 | the initial pose is (0, −2, 0), the trajectory is the 50-point circle of radius 2, and no frame is pending |
| `Visualization.RobotVisualization.GenerateCircularTrajectory` | visualization.js:26-36 | the inline loop satisfies the same point count, order and angle formula as the modular generator |
| `Visualization.RobotVisualization.WorldToCanvas` | visualization.js:38-43 | the inline transform equals the modular transformer built from the canvas size with scale 100 |
| `Visualization.RobotVisualization.Tick` | visualization.js:156-174 | the same wrap, 10% move, redraw of the moved pose and increment as the controller's tick |
| `Visualization.RobotVisualization.StartSimulation` | visualization.js:152-180 | every start aims its first tick at point 0, leaving index 1, after cancelling the previous frame; exactly one frame is pending afterwards |
| `Visualization.RobotVisualization.RunFrame` | visualization.js:173 | the host runs the pending frame as a tick; a cancelled frame never runs |
| `Visualization.RobotVisualization.ResetSimulation` | visualization.js:182-188 | cancels the pending frame but keeps the stale handle, and installs a fresh robot-state object holding (0, −2, 0) |
| `Visualization.RobotVisualization.UpdateRobotState` | visualization.js:137-140 | the pose becomes a fresh copy of the argument, a different object, so later writes to the argument do not reach it |

## Left out

- Canvas drawing (the renderers and every draw method) is left out. It is only drawing-API calls and computes nothing. A redraw is reduced to the pose it would draw, returned as `frame`.
- DOM lookup and button wiring in src/js/main.js are left out. Only the start-up wiring is modelled, as `Controller.NewDemoController`.
- The obstacle list is left out; it is only drawn.
- `Math.atan2`, `Math.cos` and `Math.sin` cannot be modelled exactly on reals. They are parameters with no properties assumed, and no property of heading values is proved.
- Double-precision rounding is left out. The model uses exact reals, so 0.1 means one tenth and `Math.PI` is a decimal constant.
- Frame timing is left out. The host is modelled only through pending handles, and `RunFrame` stands for a pending frame being run.
- `numPoints` is an integer in the model. JavaScript would also accept a non-integral count.
- `Object.assign` in `reset` and the spread copy `{ ...newState }` in `updateRobotState` are modelled as copying `x`, `y` and `theta`. Any other property of the argument is not modelled.
- The Python half (robot/, main.py) is left out. It is an MPC demo on numpy and scipy: an SLSQP optimiser, a kinematic model in floating-point trigonometry, and cost sums with square roots.
