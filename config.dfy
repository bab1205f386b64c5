/** The configuration constants of the visualisation. */
module Config {
  import opened Geometry

  const WIDTH: real := 800.0
  const HEIGHT: real := 800.0
  /** Pixels per metre. */
  const SCALE: real := 100.0
  /** The grid is drawn for world coordinates -GRID_RANGE .. GRID_RANGE. */
  const GRID_RANGE: real := 4.0
  const INITIAL_STATE: Pose := Pose(0.0, -2.0, 0.0)

  /** The reference circle both front ends generate at start-up. */
  const TRAJECTORY_RADIUS: real := 2.0
  const TRAJECTORY_POINTS: int := 50

  /** Math.PI, written as the shortest decimal that rounds to that double. */
  const PI: real := 3.141592653589793
}
