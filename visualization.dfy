/** The older single-class front end, which repeats the transform, the
    generator and the tick inline. It differs from the controller in three
    ways: the loop index is local to each start, so every start begins again
    at index 0; reset cancels the pending frame but keeps its (now stale)
    handle; and reset and update replace the robot-state object by a fresh
    one instead of writing into it. */
module Visualization {
  import opened Geometry
  import opened Wrappers
  import opened Motion
  import CoordinateTransform
  import TrajectoryGenerator
  import Config

  class RobotVisualization {
    const canvasWidth: real
    const canvasHeight: real
    const scale: real := 100.0
    const centerX: real := canvasWidth / 2.0
    const centerY: real := canvasHeight / 2.0
    var robotState: RobotState
    const trajectory: seq<Point>
    /** The loop index of the latest start; earlier loops can no longer run. */
    var currentPoint: nat
    var animationId: Option<Handle>
    /** The frames the host will still run for this object. */
    var pending: set<Handle>
    var lastHandle: Handle

    /** At most the recorded frame is pending, and the index never passes the end. */
    ghost predicate Valid()
      reads this
    {
      && |trajectory| > 0
      && currentPoint <= |trajectory|
      && pending <= (if animationId.Some? then {animationId.value} else {})
      && (animationId.Some? ==> animationId.value <= lastHandle)
    }

    constructor (canvasWidth: real, canvasHeight: real, cos: real -> real, sin: real -> real)
      ensures Valid()
      ensures this.canvasWidth == canvasWidth && this.canvasHeight == canvasHeight
      ensures fresh(robotState) && robotState.Snapshot() == Config.INITIAL_STATE
      ensures TrajectoryGenerator.IsCircular(trajectory, Config.TRAJECTORY_RADIUS,
                                             Config.TRAJECTORY_POINTS, cos, sin)
      ensures animationId.None? && pending == {}
    {
      var points := GenerateCircularTrajectory(2.0, 50, cos, sin);
      this.canvasWidth, this.canvasHeight := canvasWidth, canvasHeight;
      robotState := new RobotState(0.0, -2.0, 0.0);
      trajectory := points;
      currentPoint := 0;
      animationId := None;
      pending := {};
      lastHandle := 0;
    }

    /** The inline copy of the generator loop. */
    static method GenerateCircularTrajectory(radius: real, numPoints: int, cos: real -> real, sin: real -> real)
      returns (points: seq<Point>)
      ensures TrajectoryGenerator.IsCircular(points, radius, numPoints, cos, sin)
    {
      points := [];
      var i := 0;
      while i < numPoints
        invariant 0 <= i <= TrajectoryGenerator.PointCount(numPoints)
        invariant |points| == i
        invariant forall k :: 0 <= k < i ==>
          points[k] == TrajectoryGenerator.CirclePoint(radius, TrajectoryGenerator.Angle(k, numPoints), cos, sin)
      {
        var angle := (i as real / numPoints as real) * 2.0 * Config.PI;
        points := points + [Point(radius * cos(angle), radius * sin(angle))];
        i := i + 1;
      }
    }

    /** The inline transform is the configured transformer with scale 100. */
    function WorldToCanvas(x: real, y: real): (p: Point)
      ensures p == CoordinateTransform.WorldToCanvas(
                     CoordinateTransform.NewTransformer(canvasWidth, canvasHeight, Config.SCALE), x, y)
    {
      Point(centerX + x * scale, centerY - y * scale)
    }

    /** One tick of the loop: move a tenth of the way toward the target, redraw
        the moved pose, advance the index and schedule the next frame. */
    method Tick(atan2: (real, real) -> real) returns (frame: Pose)
      requires Valid() && pending == {}
      modifies this, robotState
      ensures Valid()
      ensures robotState == old(robotState)
      ensures var i := TargetIndex(old(currentPoint), |trajectory|);
              && robotState.Snapshot() == Step(old(robotState.Snapshot()), trajectory[i], atan2)
              && frame == robotState.Snapshot()
              && currentPoint == i + 1
      ensures lastHandle == old(lastHandle) + 1 && animationId == Some(lastHandle) && pending == {lastHandle}
    {
      if currentPoint >= |trajectory| {
        currentPoint := 0;
      }
      ghost var before := robotState.Snapshot();
      var target := trajectory[currentPoint];
      var dx := target.x - robotState.x;
      var dy := target.y - robotState.y;
      robotState.x, robotState.y := robotState.x + dx * 0.1, robotState.y + dy * 0.1;
      robotState.theta := atan2(dy, dx);
      frame := robotState.Snapshot();
      currentPoint := currentPoint + 1;
      lastHandle := lastHandle + 1;
      animationId := Some(lastHandle);
      pending := pending + {lastHandle};
      assert robotState.Snapshot() == Step(before, target, atan2);
    }

    /** Start a fresh loop at index 0, cancelling the previous loop's frame. */
    method StartSimulation(atan2: (real, real) -> real) returns (frame: Pose)
      requires Valid()
      modifies this, robotState
      ensures Valid()
      ensures robotState == old(robotState)
      ensures robotState.Snapshot() == Step(old(robotState.Snapshot()), trajectory[0], atan2)
      ensures frame == robotState.Snapshot() && currentPoint == 1
      ensures lastHandle == old(lastHandle) + 1 && animationId == Some(lastHandle) && pending == {lastHandle}
    {
      currentPoint := 0;
      if animationId.Some? {
        pending := pending - {animationId.value};
      }
      frame := Tick(atan2);
    }

    /** The host runs the pending frame, if there is one. */
    method RunFrame(atan2: (real, real) -> real) returns (frame: Option<Pose>)
      requires Valid()
      modifies this, robotState
      ensures Valid()
      ensures old(pending) == {} ==> frame.None? && unchanged(this) && unchanged(robotState)
      ensures old(pending) != {} ==>
        var i := TargetIndex(old(currentPoint), |trajectory|);
        && robotState.Snapshot() == Step(old(robotState.Snapshot()), trajectory[i], atan2)
        && frame == Some(robotState.Snapshot())
        && currentPoint == i + 1
        && robotState == old(robotState)
        && lastHandle == old(lastHandle) + 1
        && animationId == Some(lastHandle)
        && pending == {lastHandle}
    {
      if pending != {} {
        pending := {};
        var f := Tick(atan2);
        frame := Some(f);
      } else {
        frame := None;
      }
    }

    /** Cancel the pending frame, keeping its handle, and replace the robot state
        by a fresh object holding the initial pose; the moved object is left as it was. */
    method ResetSimulation() returns (frame: Pose)
      requires Valid()
      modifies this
      ensures Valid()
      ensures pending == {} && animationId == old(animationId)
      ensures fresh(robotState) && robotState.Snapshot() == Config.INITIAL_STATE
      ensures frame == Config.INITIAL_STATE
      ensures currentPoint == old(currentPoint) && lastHandle == old(lastHandle)
    {
      if animationId.Some? {
        pending := pending - {animationId.value};
      }
      robotState := new RobotState(0.0, -2.0, 0.0);
      frame := robotState.Snapshot();
    }

    /** Replace the robot state by a copy of `newState`: later writes to
        `newState` do not reach the pose. */
    method UpdateRobotState(newState: RobotState) returns (frame: Pose)
      requires Valid()
      modifies this
      ensures Valid()
      ensures fresh(robotState) && robotState != newState
      ensures robotState.Snapshot() == old(newState.Snapshot())
      ensures frame == robotState.Snapshot()
      ensures currentPoint == old(currentPoint) && animationId == old(animationId) && pending == old(pending)
      ensures lastHandle == old(lastHandle)
    {
      robotState := new RobotState(newState.x, newState.y, newState.theta);
      frame := robotState.Snapshot();
    }
  }
}
