/** The simulation controller: a robot-state object it moves in place, a fixed
    trajectory, the index of the next target and the handle of the pending
    animation frame.

    The host's frame scheduler is part of the state: `pending` holds the
    handles of the frames the host will still run for this controller,
    requesting a frame adds a fresh handle to it and cancelling removes one.
    A handle is never 0, so a recorded handle always reads as "running". */
module Controller {
  import opened Geometry
  import opened Wrappers
  import opened Motion
  import TrajectoryGenerator
  import Config

  class SimulationController {
    /** Shared with the caller, not copied. */
    const robotState: RobotState
    const trajectory: seq<Point>
    var currentPoint: nat
    var animationId: Option<Handle>
    var pending: set<Handle>
    var lastHandle: Handle

    /** The index never passes the end, the only pending frame is the recorded
        one, and a frame is scheduled only for a non-empty trajectory. */
    ghost predicate Valid()
      reads this
    {
      && currentPoint <= |trajectory|
      && pending == (if animationId.Some? then {animationId.value} else {})
      && (animationId.Some? ==> |trajectory| > 0 && animationId.value <= lastHandle)
    }

    /** Idle, so not running. */
    ghost predicate Idle()
      reads this
    {
      animationId.None? && pending == {}
    }

    /** What a tick that started at index `from` has done: on an empty
        trajectory it has reset the index and then failed reading the missing
        target; otherwise it has moved the pose toward the target, handed the
        moved pose to the redraw, advanced the index and scheduled a fresh frame. */
    twostate predicate Ticked(atan2: (real, real) -> real, from: nat, new frame: Option<Pose>)
      reads this, robotState
    {
      if |trajectory| == 0 then
        && frame.None?
        && currentPoint == 0
        && Idle()
        && lastHandle == old(lastHandle)
        && robotState.Snapshot() == old(robotState.Snapshot())
      else
        var i := TargetIndex(from, |trajectory|);
        && robotState.Snapshot() == Step(old(robotState.Snapshot()), trajectory[i], atan2)
        && frame == Some(robotState.Snapshot())
        && currentPoint == i + 1
        && lastHandle == old(lastHandle) + 1
        && animationId == Some(lastHandle)
        && pending == {lastHandle}
    }

    constructor (robotState: RobotState, trajectory: seq<Point>)
      ensures Valid() && Idle()
      ensures this.robotState == robotState && this.trajectory == trajectory
      ensures currentPoint == 0
    {
      this.robotState := robotState;
      this.trajectory := trajectory;
      currentPoint := 0;
      animationId := None;
      pending := {};
      lastHandle := 0;
    }

    /** One animation tick. It runs only when no frame is pending: called from
        Start after Stop, or by the host as the pending frame. */
    method Tick(atan2: (real, real) -> real) returns (frame: Option<Pose>)
      requires currentPoint <= |trajectory| && pending == {}
      requires animationId.Some? ==> |trajectory| > 0 && animationId.value <= lastHandle
      requires |trajectory| == 0 ==> animationId.None?
      modifies this, robotState
      ensures Valid()
      ensures Ticked(atan2, old(currentPoint), frame)
    {
      if currentPoint >= |trajectory| {
        currentPoint := 0;
      }
      if |trajectory| == 0 {
        // trajectory[0] is undefined and reading its x throws
        frame := None;
        return;
      }
      ghost var before := robotState.Snapshot();
      var target := trajectory[currentPoint];
      var dx := target.x - robotState.x;
      var dy := target.y - robotState.y;
      robotState.x, robotState.y := robotState.x + dx * 0.1, robotState.y + dy * 0.1;
      robotState.theta := atan2(dy, dx);
      frame := Some(robotState.Snapshot());
      currentPoint := currentPoint + 1;
      lastHandle := lastHandle + 1;
      animationId := Some(lastHandle);
      pending := pending + {lastHandle};
      assert robotState.Snapshot() == Step(before, target, atan2);
    }

    /** Cancel a running loop, then run its first tick at once. The index is
        kept, so a restarted loop resumes where the last one stopped. */
    method Start(atan2: (real, real) -> real) returns (frame: Option<Pose>)
      requires Valid()
      modifies this, robotState
      ensures Valid()
      ensures Ticked(atan2, old(currentPoint), frame)
      ensures |pending| <= 1
      ensures old(animationId).Some? ==> old(animationId.value) !in pending
    {
      if animationId.Some? {
        Stop();
      }
      frame := Tick(atan2);
    }

    /** The host runs this controller's pending frame, if there is one; a
        cancelled frame never runs. */
    method RunFrame(atan2: (real, real) -> real) returns (frame: Option<Pose>)
      requires Valid()
      modifies this, robotState
      ensures Valid()
      ensures old(pending) != {} ==> Ticked(atan2, old(currentPoint), frame)
      ensures old(pending) == {} ==>
        && frame.None?
        && unchanged(this) && unchanged(robotState)
    {
      if animationId.Some? {
        pending := pending - {animationId.value};
        frame := Tick(atan2);
      } else {
        frame := None;
      }
    }

    /** Cancel the pending frame and forget its handle; a second Stop changes nothing. */
    method Stop()
      requires Valid()
      modifies this
      ensures Valid() && Idle()
      ensures currentPoint == old(currentPoint) && lastHandle == old(lastHandle)
      ensures old(Idle()) ==> unchanged(this)
    {
      if animationId.Some? {
        pending := pending - {animationId.value};
        animationId := None;
      }
    }

    /** Stop, copy the fields of `initial` into the shared robot state and go
        back to the first trajectory point. The result depends only on
        `initial`, whatever ran before. */
    method Reset(initial: RobotState)
      requires Valid()
      modifies this, robotState
      ensures Valid() && Idle()
      ensures robotState.Snapshot() == old(initial.Snapshot())
      ensures currentPoint == 0 && lastHandle == old(lastHandle)
    {
      Stop();
      robotState.x, robotState.y, robotState.theta := initial.x, initial.y, initial.theta;
      currentPoint := 0;
    }
  }

  /** The wiring at start-up: the controller gets its own copy of the initial
      state, and the trajectory is the 50-point circle of radius 2. */
  method NewDemoController(cos: real -> real, sin: real -> real)
    returns (controller: SimulationController)
    ensures fresh(controller) && fresh(controller.robotState)
    ensures controller.Valid() && controller.Idle() && controller.currentPoint == 0
    ensures controller.robotState.Snapshot() == Config.INITIAL_STATE
    ensures TrajectoryGenerator.IsCircular(controller.trajectory, Config.TRAJECTORY_RADIUS,
                                           Config.TRAJECTORY_POINTS, cos, sin)
  {
    var state := new RobotState(Config.INITIAL_STATE.x, Config.INITIAL_STATE.y, Config.INITIAL_STATE.theta);
    var trajectory := TrajectoryGenerator.GenerateCircular(Config.TRAJECTORY_RADIUS, Config.TRAJECTORY_POINTS, cos, sin);
    controller := new SimulationController(state, trajectory);
  }
}
