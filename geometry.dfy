/** The values and the one mutable object shared by the visualisation. */
module Geometry {

  /** A point of the world plane in metres, or of the canvas in pixels. */
  datatype Point = Point(x: real, y: real)

  /** A value copy of a robot pose: position in metres and heading in radians. */
  datatype Pose = Pose(x: real, y: real, theta: real)

  /** The robot-state object `{x, y, theta}`, which the controller updates in place
      and the renderers read. */
  class RobotState {
    var x: real
    var y: real
    var theta: real

    constructor (x: real, y: real, theta: real)
      ensures Snapshot() == Pose(x, y, theta)
    {
      this.x, this.y, this.theta := x, y, theta;
    }

    /** The pose the object holds right now, as a value. */
    function Snapshot(): Pose
      reads this
    {
      Pose(x, y, theta)
    }
  }
}
