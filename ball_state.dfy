/**
 * The state of the ball toy: one ball, four axis-aligned walls, the pointer
 * drag in progress and the launch flag. Every quantity is a `real`, so the
 * model does not capture IEEE-754 rounding.
 */
module BallState {
  import opened Options

  /** Physics constants of src/main.ts. */
  const GRAVITY: real := 980.0            // px/s^2, added to vy every frame
  const RESTITUTION: real := 0.75         // fraction of speed kept by a bounce
  const SPEED_MULTIPLIER: real := 9.0     // drag distance to launch speed
  const SOFT_LANDING_SPEED: real := 30.0  // below this a floor hit does not bounce
  const REST_EPS: real := 2.5             // px: "touching the floor" tolerance
  const REST_SPEED: real := 5.0           // px/s: "not bouncing" tolerance
  const FRICTION: real := 150.0           // px/s^2 deceleration while resting
  const SNAP_SPEED: real := 2.0           // px/s: slower than this snaps to 0
  const MAX_DT: real := 0.033             // s: longest simulated frame
  const RADIUS_FRACTION: real := 0.05     // radius / shorter viewport side
  const WALL_FRACTION: real := 0.25       // wall distance / shorter viewport side

  datatype Point = Point(x: real, y: real)

  /** Position and velocity of the ball's centre, and its radius. */
  datatype Ball = Ball(x: real, y: real, vx: real, vy: real, radius: real)

  /** Inner faces of the four walls; y grows downwards as on a canvas. */
  datatype Walls = Walls(left: real, right: real, top: real, bottom: real)

  /**
   * The module-level state of the program. `recolours` counts the times the
   * ball and wall colours were re-randomised (each time both change).
   */
  datatype World = World(
    ball: Ball,
    walls: Walls,
    isDragging: bool,
    dragEnd: Option<Point>,
    launched: bool,
    recolours: nat)

  function Abs(r: real): real {
    if r < 0.0 then -r else r
  }

  /** Math.sign on a non-NaN number. */
  function Sign(r: real): real {
    if r > 0.0 then 1.0 else if r < 0.0 then -1.0 else 0.0
  }

  function Min(a: real, b: real): real {
    if a <= b then a else b
  }

  /** The ball lies entirely between the walls (touching is allowed). */
  predicate Inside(b: Ball, w: Walls) {
    w.left + b.radius <= b.x <= w.right - b.radius &&
    w.top + b.radius <= b.y <= w.bottom - b.radius
  }

  /** The box is at least one ball diameter wide and high. */
  predicate Fits(b: Ball, w: Walls) {
    2.0 * b.radius <= w.right - w.left && 2.0 * b.radius <= w.bottom - w.top
  }

  /** The invariant every event of the program keeps. */
  predicate Valid(s: World) {
    0.0 <= s.ball.radius && Inside(s.ball, s.walls)
  }

  /** The physics step runs only after a launch and while no drag is active. */
  predicate Active(s: World) {
    s.launched && !s.isDragging
  }
}
