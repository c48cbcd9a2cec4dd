/**
 * One frame of the physics: gravity, collision with the four walls, and
 * friction while the ball rests on the floor (`update`, src/main.ts:128-181).
 */
module Physics {
  import opened Options
  import opened BallState

  /** Gravity first, then the position moves by the new vertical speed. */
  function Integrate(b: Ball, dt: real): (r: Ball)
    ensures r.vy == b.vy + GRAVITY * dt
    ensures r.x == b.x + b.vx * dt && r.y == b.y + r.vy * dt
    ensures r.vx == b.vx && r.radius == b.radius
  {
    var vy := b.vy + GRAVITY * dt;
    b.(x := b.x + b.vx * dt, y := b.y + vy * dt, vy := vy)
  }

  /** Which of the exclusive horizontal branches fires; left is tested first. */
  datatype HorizontalHit = NoSideWall | LeftWall | RightWall

  /** Which of the exclusive vertical branches fires; the top is tested first. */
  datatype VerticalHit = NoFloorOrCeiling | TopWall | SoftLanding | FloorBounce

  function HorizontalBranch(b: Ball, w: Walls): HorizontalHit {
    if b.x - b.radius < w.left then LeftWall
    else if b.x + b.radius > w.right then RightWall
    else NoSideWall
  }

  function VerticalBranch(b: Ball, w: Walls): VerticalHit {
    if b.y - b.radius < w.top then TopWall
    else if b.y + b.radius > w.bottom then
      if b.vy > 0.0 && b.y + b.radius - w.bottom > 0.0 && Abs(b.vy) < SOFT_LANDING_SPEED
      then SoftLanding
      else FloorBounce
    else NoFloorOrCeiling
  }

  /** Clamp against the left or the right wall and bounce. */
  function CollideHorizontal(b: Ball, w: Walls): (r: Ball)
    ensures r.y == b.y && r.vy == b.vy && r.radius == b.radius
    ensures r == b <==> HorizontalBranch(b, w) == NoSideWall
    ensures HorizontalBranch(b, w) == LeftWall ==> r.x == w.left + b.radius
    ensures HorizontalBranch(b, w) == RightWall ==> r.x == w.right - b.radius
    ensures HorizontalBranch(b, w) != NoSideWall ==> r.vx == -b.vx * RESTITUTION
    ensures Fits(b, w) ==> w.left + r.radius <= r.x <= w.right - r.radius
  {
    match HorizontalBranch(b, w)
    case LeftWall => b.(x := w.left + b.radius, vx := -b.vx * RESTITUTION)
    case RightWall => b.(x := w.right - b.radius, vx := -b.vx * RESTITUTION)
    case NoSideWall => b
  }

  /** Clamp against the top wall or the floor; a slow fall onto the floor stops dead. */
  function CollideVertical(b: Ball, w: Walls): (r: Ball)
    ensures r.x == b.x && r.vx == b.vx && r.radius == b.radius
    ensures r == b <==> VerticalBranch(b, w) == NoFloorOrCeiling
    ensures VerticalBranch(b, w) == TopWall ==>
      r.y == w.top + b.radius && r.vy == -b.vy * RESTITUTION
    ensures VerticalBranch(b, w) == SoftLanding ==> r.y == w.bottom - b.radius && r.vy == 0.0
    ensures VerticalBranch(b, w) == FloorBounce ==>
      r.y == w.bottom - b.radius && r.vy == -b.vy * RESTITUTION
    ensures Fits(b, w) ==> w.top + r.radius <= r.y <= w.bottom - r.radius
  {
    match VerticalBranch(b, w)
    case TopWall => b.(y := w.top + b.radius, vy := -b.vy * RESTITUTION)
    case SoftLanding => b.(y := w.bottom - b.radius, vy := 0.0)
    case FloorBounce => b.(y := w.bottom - b.radius, vy := -b.vy * RESTITUTION)
    case NoFloorOrCeiling => b
  }

  /** The ball's bottom is within REST_EPS of the floor and it is not bouncing. */
  predicate Resting(b: Ball, w: Walls) {
    Abs(b.y + b.radius - w.bottom) < REST_EPS && Abs(b.vy) < REST_SPEED
  }

  /**
   * Horizontal speed after one frame of rolling friction. Below SNAP_SPEED
   * the ball stops; otherwise FRICTION*dt is taken off against the direction
   * of motion, and when that is more than the speed itself the ball reverses.
   */
  function FrictionVx(vx: real, dt: real): (r: real)
    ensures Abs(vx) < SNAP_SPEED ==> r == 0.0
    ensures SNAP_SPEED <= Abs(vx) && 0.0 <= FRICTION * dt <= Abs(vx) ==>
      Abs(r) == Abs(vx) - FRICTION * dt && (0.0 <= r <= vx || vx <= r <= 0.0)
    ensures SNAP_SPEED <= Abs(vx) && Abs(vx) < FRICTION * dt ==>
      Abs(r) == FRICTION * dt - Abs(vx) && Sign(r) == -Sign(vx)
  {
    if Abs(vx) < SNAP_SPEED then 0.0 else vx - FRICTION * dt * Sign(vx)
  }

  function ApplyFriction(b: Ball, w: Walls, dt: real): (r: Ball)
    ensures r.x == b.x && r.y == b.y && r.vy == b.vy && r.radius == b.radius
    ensures Resting(b, w) ==> r.vx == FrictionVx(b.vx, dt)
    ensures !Resting(b, w) ==> r == b
  {
    if Resting(b, w) then b.(vx := FrictionVx(b.vx, dt)) else b
  }

  /** The ball after gravity and after the horizontal collision. */
  function AfterHorizontal(s: World, dt: real): Ball {
    CollideHorizontal(Integrate(s.ball, dt), s.walls)
  }

  /** How many of the two collision tests fired: each one recolours once. */
  function HitCount(s: World, dt: real): nat {
    (if HorizontalBranch(Integrate(s.ball, dt), s.walls) == NoSideWall then 0 else 1) +
    (if VerticalBranch(AfterHorizontal(s, dt), s.walls) == NoFloorOrCeiling then 0 else 1)
  }

  /**
   * One frame. Nothing happens before the launch or during a drag. The walls,
   * the radius, the drag and the launch flag are never touched, and a ball
   * that fits the box ends the frame inside it.
   */
  function Step(s: World, dt: real): (r: World)
    ensures r.walls == s.walls && r.ball.radius == s.ball.radius
    ensures r.isDragging == s.isDragging && r.dragEnd == s.dragEnd && r.launched == s.launched
    ensures !Active(s) ==> r == s
    ensures Active(s) && Fits(s.ball, s.walls) ==> Inside(r.ball, r.walls)
    ensures Valid(s) ==> Valid(r)
    ensures s.recolours <= r.recolours <= s.recolours + 2
  {
    if !Active(s) then s
    else
      var b := ApplyFriction(CollideVertical(AfterHorizontal(s, dt), s.walls), s.walls, dt);
      s.(ball := b, recolours := s.recolours + HitCount(s, dt))
  }

  /**
   * A ball overlapping both side walls (only possible when the box is
   * narrower than the ball) is pushed against the left wall only.
   */
  lemma CornerPrefersLeft(b: Ball, w: Walls)
    requires b.x - b.radius < w.left && b.x + b.radius > w.right
    ensures HorizontalBranch(b, w) == LeftWall
    ensures CollideHorizontal(b, w).x == w.left + b.radius
  {
  }

  /**
   * The floor is soft exactly for a ball clear of the top wall that overlaps
   * the floor while falling slower than SOFT_LANDING_SPEED; the overlap test
   * inside the branch repeats the branch's own guard.
   */
  lemma SoftLandingCondition(b: Ball, w: Walls)
    ensures VerticalBranch(b, w) == SoftLanding <==>
      w.top <= b.y - b.radius && w.bottom < b.y + b.radius && 0.0 < b.vy < SOFT_LANDING_SPEED
  {
  }

  /**
   * Touching the floor in a frame lands the ball on it and recolours; a
   * slow fall stops the ball, a fast one bounces it back at 3/4 speed.
   */
  lemma FloorContact(s: World, dt: real)
    requires Active(s)
    requires VerticalBranch(AfterHorizontal(s, dt), s.walls) in {SoftLanding, FloorBounce}
    ensures Step(s, dt).ball.y == s.walls.bottom - s.ball.radius
    ensures Step(s, dt).recolours >= s.recolours + 1
    ensures VerticalBranch(AfterHorizontal(s, dt), s.walls) == SoftLanding ==>
      Step(s, dt).ball.vy == 0.0
    ensures VerticalBranch(AfterHorizontal(s, dt), s.walls) == FloorBounce ==>
      Step(s, dt).ball.vy == -AfterHorizontal(s, dt).vy * RESTITUTION
  {
  }

  /** Friction changes the horizontal speed only of a ball resting on the floor. */
  lemma FrictionOnlyOnFloor(s: World, dt: real)
    requires Active(s)
    requires Step(s, dt).ball.vx != AfterHorizontal(s, dt).vx
    ensures Resting(CollideVertical(AfterHorizontal(s, dt), s.walls), s.walls)
  {
  }

  /** `n` consecutive frames of rolling friction. */
  function FrictionRun(vx: real, dt: real, n: nat): real
    decreases n
  {
    if n == 0 then vx else FrictionRun(FrictionVx(vx, dt), dt, n - 1)
  }

  lemma {:induction false} StoppedStaysStopped(dt: real, n: nat)
    ensures FrictionRun(0.0, dt, n) == 0.0
    decreases n
  {
    if n > 0 {
      StoppedStaysStopped(dt, n - 1);
    }
  }

  /**
   * While FRICTION*dt stays below twice SNAP_SPEED, rolling friction brings
   * any speed to exactly zero within n frames once n frames' worth of
   * friction exceeds the speed by one frame, i.e. within |vx|/FRICTION
   * seconds plus one frame.
   */
  lemma {:induction false} FrictionStops(vx: real, dt: real, n: nat)
    requires 0.0 < FRICTION * dt < 2.0 * SNAP_SPEED
    requires (n as real) * (FRICTION * dt) >= Abs(vx) + FRICTION * dt
    ensures FrictionRun(vx, dt, n) == 0.0
    decreases n
  {
    assert n >= 1;
    assert FrictionRun(vx, dt, n) == FrictionRun(FrictionVx(vx, dt), dt, n - 1);
    if Abs(vx) < SNAP_SPEED {
      StoppedStaysStopped(dt, n - 1);
    } else if FRICTION * dt <= Abs(vx) {
      assert ((n - 1) as real) * (FRICTION * dt) == (n as real) * (FRICTION * dt) - FRICTION * dt;
      FrictionStops(FrictionVx(vx, dt), dt, n - 1);
    } else {
      assert n >= 2;
      assert Abs(FrictionVx(vx, dt)) < SNAP_SPEED;
      StoppedStaysStopped(dt, n - 2);
    }
  }

  /**
   * With longer frames (FRICTION*dt at least 2*SNAP_SPEED, e.g. dt = 0.03)
   * every speed between SNAP_SPEED and FRICTION*dt - SNAP_SPEED flips sign
   * each frame and comes back to itself after two: friction never stops it.
   */
  lemma FrictionTwoCycle(vx: real, dt: real)
    requires SNAP_SPEED <= Abs(vx) <= FRICTION * dt - SNAP_SPEED
    ensures Sign(FrictionVx(vx, dt)) == -Sign(vx)
    ensures FrictionVx(FrictionVx(vx, dt), dt) == vx
  {
  }

  /**
   * A ball lying on the floor, clear of the side walls, with frames short
   * enough for the floor to stay soft: one frame moves it sideways, keeps it
   * on the floor and applies exactly one frame of rolling friction.
   */
  lemma RestingFrameIsFriction(s: World, dt: real)
    requires Active(s) && Valid(s)
    requires s.ball.y == s.walls.bottom - s.ball.radius && 0.0 <= s.ball.vy
    requires 0.0 < dt && s.ball.vy + GRAVITY * dt < SOFT_LANDING_SPEED
    requires s.walls.left + s.ball.radius <= s.ball.x + s.ball.vx * dt <= s.walls.right - s.ball.radius
    ensures Step(s, dt).ball ==
      s.ball.(x := s.ball.x + s.ball.vx * dt, vy := 0.0, vx := FrictionVx(s.ball.vx, dt))
    ensures Step(s, dt).recolours == s.recolours + 1
  {
    assert HorizontalBranch(Integrate(s.ball, dt), s.walls) == NoSideWall;
    Falls(s.ball, dt);
    assert VerticalBranch(AfterHorizontal(s, dt), s.walls) == SoftLanding;
  }

  /** A ball not moving up is lower after a frame of gravity, and falling. */
  lemma Falls(b: Ball, dt: real)
    requires 0.0 <= b.vy && 0.0 < dt
    ensures Integrate(b, dt).y > b.y && Integrate(b, dt).vy > 0.0
  {
  }

  /**
   * A concrete ball that never comes to rest: on the floor of a 200 px box,
   * rolling at 2.25 px/s with 30 ms frames, it reverses every frame and is
   * back where it started after two.
   */
  lemma JitterNeverSettles()
    ensures var s := World(Ball(0.0, 90.0, 2.25, 0.0, 10.0),
                           Walls(-100.0, 100.0, -100.0, 100.0), false, None, true, 0);
      Step(s, 0.03).ball.vx == -2.25 && Step(Step(s, 0.03), 0.03) == s.(recolours := 2)
  {
  }

  /** `n` consecutive frames. */
  function StepN(s: World, dt: real, n: nat): World
    decreases n
  {
    if n == 0 then s else StepN(Step(s, dt), dt, n - 1)
  }

  /** During this frame the ball rolls without reaching a side wall. */
  predicate RollsClear(s: World, dt: real) {
    s.walls.left + s.ball.radius <= s.ball.x + s.ball.vx * dt <= s.walls.right - s.ball.radius
  }

  /**
   * A launched ball lying on the floor, with frames short enough to land
   * softly, that stays clear of the side walls for n frames: it stays on the
   * floor, and its horizontal speed is n frames of rolling friction.
   */
  lemma {:induction false} RollingFramesAreFriction(s: World, dt: real, n: nat)
    requires Active(s) && Valid(s)
    requires s.ball.y == s.walls.bottom - s.ball.radius && 0.0 <= s.ball.vy
    requires 0.0 < dt && s.ball.vy + GRAVITY * dt < SOFT_LANDING_SPEED
    requires forall k :: 0 <= k < n ==> RollsClear(StepN(s, dt, k), dt)
    ensures StepN(s, dt, n).ball.vx == FrictionRun(s.ball.vx, dt, n)
    ensures StepN(s, dt, n).ball.y == s.walls.bottom - s.ball.radius
    ensures n > 0 ==> StepN(s, dt, n).ball.vy == 0.0
    decreases n
  {
    if n > 0 {
      assert RollsClear(StepN(s, dt, 0), dt);
      RestingFrameIsFriction(s, dt);
      var s' := Step(s, dt);
      forall k | 0 <= k < n - 1
        ensures RollsClear(StepN(s', dt, k), dt)
      {
        assert StepN(s, dt, k + 1) == StepN(s', dt, k);
      }
      RollingFramesAreFriction(s', dt, n - 1);
    }
  }

  /**
   * With frames short enough (150·dt below 4 px/s), a ball rolling on the
   * floor clear of the side walls comes to exactly vx = 0 within |vx|/150
   * seconds plus one frame.
   */
  lemma RollingBallStops(s: World, dt: real, n: nat)
    requires Active(s) && Valid(s)
    requires s.ball.y == s.walls.bottom - s.ball.radius && 0.0 <= s.ball.vy
    requires 0.0 < dt && s.ball.vy + GRAVITY * dt < SOFT_LANDING_SPEED
    requires FRICTION * dt < 2.0 * SNAP_SPEED
    requires (n as real) * (FRICTION * dt) >= Abs(s.ball.vx) + FRICTION * dt
    requires forall k :: 0 <= k < n ==> RollsClear(StepN(s, dt, k), dt)
    ensures StepN(s, dt, n).ball.vx == 0.0
    ensures StepN(s, dt, n).ball.y == s.walls.bottom - s.ball.radius
  {
    RollingFramesAreFriction(s, dt, n);
    FrictionStops(s.ball.vx, dt, n);
  }
}
