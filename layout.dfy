/**
 * Geometry that depends on the viewport: the initial state of the module
 * (src/main.ts:2-4, 68, 84-108), `resize` (src/main.ts:110-122) and the frame
 * length computed by `loop` (src/main.ts:292).
 */
module Layout {
  import opened Options
  import opened BallState

  function ShorterSide(width: nat, height: nat): real {
    Min(width as real, height as real)
  }

  /**
   * `resize`: the ball moves to the centre of the viewport, its radius is 5%
   * of the shorter side and the walls form a square of half the shorter side
   * around it. Velocity, drag and launch state are kept.
   */
  function Resized(s: World, width: nat, height: nat): (r: World)
    ensures Valid(r)
    ensures r.ball.x == width as real / 2.0 && r.ball.y == height as real / 2.0
    ensures r.ball.radius == RADIUS_FRACTION * ShorterSide(width, height)
    ensures r.walls.left + r.walls.right == 2.0 * r.ball.x
    ensures r.walls.top + r.walls.bottom == 2.0 * r.ball.y
    ensures r.walls.right - r.walls.left == r.walls.bottom - r.walls.top == 10.0 * r.ball.radius
    ensures r.ball.vx == s.ball.vx && r.ball.vy == s.ball.vy
    ensures r.isDragging == s.isDragging && r.dragEnd == s.dragEnd
    ensures r.launched == s.launched && r.recolours == s.recolours
  {
    var m := ShorterSide(width, height);
    var x := width as real / 2.0;
    var y := height as real / 2.0;
    var wallDist := m * WALL_FRACTION;
    s.(ball := s.ball.(x := x, y := y, radius := m * RADIUS_FRACTION),
       walls := Walls(x - wallDist, x + wallDist, y - wallDist, y + wallDist))
  }

  /**
   * The state when the page loads: the ball at rest in the centre, not
   * launched, no drag, walls as `resize` would place them.
   */
  function Initial(width: nat, height: nat): (r: World)
    ensures Valid(r) && !Active(r)
    ensures !r.launched && !r.isDragging && r.dragEnd == None && r.recolours == 0
    ensures r.ball.vx == 0.0 && r.ball.vy == 0.0
  {
    var m := ShorterSide(width, height);
    var x := width as real / 2.0;
    var y := height as real / 2.0;
    var wallDistance := m * WALL_FRACTION;
    World(Ball(x, y, 0.0, 0.0, m * RADIUS_FRACTION),
          Walls(x - wallDistance, x + wallDistance, y - wallDistance, y + wallDistance),
          false, None, false, 0)
  }

  /** The `resize()` call at the end of the script leaves the loaded state unchanged. */
  lemma ResizeAtLoadIsNoOp(width: nat, height: nat)
    ensures Resized(Initial(width, height), width, height) == Initial(width, height)
  {
  }

  /** Resizing twice to the same viewport is the same as resizing once. */
  lemma ResizeIdempotent(s: World, width: nat, height: nat)
    ensures Resized(Resized(s, width, height), width, height) == Resized(s, width, height)
  {
  }

  /** The frame length: seconds since the last frame, capped at MAX_DT. */
  function FrameDt(now: real, last: real): (dt: real)
    ensures dt <= MAX_DT && dt <= (now - last) / 1000.0
    ensures dt == MAX_DT || dt == (now - last) / 1000.0
  {
    Min((now - last) / 1000.0, MAX_DT)
  }
}
