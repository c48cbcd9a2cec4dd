/**
 * The program's module-level variables as one object, and its event
 * handlers as methods that reassign them in place (src/main.ts). Each
 * method is proved to leave the object in the state the corresponding
 * function of Input, Physics or Layout describes.
 */
module Simulation {
  import opened Options
  import opened BallState
  import Input
  import Physics
  import Layout

  class Sim {
    var x: real
    var y: real
    var vx: real
    var vy: real
    var radius: real
    var wallLeft: real
    var wallRight: real
    var wallTop: real
    var wallBottom: real
    var isDragging: bool
    var dragEnd: Option<Point>
    var launched: bool
    /** Stands for `ballColor` and `wallColor`: one tick per re-randomisation of both. */
    var recolours: nat
    var lastTime: real

    function State(): World
      reads this
    {
      World(Ball(x, y, vx, vy, radius), Walls(wallLeft, wallRight, wallTop, wallBottom),
            isDragging, dragEnd, launched, recolours)
    }

    predicate Valid()
      reads this
    {
      BallState.Valid(State())
    }

    /** Script start-up: the module-level initialisers, with the clock reading `now`. */
    constructor (width: nat, height: nat, now: real)
      ensures State() == Layout.Initial(width, height) && lastTime == now
      ensures Valid()
    {
      isDragging := false;
      dragEnd := None;
      launched := false;
      recolours := 0;
      var side := Min(width as real, height as real);
      radius := side * RADIUS_FRACTION;
      var cx, cy := width as real / 2.0, height as real / 2.0;
      x, y := cx, cy;
      vx := 0.0;
      vy := 0.0;
      var wallDistance := side * WALL_FRACTION;
      wallLeft := cx - wallDistance;
      wallRight := cx + wallDistance;
      wallTop := cy - wallDistance;
      wallBottom := cy + wallDistance;
      lastTime := now;
    }

    method HandleDragStart(p: Point)
      modifies this
      ensures State() == Input.DragStarted(old(State()), p)
      ensures lastTime == old(lastTime)
    {
      isDragging := true;
      dragEnd := Some(p);
    }

    method HandleDragMove(p: Point)
      modifies this
      ensures State() == Input.DragMoved(old(State()), p)
      ensures lastTime == old(lastTime)
    {
      if !isDragging {
        return;
      }
      dragEnd := Some(p);
    }

    method HandleDragEnd()
      modifies this
      ensures State() == Input.DragEnded(old(State()))
      ensures old(launched) ==> launched
      ensures lastTime == old(lastTime)
    {
      if isDragging && dragEnd.Some? {
        var dx := x - dragEnd.value.x;
        var dy := y - dragEnd.value.y;
        if Input.PositiveLength(dx, dy) {
          vx := dx * SPEED_MULTIPLIER;
          vy := dy * SPEED_MULTIPLIER;
          launched := true;
        }
      }
      isDragging := false;
      dragEnd := None;
    }

    method Resize(width: nat, height: nat)
      modifies this
      ensures State() == Layout.Resized(old(State()), width, height)
      ensures Valid()
      ensures lastTime == old(lastTime)
    {
      var side := Min(width as real, height as real);
      radius := side * RADIUS_FRACTION;
      x := width as real / 2.0;
      y := height as real / 2.0;
      var wallDist := side * WALL_FRACTION;
      wallLeft := x - wallDist;
      wallRight := x + wallDist;
      wallTop := y - wallDist;
      wallBottom := y + wallDist;
    }

    /** The left/right collision of `update`: left is tested first, at most one fires. */
    method CollideSideWalls()
      modifies this
      ensures State() == old(State()).(
        ball := Physics.CollideHorizontal(old(State()).ball, old(State()).walls),
        recolours := old(recolours) +
          if Physics.HorizontalBranch(old(State()).ball, old(State()).walls) == Physics.NoSideWall
          then 0 else 1)
      ensures lastTime == old(lastTime)
    {
      if x - radius < wallLeft {
        x := wallLeft + radius;
        vx := -vx * RESTITUTION;
        recolours := recolours + 1;
      } else if x + radius > wallRight {
        x := wallRight - radius;
        vx := -vx * RESTITUTION;
        recolours := recolours + 1;
      }
    }

    /** The top/bottom collision of `update`, with the soft landing on the floor. */
    method CollideFloorAndCeiling()
      modifies this
      ensures State() == old(State()).(
        ball := Physics.CollideVertical(old(State()).ball, old(State()).walls),
        recolours := old(recolours) +
          if Physics.VerticalBranch(old(State()).ball, old(State()).walls) == Physics.NoFloorOrCeiling
          then 0 else 1)
      ensures lastTime == old(lastTime)
    {
      if y - radius < wallTop {
        y := wallTop + radius;
        vy := -vy * RESTITUTION;
        recolours := recolours + 1;
      } else if y + radius > wallBottom {
        if vy > 0.0 && y + radius - wallBottom > 0.0 && Abs(vy) < SOFT_LANDING_SPEED {
          y := wallBottom - radius;
          vy := 0.0;
          recolours := recolours + 1;
        } else {
          y := wallBottom - radius;
          vy := -vy * RESTITUTION;
          recolours := recolours + 1;
        }
      }
    }

    /** The rolling friction at the end of `update`. */
    method RollOnFloor(dt: real)
      modifies this
      ensures State() == old(State()).(ball := Physics.ApplyFriction(old(State()).ball, old(State()).walls, dt))
      ensures lastTime == old(lastTime)
    {
      var onBottomWall := Abs(y + radius - wallBottom) < REST_EPS && Abs(vy) < REST_SPEED;
      if onBottomWall {
        var frictionThisFrame := FRICTION * dt * Sign(vx);
        if Abs(vx) < SNAP_SPEED {
          vx := 0.0;
        } else {
          vx := vx - frictionThisFrame;
        }
      }
    }

    method Update(dt: real)
      modifies this
      ensures State() == Physics.Step(old(State()), dt)
      ensures old(Valid()) ==> Valid()
      ensures lastTime == old(lastTime)
    {
      ghost var s0 := State();
      if launched && !isDragging {
        vy := vy + GRAVITY * dt;
        x := x + vx * dt;
        y := y + vy * dt;
        assert State() == s0.(ball := Physics.Integrate(s0.ball, dt));
        CollideSideWalls();
        assert State().ball == Physics.AfterHorizontal(s0, dt);
        CollideFloorAndCeiling();
        assert recolours == s0.recolours + Physics.HitCount(s0, dt);
        RollOnFloor(dt);
      }
    }

    /** One animation frame at clock reading `now` (drawing is not modelled). */
    method Loop(now: real)
      modifies this
      ensures State() == Physics.Step(old(State()), Layout.FrameDt(now, old(lastTime)))
      ensures lastTime == now
    {
      var dt := Layout.FrameDt(now, lastTime);
      lastTime := now;
      Update(dt);
    }
  }
}
