/**
 * The drag gesture: pointer down starts a drag, pointer move updates its
 * end point, pointer up turns it into a launch velocity (src/main.ts:39-65).
 * Pointer coordinates arrive already relative to the canvas.
 */
module Input {
  import opened Options
  import opened BallState

  /** The drag is live and its end point is away from the ball's centre. */
  predicate Launches(s: World) {
    s.isDragging && s.dragEnd.Some? && s.dragEnd.value != Point(s.ball.x, s.ball.y)
  }

  /** Pointer down: record the end point and mark the drag active. */
  function DragStarted(s: World, p: Point): (r: World)
    ensures r.isDragging && r.dragEnd == Some(p)
    ensures r.ball == s.ball && r.walls == s.walls
    ensures r.launched == s.launched && r.recolours == s.recolours
  {
    s.(isDragging := true, dragEnd := Some(p))
  }

  /** Pointer move: follow the pointer only while a drag is active. */
  function DragMoved(s: World, p: Point): (r: World)
    ensures s.isDragging ==> r == s.(dragEnd := Some(p))
    ensures !s.isDragging ==> r == s
    ensures r.isDragging == s.isDragging && r.ball == s.ball && r.walls == s.walls
    ensures r.launched == s.launched && r.recolours == s.recolours
  {
    if !s.isDragging then s else s.(dragEnd := Some(p))
  }

  /**
   * The length test of the release handler. The source computes
   * len = sqrt(dx*dx + dy*dy) and tests len > 0; since sqrt is increasing and
   * sqrt(0) = 0 that is the test below.
   */
  predicate PositiveLength(dx: real, dy: real) {
    dx * dx + dy * dy > 0.0
  }

  lemma PositiveLengthIffNonzero(dx: real, dy: real)
    ensures PositiveLength(dx, dy) <==> (dx != 0.0 || dy != 0.0)
  {
  }

  /**
   * Pointer up. The velocity is (dx/len)*len*9 with (dx, dy) the ball's
   * centre minus the end point, which over the reals is dx*9: the ball flies
   * away from the pointer, like a sling.
   */
  function DragEnded(s: World): (r: World)
    ensures !r.isDragging && r.dragEnd == None
    ensures r.launched == (s.launched || Launches(s))
    ensures Launches(s) ==>
      r.ball.vx == (s.ball.x - s.dragEnd.value.x) * SPEED_MULTIPLIER &&
      r.ball.vy == (s.ball.y - s.dragEnd.value.y) * SPEED_MULTIPLIER
    ensures !Launches(s) ==> r.ball == s.ball
    ensures r.ball.x == s.ball.x && r.ball.y == s.ball.y && r.ball.radius == s.ball.radius
    ensures r.walls == s.walls && r.recolours == s.recolours
  {
    var s' :=
      if s.isDragging && s.dragEnd.Some? then
        var dx := s.ball.x - s.dragEnd.value.x;
        var dy := s.ball.y - s.dragEnd.value.y;
        PositiveLengthIffNonzero(dx, dy);
        if PositiveLength(dx, dy) then
          s.(ball := s.ball.(vx := dx * SPEED_MULTIPLIER, vy := dy * SPEED_MULTIPLIER),
             launched := true)
        else s
      else s;
    s'.(isDragging := false, dragEnd := None)
  }

  /** The launch speed is nine times the drag length: (vx, vy) = 9 (dx, dy). */
  lemma LaunchSpeed(s: World)
    requires Launches(s)
    ensures var r := DragEnded(s);
      var dx := s.ball.x - s.dragEnd.value.x;
      var dy := s.ball.y - s.dragEnd.value.y;
      r.ball.vx * r.ball.vx + r.ball.vy * r.ball.vy
        == SPEED_MULTIPLIER * SPEED_MULTIPLIER * (dx * dx + dy * dy)
  {
  }

  /** Releasing twice launches at most once: the second release is a no-op on the ball. */
  lemma ReleaseIsIdempotent(s: World)
    ensures DragEnded(DragEnded(s)) == DragEnded(s)
  {
  }
}
