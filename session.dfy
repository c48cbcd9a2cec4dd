/**
 * A page session: the input and resize events the browser delivers between
 * frames, and the animation frames themselves (the listeners registered at
 * src/main.ts:70-77 and 124, and `loop` at src/main.ts:291-297).
 */
module Session {
  import opened Options
  import opened BallState
  import Input
  import Physics
  import Layout

  datatype Event =
    | PointerDown(p: Point)
    | PointerMove(p: Point)
    | PointerUp
    | ViewportResize(width: nat, height: nat)
    | AnimationFrame(now: real)

  /** The world plus the timestamp of the previous frame. */
  datatype Page = Page(world: World, lastTime: real)

  function Apply(pg: Page, e: Event): Page {
    match e
    case PointerDown(p) => pg.(world := Input.DragStarted(pg.world, p))
    case PointerMove(p) => pg.(world := Input.DragMoved(pg.world, p))
    case PointerUp => pg.(world := Input.DragEnded(pg.world))
    case ViewportResize(w, h) => pg.(world := Layout.Resized(pg.world, w, h))
    case AnimationFrame(now) =>
      Page(Physics.Step(pg.world, Layout.FrameDt(now, pg.lastTime)), now)
  }

  function Run(pg: Page, es: seq<Event>): Page
    decreases |es|
  {
    if es == [] then pg else Run(Apply(pg, es[0]), es[1..])
  }

  /** The page as loaded: initial state, `resize()`, then the first frame at `now`. */
  function Loaded(width: nat, height: nat, now: real): Page {
    Apply(Apply(Page(Layout.Initial(width, height), now), ViewportResize(width, height)),
          AnimationFrame(now))
  }

  lemma LoadedIsInitial(width: nat, height: nat, now: real)
    ensures Loaded(width, height, now) == Page(Layout.Initial(width, height), now)
  {
  }

  /** Every event keeps the ball inside the walls. */
  lemma {:induction false} RunKeepsBallInside(pg: Page, es: seq<Event>)
    requires Valid(pg.world)
    ensures Valid(Run(pg, es).world)
    decreases |es|
  {
    if es != [] {
      RunKeepsBallInside(Apply(pg, es[0]), es[1..]);
    }
  }

  /** Once launched, the ball stays launched: no event resets the flag. */
  lemma {:induction false} RunNeverUnlaunches(pg: Page, es: seq<Event>)
    requires pg.world.launched
    ensures Run(pg, es).world.launched
    decreases |es|
  {
    if es != [] {
      RunNeverUnlaunches(Apply(pg, es[0]), es[1..]);
    }
  }

  /** Without a resize the walls and the radius never change. */
  lemma {:induction false} WallsMoveOnlyOnResize(pg: Page, es: seq<Event>)
    requires forall i :: 0 <= i < |es| ==> !es[i].ViewportResize?
    ensures Run(pg, es).world.walls == pg.world.walls
    ensures Run(pg, es).world.ball.radius == pg.world.ball.radius
    decreases |es|
  {
    if es != [] {
      WallsMoveOnlyOnResize(Apply(pg, es[0]), es[1..]);
    }
  }

  /**
   * Before the first release nothing launches the ball: it keeps its
   * velocity, and only a resize moves it.
   */
  lemma {:induction false} IdleUntilRelease(pg: Page, es: seq<Event>)
    requires !pg.world.launched
    requires forall i :: 0 <= i < |es| ==> !es[i].PointerUp?
    ensures !Run(pg, es).world.launched
    ensures Run(pg, es).world.ball.vx == pg.world.ball.vx
    ensures Run(pg, es).world.ball.vy == pg.world.ball.vy
    ensures (forall i :: 0 <= i < |es| ==> !es[i].ViewportResize?) ==>
      Run(pg, es).world.ball == pg.world.ball
    decreases |es|
  {
    if es != [] {
      IdleUntilRelease(Apply(pg, es[0]), es[1..]);
    }
  }

  /** The number of animation frames in a trace. */
  function Frames(es: seq<Event>): nat
    decreases |es|
  {
    if es == [] then 0 else (if es[0].AnimationFrame? then 1 else 0) + Frames(es[1..])
  }

  /** Each frame re-randomises the colours at most twice. */
  lemma {:induction false} RecoloursPerFrame(pg: Page, es: seq<Event>)
    ensures pg.world.recolours <= Run(pg, es).world.recolours
    ensures Run(pg, es).world.recolours <=
      pg.world.recolours + 2 * Frames(es)
    decreases |es|
  {
    if es != [] {
      RecoloursPerFrame(Apply(pg, es[0]), es[1..]);
    }
  }
}
