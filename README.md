# Ball toy: a verified model of its simulation

The program is a browser toy: a ball sits in the middle of a square of four
walls. The player drags away from the ball and lets go, and the ball flies off
in the opposite direction, like a sling. After that it falls under gravity,
bounces off the walls at 3/4 of its speed, lands softly on the floor when it
falls slowly, and rolls to a stop under friction. Every wall hit re-randomises
the colours of the ball and the walls.

All of this lives in `src/main.ts` as module-level variables that the event
handlers and the per-frame `update` reassign. The model has two layers:

- **Pure specification** (`BallState`, `Input`, `Physics`, `Layout`,
  `Session`). A `World` value holds the ball (centre, velocity, radius), the
  walls, the drag state, the launch flag and a recolour counter. Each handler
  is a function from one `World` to the next, with contracts that state what
  it promises. `Session.Run` folds a trace of events (pointer down, move and
  up, viewport resize, animation frame) over a page. Lemmas by induction prove
  what holds along every trace.
- **Imperative model** (`Simulation.Sim`). A class whose fields are the
  program's variables. Its methods reassign the fields the way the handlers
  do. Each method is proved to produce exactly the `World` that the matching
  specification function gives.

Every number is a `real`. The square root in the release handler matters only
through its test `len > 0`, which holds exactly when `dx*dx + dy*dy > 0`.
Over the reals `(dx/len)*len*9` is `dx*9`.

The main results:

- **The ball stays inside the box.** A ball at least as narrow as the box
  ends every active frame inside it (`Physics.Step`). Along any trace of
  events, the ball is inside the walls after every event
  (`Session.RunKeepsBallInside`). `Layout.Resized` sets up that invariant.
- **Drags.** A release turns a drag into the velocity 9 × (ball centre −
  pointer). It launches the ball exactly when a live drag ends away from the
  centre (`Input.DragEnded`). Once launched, the ball stays launched
  (`Session.RunNeverUnlaunches`).
- **Collisions.** Left is tested before right, and top before bottom. Each
  collision clamps the ball to the wall and reverses its speed at 3/4. A slow
  fall onto the floor stops dead. Each of the two tests that fires recolours
  once.
- **Friction.** When a frame's friction (150·dt) is less than 4 px/s, a
  launched ball rolling on the floor and clear of the side walls stays on the
  floor, and its speed reaches exactly zero within |vx|/150 seconds plus one
  frame (`Physics.RollingFramesAreFriction`, `Physics.RollingBallStops`).
  When the friction is 4 px/s or more (dt ≥ 2/75 s, which is below the
  0.033 s cap), speeds between 2 px/s and 150·dt − 2 px/s flip sign every
  frame forever (`Physics.FrictionTwoCycle`). `Physics.JitterNeverSettles`
  shows a concrete ball on the floor that jitters left and right forever and
  never settles.

Three facts about the code are worth stating plainly:

- The launch velocity is exactly 9 × (centre − pointer). The unit vector is
  multiplied by the length again, so the speed is linear in the drag length
  (`Input.LaunchSpeed`).
- The ball flies away from the pointer, as the comment at src/main.ts:51 says
  (`Input.DragEnded`).
- Friction subtracts a fixed 150·dt, so it overshoots zero whenever that is
  more than the speed (`Physics.FrictionVx`). With long frames the speed
  oscillates without ever reaching zero (`Physics.FrictionTwoCycle`,
  `Physics.JitterNeverSettles`).

## Model

| member | source | states |
|---|---|---|
| Input.DragStarted | src/main.ts:39-42 | pressing starts a drag at the pointer; ball, walls, launch flag and colours are untouched |
| Input.DragMoved | src/main.ts:44-47 | moving updates the drag end point only while a drag is active; otherwise nothing changes |
| Input.DragEnded | src/main.ts:49-65 | releasing always clears the drag; the ball becomes launched iff it already was or a live drag ends away from its centre, and then its velocity is 9 × (centre − end point); otherwise the ball is unchanged; position, radius and walls are never touched |
| Input.PositiveLengthIffNonzero | src/main.ts:54-55 | the test `len > 0` holds exactly when the drag vector is not zero |
| Input.LaunchSpeed | src/main.ts:52-59 | the squared launch speed is 81 × the squared drag length, so the speed is 9 × the drag length |
| Input.ReleaseIsIdempotent | src/main.ts:49-65 | a second release right after the first changes nothing |
| Physics.Integrate | src/main.ts:130-132 | gravity adds 980·dt to vy first; x moves by the old vx·dt and y by the new vy·dt; vx and the radius are unchanged |
| Physics.CollideHorizontal | src/main.ts:135-145 | the ball changes iff it overlaps a side wall; left is tested first; a hit puts the ball against that wall with vx reversed at 3/4; a ball that fits the box ends between the side walls |
| Physics.CollideVertical | src/main.ts:146-164 | the ball changes iff it overlaps the top or the floor; a top hit or fast floor hit clamps it and reverses vy at 3/4; a soft landing clamps it to the floor with vy = 0; a ball that fits ends between top and floor |
| Physics.FrictionVx | src/main.ts:170-176 | below 2 px/s the speed snaps to 0; if a frame's friction is no more than the speed, it takes that much off without crossing zero; if it is more, the speed crosses zero to 150·dt − \|vx\| |
| Physics.ApplyFriction | src/main.ts:165-177 | only a ball resting on the floor (within 2.5 px, \|vy\| < 5) is slowed, and only vx changes |
| Physics.Step | src/main.ts:128-181 | a frame does nothing unless launched and not dragging; it never changes walls, radius, drag or launch flag; a ball that fits the box ends inside it; the invariant is kept; 0 to 2 recolours |
| Physics.CornerPrefersLeft | src/main.ts:135-145 | a ball overlapping both side walls is pushed against the left wall only |
| Physics.SoftLandingCondition | src/main.ts:146-153 | the soft landing fires exactly for a ball clear of the top that overlaps the floor while falling slower than 30 px/s |
| Physics.FloorContact | src/main.ts:151-163 | a floor hit puts the ball on the floor and recolours; a soft landing leaves vy = 0, a bounce leaves vy = −3/4 of the post-gravity vy |
| Physics.FrictionOnlyOnFloor | src/main.ts:165-177 | if a frame's friction changed vx, the ball was resting on the floor |
| Physics.Falls | src/main.ts:130-132 | a ball that is not moving up ends a frame of gravity lower and falling |
| Physics.RestingFrameIsFriction | src/main.ts:128-177 | a ball on the floor, clear of the side walls, with frames short enough to land softly: a frame moves it by vx·dt, keeps it on the floor with vy = 0, recolours once, and applies one frame of friction |
| Physics.StoppedStaysStopped | src/main.ts:172-173 | friction keeps a stopped ball stopped |
| Physics.FrictionStops | src/main.ts:170-176 | if 0 < 150·dt < 4, friction brings any vx to exactly 0 within \|vx\|/150 seconds plus one frame |
| Physics.FrictionTwoCycle | src/main.ts:170-176 | if 2 ≤ \|vx\| ≤ 150·dt − 2, friction flips the sign of vx and two frames give back vx: it never reaches 0 |
| Physics.JitterNeverSettles | src/main.ts:128-177 | a ball on the floor at 2.25 px/s with 30 ms frames comes back to the same state after two frames |
| Physics.RollingFramesAreFriction | src/main.ts:128-177 | over n frames in which a launched ball on the floor, landing softly, stays clear of the side walls, it stays on the floor with vy = 0 and its vx is n frames of friction |
| Physics.RollingBallStops | src/main.ts:128-177 | such a ball, with 150·dt < 4, comes to exactly vx = 0 within \|vx\|/150 seconds plus one frame |
| Layout.Resized | src/main.ts:110-122 | resizing centres the ball in the viewport with radius 5% of the shorter side, and centres a square box 10 radii wide on it; the invariant holds; velocity, drag and launch state are kept |
| Layout.Initial | src/main.ts:88-108 | the loaded state satisfies the invariant, with the ball at rest, not launched and no drag |
| Layout.ResizeAtLoadIsNoOp | src/main.ts:300 | the `resize()` call at start-up leaves the loaded state unchanged |
| Layout.ResizeIdempotent | src/main.ts:110-122 | resizing twice to the same size is the same as resizing once |
| Layout.FrameDt | src/main.ts:292 | the frame length is the elapsed time in seconds capped at 0.033, and never more than the elapsed time |
| Session.LoadedIsInitial | src/main.ts:300-301 | start-up's resize and first frame leave the initial state unchanged |
| Session.RunKeepsBallInside | src/main.ts:39-181 | along any trace of events, a ball inside the walls stays inside |
| Session.RunNeverUnlaunches | src/main.ts:49-68 | along any trace of events, once launched the ball stays launched |
| Session.WallsMoveOnlyOnResize | src/main.ts:110-122 | along a trace without resizes, the walls and the radius never change |
| Session.IdleUntilRelease | src/main.ts:128-129 | until a release, a ball that was not launched stays unlaunched and keeps its velocity; without resizes it does not move at all |
| Session.RecoloursPerFrame | src/main.ts:135-163 | along any trace, the colours change at most twice per animation frame and never otherwise |
| Simulation.Sim.constructor | src/main.ts:88-108 | the module-level initialisers produce the initial state |
| Simulation.Sim.HandleDragStart | src/main.ts:39-42 | in place, the state becomes the one `Input.DragStarted` gives |
| Simulation.Sim.HandleDragMove | src/main.ts:44-47 | in place, the state becomes the one `Input.DragMoved` gives |
| Simulation.Sim.HandleDragEnd | src/main.ts:49-65 | in place, the state becomes the one `Input.DragEnded` gives; the launch flag is never reset |
| Simulation.Sim.Resize | src/main.ts:110-122 | in place, the state becomes the one `Layout.Resized` gives, so the invariant holds afterwards |
| Simulation.Sim.CollideSideWalls | src/main.ts:135-145 | in place, the ball becomes the one `Physics.CollideHorizontal` gives, with one recolour per hit |
| Simulation.Sim.CollideFloorAndCeiling | src/main.ts:146-164 | in place, the ball becomes the one `Physics.CollideVertical` gives, with one recolour per hit |
| Simulation.Sim.RollOnFloor | src/main.ts:165-177 | in place, the ball becomes the one `Physics.ApplyFriction` gives |
| Simulation.Sim.Update | src/main.ts:128-181 | in place, the state becomes the one `Physics.Step` gives, and the invariant is kept |
| Simulation.Sim.Loop | src/main.ts:291-297 | records the clock reading and runs `update` with the capped frame length |

## Left out

- Canvas creation and styling, and the canvas size assignments (src/main.ts:6-18, 111-112): host I/O. Only the viewport size used in the geometry is modelled.
- `getPointerPosition` (src/main.ts:22-37): it reads DOM event objects and the canvas's bounding box. The handlers take the pointer position, already relative to the canvas, as a parameter.
- Event listener registration (src/main.ts:69-77, 124): host wiring. `Session.Event` models the events they deliver.
- `randomBrightColor` (src/main.ts:95-99): it uses `Math.random` and string formatting. Each call pair (ball and wall colour) is one tick of `recolours`.
- `draw`, `drawDashedLineOpposite`, `drawArrow` and `wallThickness` (src/main.ts:104, 183-289): rendering only.
- `requestAnimationFrame` and `performance.now()` (src/main.ts:126, 296): host timing. Clock readings are parameters (`now`).
- IEEE-754 rounding, NaN and infinities: every quantity is a `real`. `Math.sqrt` appears only through its zero test.
- Input.DragEnded: the velocity is `dx * 9` rather than `(dx/len)*len*9`. These are equal over the reals. The last-bit rounding that floating point adds is not modelled.
- Physics.FrictionVx: `Math.sign` is modelled on numbers that are not NaN (it gives −1, 0 or 1).
