# Pong: the per-frame game logic of `Game`

This project models the simulation core of a small SDL Pong game: the `Game`
class of `Game.cpp`. Each frame, the game samples input. A quit event or Escape
ends the game, W/S steer the left paddle and I/K steer the right one. Then it
runs one update:

- It waits for at least 16 ms and derives a time step capped at 0.05 s.
- It moves each steered paddle and clamps it to the field.
- It moves the ball by its velocity.
- It runs the collision cascade twice, first against the left paddle and then
  against the right one. The cascade is: paddle hit, else the ball leaving the
  field on the left (game over), else the far wall. Then, independently, the
  top wall or the bottom wall.

Two modules:

- `PongRules` (PongRules.dfy) holds the constants, the `GameState` value (the
  fields the frame logic touches) and the rules as functions. These are
  `Initialized`, `Input`, `DeltaTime`, `MovePaddle`, `Cascade`, `Collide`, `Step`,
  and `Play` for a run of frames. It also holds the lemmas about them.
- `PongGame` (PongGame.dfy) holds the class `Game`. Its fields are updated in
  place by the constructor, `Initialize`, `ProcessInput`, `UpdateGame` and
  `RunLoop`. The constructor's contract fixes the tick count (0), the running
  flag (true), both paddle directions (0) and the mode flag. `Initialize`,
  `ProcessInput`, `UpdateGame` and `RunLoop` are proved to leave `State()`
  equal to `Initialized`, `Input`, `Step` and `Play` of the old state.
  The helpers `MoveBall`, `Bounce` and `PaddleStep` are the step-by-step
  forms of `Advance`, `Cascade` and `MovePaddle`, and are proved equal to them.

Constants follow `Game.cpp`: thickness 15, paddle height 100, paddle speed 300.
The field is 1024 by 768. The source calls the 1024 extent `window_height` and
the 768 extent `window_width`, but it uses 1024 along x and 768 along y. The
model follows that use:

- the far wall's inner face is at x = 1009;
- the bottom wall's inner face is at y = 753;
- paddle centres are clamped to [65, 703].

Floats are modelled as `real`. The clock is a parameter: `UpdateGame(now)`
takes one clock reading in milliseconds and requires `now >= ticksCount + 16`.
That precondition stands for the busy wait. In a run of frames (`Play`,
`RunLoop`), each frame carries the length of its wait, which is at least 16 ms.
The platform's event queue and keyboard state are parameters of
`ProcessInput`: a sequence of events and the five sampled keys.

Behaviour of the code worth noting:

- `GenerateOutput` draws the far wall only in single-player mode
  (Game.cpp:326-334), but `UpdateGame` bounces the ball off it in both modes
  (Game.cpp:238, 274; `StepIgnoresMode`).
- Paddle directions are not clamped or checked when a paddle moves. Any
  non-zero direction moves the paddle by direction × speed × time and is then
  clamped.
- The right paddle's hit test uses the same x band [20, 25] and the same
  "moving left" condition as the left paddle's. So the right paddle can return
  a ball on the left side of the field (`RightPaddleReturnsBallOnLeftSide`), and
  it never acts anywhere else (`RightPaddleActsOnlyInHitBand`).
- The duplicated cascade is kept exactly as written. `Collide` proves that the
  two passes equal one pass in which either paddle may return the ball. Each
  velocity component is reversed at most once per frame.

## Model

| member | source | states |
|---|---|---|
| `PongRules.Initialized` | Game.cpp:69-79 | Both paddles start inside the clamp range at the same height as the ball. The left paddle is at x = 0 and the right one at x = 1009. The ball is strictly inside the walls and moves left and down. Every other field is unchanged, and the invariant holds when the directions are valid. |
| `PongRules.Direction` | Game.cpp:117-137 | The direction is -1, 0 or 1. It is -1 exactly when only "up" is held, +1 exactly when only "down" is held, and 0 when both or neither are held. |
| `PongRules.Input` | Game.cpp:95-140 | The game keeps running only if it was running, no quit event is queued and Escape is not held, so input never sets the flag to true. W/S set the left direction and I/K the right one, as in `Direction`. Nothing else changes. |
| `PongRules.DeltaTime` | Game.cpp:148-156 | The step is the elapsed time in seconds, capped at 0.05. It is exactly 0.05 whenever the elapsed time exceeds 0.05. Given the 16 ms wait, it lies in [0.016, 0.05]. |
| `PongRules.MovePaddle` | Game.cpp:161-195 | A paddle with direction 0 keeps its y. Otherwise it ends inside [65, 703]: at its unclamped target when that is in range, else at the bound it overshot. From inside the range with a non-negative step, it moves in its direction. |
| `PongRules.Cascade` | Game.cpp:205-253 | One pass only reverses signs: the magnitudes of vx and vy are kept. The game stops exactly when the ball's x is ≤ 0. A paddle hit sends the ball right. vx changes only on a paddle hit or a far-wall hit. A ball at or beyond x = 1009 ends with vx ≤ 0. vy changes exactly on a top-wall or bottom-wall hit, after which it points back into the field. |
| `PongRules.Collide` | Game.cpp:205-289 | The two passes reverse vx exactly when the left paddle, the right paddle (tested in the same x band) or the far wall is hit. They reverse vy exactly when a top or bottom wall is hit. So no component is reversed twice. Running becomes running ∧ x > 0. Speeds are kept, and wall and paddle hits leave the velocity pointing back into the field. |
| `PongRules.Step` | Game.cpp:142-294 | The tick count becomes the clock reading. The mode flag, the directions and both paddles' x are unchanged. The ball's speed along each axis is kept. An update never sets the running flag to true. If both paddles are inside [65, 703] and the directions are -1, 0 or 1 before the update, they still are after it. |
| `PongRules.StepProperties` | Game.cpp:142-294 | A paddle at rest keeps its y, and a steered paddle ends in range. The ball moves to old position + old velocity × step. Running becomes old running ∧ new x > 0. A paddle hit (left or right) reverses vx so that it points right. A ball at the top has vy ≥ 0, at the bottom vy ≤ 0, and at the far wall vx ≤ 0. |
| `PongRules.StepIgnoresMode` | Game.cpp:237-241 | The multiplayer flag has no influence on an update, so the far wall bounces the ball in both modes. |
| `PongRules.RightPaddleActsOnlyInHitBand` | Game.cpp:256-267 | Outside the x band [20, 25], the right paddle's height does not change the collision outcome. |
| `PongRules.RightPaddleReturnsBallOnLeftSide` | Game.cpp:256-267 | A ball at (22, 700) moving left is returned by the right paddle at y = 703, although the left paddle is at y = 65. |
| `PongRules.Play` | Game.cpp:85-93 | A run of frames (input, then update, while running) keeps the invariant. It never restarts a stopped game, leaves a stopped game untouched, and keeps the mode and the paddles' x. The ticks never decrease and the ball's speed along each axis is kept. |
| `PongRules.PlayConcat` | Game.cpp:85-93 | Running the loop over two runs of frames in sequence equals running it over their concatenation. |
| `PongRules.StartedGameKeepsInvariant` | Game.cpp:17-27 | From the constructor's resting directions and the `Initialize` placement, every run of frames keeps both paddles in range, with ball speeds 200 along x and 235 along y. |
| `PongGame.Game.constructor` | Game.cpp:17-27 | A new game has tick count 0, is running, has both directions 0 and stores the mode flag. |
| `PongGame.Game.Initialize` | Game.cpp:69-79 | The fields become `Initialized` of the old fields. |
| `PongGame.Game.RunLoop` | Game.cpp:85-93 | The fields become `Play` of the old fields over the given frames. The loop samples input and then updates, for as long as the game runs. |
| `PongGame.Game.ProcessInput` | Game.cpp:95-140 | The event queue is drained and the keys are then read. The fields become `Input` of the old fields. |
| `PongGame.Game.UpdateGame` | Game.cpp:142-294 | Given a clock reading at least 16 ms after the last one, the fields become `Step` of the old fields. |
| `PongGame.Game.MoveBall` | Game.cpp:198-200 | The ball's position moves by its velocity times the step. Nothing else changes. |
| `PongGame.Game.Bounce` | Game.cpp:205-253 | The ball's velocity and the running flag become those of one `Cascade` pass against the given paddle height. |
| `PongGame.PaddleStep` | Game.cpp:161-176 | The step-by-step move-then-clamp gives exactly `MovePaddle`. |

## Left out

- The SDL set-up in `Initialize` (subsystem, window and renderer creation) and its three failure returns are left out. So is `Shutdown`. These are calls into the platform with no state the game logic reads. `Initialize` is modelled from the point where it places the paddles and the ball.
- `GenerateOutput` is left out. It only issues drawing calls, and rendering is not part of this model.
- The busy wait on the clock is left out. It becomes the precondition `now >= ticksCount + 16` on a single clock reading, or a frame wait of at least 16 ms in `Play`. The source reads the clock three times per update, and uses `SDL_TICKS_PASSED` for 32-bit wrap-around. The model reads the clock once, and ticks are unbounded naturals.
- `RunLoop` is unbounded and driven by the platform. It is modelled only over a finite sequence of frames.
- Single-precision float rounding is left out: positions, velocities and the time step are exact reals.
- Event types other than a quit request are left out, since the source ignores them.
- The constructor does not model paddle positions, ball position or ball velocity. The C++ constructor leaves them unset until `Initialize`, so its contract says nothing about them.
- Game.h is not part of this model beyond the shape of `Vector2`. Its field list (`mPaddleDir`, `mPaddlePos`) differs from the fields `Game.cpp` uses, and the model follows `Game.cpp`.
