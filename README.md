# Flappy Bird game core in Dafny

This project models the single-bird Flappy Bird game loop: the bird's capped-gravity physics and latched flap, the queue of pipe pairs with its spawn countdown, the per-frame move, "passed" marking and head retirement, the collision test against the ground and the head pair, and the edge-triggered score with its `passed_pipe` latch.

Layout:

- `geometry.dfy` (module `Geometry`): integer rectangles and `Overlaps`, the positive-area overlap test that stands for pygame's `Rect.colliderect`.
- `settings.dfy` (module `Settings`): `Config`, the fixed parameters the game reads (screen size, speed, pipe width, bird geometry, gravity step and cap, spawn-distance range, the ground rectangle).
- `birds.dfy` (module `Birds`): bird.py. `BirdState` is the bird's fields as a value and `AfterUpdate`, `AfterFlap` and `AfterReset` are its step functions. The class `Bird` has the same fields, and its methods are proved to change them exactly as those functions say.
- `game.dfy` (module `Game`): game.py. `GameState` holds the game's fields as a value, with `Stepped` for one frame and `Run` for a sequence of frames. The class `FlappyBirdGame` keeps the pipe deque as a `seq<Pipe>` field and the bird as a `Bird` object. `MovePipes` is the in-place loop over the queue.

The outside world enters through a `Frame`: the number of flap key presses in the frame; for a spawn, the new pair and the distance drawn for the next pipe.

Facts about the code that the model keeps:

- A pair is removed when `x + pipe_width <= 0` (game.py:125).
- Scoring reads `pipes[0].passed` through the `passed_pipe` latch (game.py:183-188).
  - A pair that is already passed when it becomes the head, while the latch is still set by the head before it, is never counted (`Game.PassedSuccessorNotCounted`).
  - This happens only when the gap between spawns is small next to `bird_x`.
- Collision and scoring read `pipes[0]` even when it is already passed (game.py:163-164, 183).
- The key handler clears the flap latch after every press (game.py:76-77).
- Positions and velocities are integers.

## Model

| member | source | states |
|---|---|---|
| `Geometry.OverlapsIffCommonCell` | bird.py:56-59 | the collision test is true exactly when some unit cell lies inside both rectangles (positive-area overlap) |
| `Geometry.OverlapsSymmetric` | bird.py:59 | overlap does not depend on argument order |
| `Geometry.TouchingEdgesDoNotOverlap` | bird.py:59 | rectangles that only share a horizontal edge do not collide |
| `Birds.UpdateAppliesOldVelocity` | bird.py:35-42 | `update` moves `y` by the velocity held before the call; the new velocity is the old plus `gravity_step`, or the cap, and never above the cap |
| `Birds.UpdateShapeLagsOneFrame` | bird.py:30-33 | `update` builds the hitbox at the pre-move `y`, left edge `bird_x`, size `bird_width` x `bird_height`; collision then sees that older box |
| `Birds.CollidedIgnoresPosition` | bird.py:56-59 | `collided` depends only on the stored hitbox, not on the current `y` or velocity |
| `Birds.UpdateVelocityNonDecreasing` | bird.py:39-42 | with gravity step >= 0 and velocity within the cap, an update never lowers the velocity |
| `Birds.FallVelocity` | bird.py:27-42 | after n updates without a flap the velocity is min(v + n*gravity_step, cap): non-decreasing and capped, latch and death flag untouched |
| `Birds.FlapGate` | bird.py:62-72 | a flap fires iff the latch is clear and `y > 0` (not `reached_ceil`), setting the latch and velocity `-gravity_max_velocity`; otherwise nothing changes |
| `Birds.FlapLatched` | bird.py:67-72 | a second flap straight after the first is a no-op |
| `Birds.ResetKeepsPosition` | bird.py:21-24 | `reset` clears latch, death flag and velocity and keeps `y` and the hitbox |
| `Birds.ConstructorAsWrittenRaises` | bird.py:9-18 | as written, the constructor's first `update` reads `y_velocity` before anything has assigned it, so construction raises |
| `Birds.Bird.constructor` | bird.py:9-18 | the bird starts at `height // 2`, at rest, latch and death flag clear, hitbox at that height |
| `Birds.Bird.Reset` | bird.py:21-24 | the object's fields after `reset` |
| `Birds.Bird.Update` | bird.py:27-42 | the object's fields after `update`; velocity within the cap |
| `Birds.Bird.Flap` | bird.py:67-72 | the object's fields after `flap`; unchanged when latched or at the ceiling |
| `Game.AdvancedAll` | game.py:113-122 | the pipe loop keeps the queue's length and order and applies the per-pair move to each element |
| `Game.GeneratedAppendsOne` | game.py:80-92 | the generator appends exactly one pair at the tail, leaves the queued pairs as they were, and sets `next_pipe_x` within `[width + lo, width + hi]` |
| `Game.SpawnIffDue` | game.py:100-106 | the countdown drops by `speed`; exactly one pair is appended (old queue kept as prefix) iff the lowered value is `<= width`, and none otherwise; on a spawn the countdown restarts in range and the new pair ends at the tail |
| `Game.PipesUpdatedLength` | game.py:101-126 | the queue grows by one on a spawn and shrinks by one on a head retirement, so its length changes by at most one at each end |
| `Game.PipesUpdatedShift` | game.py:113-126 | every surviving pair keeps its order and moves by exactly `-speed`; `passed` afterwards iff it was passed or its right edge is now `<= bird_x`; its rectangles lag one frame, at the pre-move x; only the head is retired, and only when off screen |
| `Game.PipesUpdatedKeepsOrder` | game.py:113-126 | a queue ordered by x stays ordered, given a spawned pair not left of the tail |
| `Game.KeyPressedEffect` | game.py:74-77 | one key press flaps and then clears the latch; it never moves the bird or its hitbox |
| `Game.KeyPressesCollapse` | game.py:69-77 | several presses in one frame act like one (from a clear latch) |
| `Game.KeyPressesKeepPosition` | game.py:69-77 | presses keep position, hitbox and death flag, and leave the latch clear |
| `Game.CollisionSeesOnlyHead` | game.py:159-166 | `bird_collided` reads only the ground and the head pair's two rectangles |
| `Game.StepScore` | game.py:183-188 | a step raises the score by one iff the head is passed and the latch is clear, never lowers it, and leaves the latch equal to the head's `passed` |
| `Game.PassedSuccessorNotCounted` | game.py:183-188 | a pair already passed when it becomes the head under a set latch is not counted by the following step either |
| `Game.StepGameOver` | game.py:179-181 | `game_over` after a step is the old flag or a collision of the stored hitbox; a collision marks the bird dead; the flag is never cleared |
| `Game.StepBird` | game.py:152-156 | after a step the velocity is within the cap, the hitbox sits at the pre-step height, and the latch stays clear |
| `Game.RunScoreBounds` | game.py:169-194 | over n frames the score rises by between 0 and n |
| `Game.RunGameOverSticky` | game.py:179-181 | once set, `game_over` stays set for any run; only reset clears it |
| `Game.PassedStreakScoresOnce` | game.py:183-188 | while the head stays passed frame after frame, the score rises at most once, and not at all if the latch was already set |
| `Game.FlappyBirdGame.constructor` | game.py:32-37 | a new game is in the reset state |
| `Game.FlappyBirdGame.Reset` | game.py:51-61 | score 0, no game over, latch clear, exactly one pair, `next_pipe_x == width + lo`, a new bird |
| `Game.FlappyBirdGame.CheckEvents` | game.py:74-77 | each key press does a flap and then clears the latch |
| `Game.FlappyBirdGame.GeneratePipes` | game.py:80-92 | appends the pair and sets the countdown in `[width + lo, width + hi]`, changing nothing else |
| `Game.FlappyBirdGame.MovePipes` | game.py:113-122 | the in-place loop leaves the queue equal to `AdvancedAll` of the old queue |
| `Game.FlappyBirdGame.UpdatePipes` | game.py:95-126 | the countdown and the queue change as `PipesUpdated` says, touching no other field |
| `Game.FlappyBirdGame.Update` | game.py:152-156 | bird physics, then the pipe update |
| `Game.FlappyBirdGame.Step` | game.py:169-194 | input, collision, score, update, in that order, as `Stepped` says |

## Findings

| source | as written | input that shows it | evidently intended | confidence | as-written member | corrected member |
|---|---|---|---|---|---|---|
| bird.py:9-18 | `__init__` calls `update()` before `reset()`. `update` reads `self.y_velocity`, which nothing has assigned yet when `__init__` calls `update`. | Any construction `Bird()` raises `AttributeError` at bird.py:36. | The bird starts at `height // 2`, at rest, with its hitbox there. | high; not executed | `Birds.ConstructorAsWrittenRaises` | `Birds.Bird.constructor` |

The corrected constructor sets the velocity to 0 before its first `update`. The game's `reset` uses this corrected constructor.

## Left out

- Rendering, window and clock: `init_render`, `update_text`, `update_screen`, every `draw`, and the `main` functions. These are pygame I/O.
- The event pump: only `K_UP` key-downs are modelled, as a press count per frame. The quit event exits the process and is not modelled.
- `pg.Rect.colliderect` is a library call. It is modelled by `Geometry.Overlaps`, which has its behaviour for empty and negative-size rectangles.
- `random.seed` and `random.randint`: the drawn distance is an input, limited to the closed configured range whenever a spawn happens.
- `PipesPair` is not part of this model: it is imported but defined in no file.
  - A new pair, with its x and rectangles, is an input.
  - Its `update` is modelled as moving both rectangles to the pair's x and keeping their size and vertical placement.
  - The gap geometry is not modelled.
- Game.PipesUpdatedKeepsOrder: needs the spawned pair to be no further left than the tail, because the spawn x is set inside `PipesPair`.
- Game.FlappyBirdGame.Step: requires a non-empty queue, because the source indexes `pipes[0]` unguarded and raises `IndexError` on an empty deque. Whether the deque can empty depends on two things the model does not fix. One is `PipesPair`'s spawn position. The other is the configuration: a drawn distance larger than about `width + pipe_width` lets the only pair retire before the next spawn.
- Game.DistanceOk: the configured distance range is assumed non-empty (`lo <= hi`). With `lo > hi`, `random.randint` raises `ValueError` on a spawn frame, and no distance satisfies `DistanceOk` there, so the model does not reach that error.
- Pipe pairs are values in a sequence, not objects. Nothing else refers to a pair, so there is no aliasing to capture.
- Configuration: config.py does not define the `config` object that game.py and bird.py import. Of the fields they read, it has only `Dimensions`, `BG_COLOR` and `fps`, on the class `FlappyBirdConfig`. Every setting is a field of `Settings.Config`. The ground is taken as its constant rectangle.
- Floating point: `y_velocity` is annotated `float`, and pygame truncates rectangle coordinates. Positions and velocities are integers here.
- neural_net.py (a docstring only), player.py (an older bird without physics), main.py and flappy_bird.py (stubs) are not modelled.
