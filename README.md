# Dodge game core in Dafny

A model of the game loop of a browser dodge game (`script.js`). The player
moves left and right along the bottom of a canvas and avoids obstacles that
fall from the top. Obstacles are placed so that they never overlap each other.
A shield ability makes the player immune to hits for a while and then goes on
cooldown. Difficulty ramps up with wall-clock time once the score passes 100.
A hit with the shield down ends the game and records a new high score.

The model has two layers:

- **Values and functions.** A value-level specification of every operation:
  - `Geometry`: rectangles and the strict overlap test.
  - `Obstacles`: the falling-and-pruning pass `Advance` and the placement `FirstFit`.
  - `Shield`: the shield's counter machine `Step`.
  - `Motion`: the player's guarded steps `Moved`.
  - `Ramping`: the difficulty ramp `Ramp`.
  - `Loop`: the whole state as a `State` value, one tick as `Next`, a restart as `Reset`, and any run of ticks and restarts as `Play`.

  The lemmas state what the game promises about these functions.
- **The imperative game (`Dodge.Game`).** A class whose fields are the
  script's module-level globals. Its methods update those fields in place,
  as the script's functions do. Each method is proved to change the object
  exactly as the matching function of `Loop` says, through `Snapshot()`.
  Each method may write only the fields that the corresponding script
  function assigns.

Inputs from outside are parameters:

- the arrow and `a` key flags;
- the clock (`Date.now()`, in milliseconds);
- the random draws: the player's speed draw, the per-tick spawn roll, and
  the x-position draws that `createObstacle` would make in turn.

These are bundled per tick in `Loop.Tick`. The persisted high score is the
ghost field `storedHighScore`.

Where the game's written specification and the code disagree, the model
follows the code:

- **Restart ends with a tick.** `resetGame` ends by calling `update()`. So
  after a restart the score is 1, not 0, and the player may already have
  moved (`Loop.ResetState`).
- **Two difficulty presets.** The restart difficulty (speed 3, frequency
  0.02) differs from the page-load difficulty (speed 4, frequency 0.03).
- **The shield's cooldown starts when the shield is raised, not when it
  drops.** While the shield is up, duration + cooldown == 600, so both
  counters are nonzero at once. The shield drops on the 121st call with 479
  ticks of cooldown left (`Shield.StepExpiry`). It can be raised again on the
  600th call after raising (`Shield.Timeline`).
- **The player can leave the canvas.** The movement guards test the position
  before the step, so the player can end up outside the canvas
  (`Motion.LeftStepCanOvershoot`).

## Model

| member | source | states |
|---|---|---|
| Geometry.OverlapsSymmetric | script.js:108-120 | the strict overlap test gives the same answer with its two boxes swapped |
| Geometry.TouchingDoesNotOverlap | script.js:110-115 | boxes that only share an edge do not overlap (all four comparisons are strict) |
| Geometry.OverlapsIffCommonPoint | script.js:110-115 | for boxes of positive size, the test holds exactly when the boxes share an interior point |
| Geometry.LowerKeepsOverlap | script.js:139-149 | lowering two boxes by the same amount does not change whether they overlap |
| Geometry.AppendKeepsDisjoint | script.js:123-136 | appending a box that overlaps no member of a pairwise-disjoint list keeps it pairwise disjoint |
| Obstacles.Advance | script.js:139-149 | the falling pass never lengthens the list |
| Obstacles.AdvanceMembership | script.js:139-149 | an obstacle survives the pass exactly when it is an old obstacle lowered once by the speed whose new y is not below the canvas height |
| Obstacles.AdvanceAppend | script.js:139-149 | the pass works piecewise, so survivors keep their relative order |
| Obstacles.AdvanceWhenNoneFalls | script.js:139-149 | when no obstacle falls off, each one is lowered exactly once and none is lost or reordered |
| Obstacles.AdvanceKeepsDisjoint | script.js:139-149 | the pass keeps the obstacles pairwise non-overlapping |
| Obstacles.FirstFit | script.js:123-136 | the placed obstacle has the current width and height and y = -height; it overlaps no existing obstacle; it is the candidate of the first draw whose candidate overlaps nothing; nothing is placed exactly when every draw's candidate overlaps |
| Obstacles.FirstFitKeepsDisjoint | script.js:123-136 | placing an obstacle keeps the list pairwise non-overlapping |
| Shield.InitialInv | script.js:66-68 | the initial shield state and the state right after raising satisfy the counter invariant |
| Shield.StepKeepsInv | script.js:215-233 | one call keeps the invariant: while the shield is up, duration + cooldown == 600 and duration <= 120; while down, duration == 0; 0 <= cooldown <= 600 |
| Shield.RunKeepsInv | script.js:215-233 | any run of calls keeps the counter invariant |
| Shield.StepRaisesOnlyWhenReady | script.js:224-232 | a call raises the shield exactly when the key is held, the shield was down and at most one cooldown tick was left; raising gives duration 0 and cooldown 600 |
| Shield.StepExpiry | script.js:216-226 | the call that drops the shield leaves duration 0 and 479 cooldown ticks |
| Shield.Timeline | script.js:215-233 | after raising, whatever the key does: up with duration n for n <= 120 calls, down from call 121, not raisable before call 600, and on call 600 raised again exactly when the key is held |
| Motion.MovedFrame | script.js:98-105 | only x changes, by -speed, 0 or +speed; with no key held the player does not move |
| Motion.MovedLeftOnly | script.js:99-101 | with only the left key held, the step is taken exactly when x > 0 |
| Motion.MovedRightOnly | script.js:102-104 | with only the right key held, the step is taken exactly when the right edge is left of the canvas width |
| Motion.RightGuardSeesLeftStep | script.js:98-105 | the right guard reads x after the left step: both steps can happen in one call |
| Motion.LeftStepCanOvershoot | script.js:99-101 | a left step from x = 1 at speed 5 ends at x = -4, so the guard does not keep the player on the canvas |
| Ramping.RampMonotone | script.js:236-252 | the four difficulty parameters never decrease, and the player's speed never increases unless it is raised to the floor of 2 |
| Ramping.RampKeepsPlayerSpeed | script.js:249 | a player speed of at least 2 stays at least 2 and does not increase |
| Ramping.RampGate | script.js:237-251 | within 5000 ms of the last check nothing changes; after that the clock reference moves to now; the parameters change exactly when score > 100, and then each strictly increases |
| Loop.SpeedFromDraw | script.js:41 | a draw in [0, 1) gives a player speed in [5, 12) |
| Loop.InitialGood | script.js:36-68 | the page-load state has a consistent shield, disjoint obstacles and a player speed of at least 2 |
| Loop.AfterFallGood | script.js:139-149 | the falling pass keeps the state good |
| Loop.AfterRampGood | script.js:236-252 | the ramp keeps the state good |
| Loop.AfterShieldGood | script.js:215-233 | the shield step keeps the state good |
| Loop.AfterSpawnGood | script.js:285-288 | the spawn roll and placement keep the state good |
| Loop.NextGood | script.js:255-294 | every tick keeps the obstacles pairwise disjoint, the shield counters consistent and the player's speed at least 2 |
| Loop.NextScore | script.js:255-291 | a finished game does not change; a running game gains exactly one point, even on the tick that ends it |
| Loop.NextGameOver | script.js:152-174 | a running game ends exactly when the shield was down and the moved player overlaps an obstacle after the fall |
| Loop.NextHighScore | script.js:166-169 | the high score changes only on the tick that ends the game, becoming the larger of itself and the score; it never decreases |
| Loop.NextObstacles | script.js:255-294 | after a tick the obstacles are the fallen survivors, in order, followed by at most one new obstacle |
| Loop.NextDifficultyMonotone | script.js:255-294 | no tick lowers a difficulty parameter |
| Loop.ResetState | script.js:297-313 | after a restart the game runs with score 1, the restart difficulty (3, 0.02, 50, 50), at most one obstacle, the shield as one call leaves an idle one, the player re-centred with a fresh speed and moved once, and the high score kept |
| Loop.ResetGood | script.js:297-313 | a restart leaves a good state |
| Loop.PlayKeepsHighScoreAndGood | script.js:77-84 | over any run of ticks and Enter presses, the high score never decreases and the state stays good |
| Loop.FramesScore | script.js:255-293 | over a run of ticks, the score gains one point per tick while the game runs and is frozen once it ends; a finished game stays unchanged |
| Dodge.Game.constructor | script.js:36-68 | the page-load globals: player at a third of the width, 100 above the bottom, 70x60 with a drawn speed; no obstacles; difficulty (4, 0.03, 50, 50); score 0; the stored high score; the clock reference; the shield idle |
| Dodge.Game.MovePlayer | script.js:98-105 | changes only the player, by the guarded left step followed by the right step guarded on the updated x |
| Dodge.Game.CollidesWithExisting | script.js:108-120 | returns true exactly when some existing obstacle overlaps the candidate |
| Dodge.Game.CreateObstacle | script.js:123-136 | appends exactly the first candidate that overlaps nothing and reports it; leaves the list unchanged when every draw is rejected |
| Dodge.Game.MoveObstacles | script.js:139-149 | the index-stepping in-place splice leaves exactly the fallen survivors, in order |
| Dodge.Game.DetectCollision | script.js:152-174 | with the shield down, a hit sets game over and raises the high score to the score if larger, and that value is written to the store; with the shield up, or without a hit, nothing changes |
| Dodge.Game.UpdateDefense | script.js:215-233 | changes only the three shield globals, by one step of the counter machine |
| Dodge.Game.IncreaseDifficulty | script.js:236-252 | the ramp, with the elapsed time compared in seconds as the source does, agrees with `Ramping.Ramp` and its millisecond gate |
| Dodge.Game.MoveAndCollide | script.js:259-261 | the first three calls of a tick, in order |
| Dodge.Game.RampShieldSpawn | script.js:262-291 | the ramp, the shield step, the spawn roll and the point, in order |
| Dodge.Game.Update | script.js:255-294 | one tick: no change once the game is over, otherwise exactly the tick function; the state stays good and the store holds the high score |
| Dodge.Game.RestoreDifficulty | script.js:303-306 | the four difficulty parameters take their restart values |
| Dodge.Game.ClearShield | script.js:308-310 | the shield is down with both counters zero |
| Dodge.Game.Restart | script.js:298-311 | the restart assignments: the player re-centred with a fresh speed, no obstacles, score 0, not over, the clock reference set, restart difficulty, idle shield |
| Dodge.Game.ResetGame | script.js:297-313 | the restart assignments followed by one tick, keeping the high score and a good state |
| Dodge.Game.PressEnter | script.js:80-82 | the Enter key restarts a finished game and does nothing to a running one |

## Left out

- Drawing is not modelled: the background, sprites, score board, shield circle and shield status text. The status text's per-second figures assume 60 ticks per second while the shield lasts 120 ticks; this is display only.
- Audio playback and image loading are not modelled.
- The key listeners are not modelled. The three key flags are per-tick inputs, and the Enter key is `Dodge.Game.PressEnter`.
- `requestAnimationFrame` scheduling is not modelled. The caller runs `Update` once per frame, and the script's schedule stops once the game is over.
- `Date.now()` is the `now` parameter.
- `Math.random()` is represented by the draws passed in as parameters.
- The `alert` at game over is not modelled.
- The canvas size is a constant of the object; resizing the window after load is not modelled.
- localStorage is the ghost field `storedHighScore`.
- Dodge.Game.constructor: takes the stored high score already parsed. `parseInt(...) || 0` on a missing or malformed entry is not modelled.
- Dodge.Game.CreateObstacle: retries only over a finite list of draws, not the source's unbounded loop. When every draw is rejected, nothing is placed, whereas the source would keep drawing and might never terminate.
- Obstacles are values in a sequence, not shared mutable objects. Nothing else holds a reference to an obstacle, so no aliasing is lost.
- The player's `dx` field is never read or written after initialisation, so it is not modelled.
- Numbers are exact reals and unbounded integers, not IEEE doubles. Rounding in sums such as 0.03 + 0.01 and in the player-speed decrement is not modelled, and neither is the loss of integer precision above 2^53.
