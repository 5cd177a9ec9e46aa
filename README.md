# Flappy-bird play scene, modelled in Dafny

This project models the game rules of the play scene of a Phaser flappy-bird
clone (`src/scenes/PlayScene.js`):

- the difficulty table and the rule that moves from the easy tier to normal and then hard as the score grows;
- the pool of four upper/lower pipe pairs;
- how `createPipes` and `placePipe` lay the pipes out to the right of the rightmost pipe;
- how `recyclePipes` moves the first two pipes that have left the screen and scores a point for them;
- the best score kept in local storage;
- the pause button, the three-second countdown after resuming, and `flap`.

The physics, rendering, input and timer engine is not modelled. In its place are
parameters (the random draws, the pipe width, the bird's bounds) and flags
(whether the countdown timer is scheduled).

Modules:

- `Common`: the canvas height from `src/index.js`, `PIPES_TO_RENDER`, the pipe margin, the flap velocity, the countdown length, and `Math.max`.
- `Difficulty`: the three tiers with their ranges, and `increaseDifficulty` as `NextTier`. `TierForScore` is the reference definition of the tier the game should be in at each score.
- `Pipes`: pipes as values `Pipe(x, y, width)`.
  - `RightMostX` is `getRightMostPipe`.
  - `Placed` is one `placePipe`.
  - `Layout` is the pool after `createPipes` has run a given number of iterations.
  - `OffscreenIndices` gives the indices `recyclePipes` collects.
- `BestScore`: the stored best as an optional integer, and `saveBestScore` as `SavedBest`.
- `Pause`: the pause state as a value, with pause, resume and one countdown tick as functions.
- `Scene`: the class `PlayScene`.
  - Its fields are the ones the source updates.
  - The pipe group's children are an `array` of `Pipe` (null until `create`).
  - Its methods are the handlers.
  - `CreatePipes`, `GetRightMostPipe` and `RecyclePipes` keep the source's loops, each proved against the matching function of `Pipes`.

Modelling decisions:

- Random draws become parameters.
  - Each call of `Phaser.Math.Between` in `placePipe` becomes a field of a `Draw`: the vertical distance, the vertical position and the horizontal distance, in the order they are drawn.
  - `DrawFits` states the ranges `Phaser.Math.Between` can return for the current tier.
  - `CreatePipes` takes four draws, and `RecyclePipes` takes one.
- Positions are integers. In the game they are JavaScript numbers that the physics engine moves by fractional steps between frames.
- A pipe's `x` is its left edge; both origins used by the source have 0 as their horizontal component.
  - `y` is the bottom end of an upper pipe and the top end of a lower pipe.
  - The right edge is `x + width`.
- `createPipes` creates all eight sprites at (0, 0) before placing the pairs. The source instead creates each pair just before placing it. The result is the same: `getRightMostPipe` starts from 0, and a sprite that has just been created sits at x = 0.
- Local storage holds text, which `saveBestScore` passes through `parseInt`.
  - The model reads that text as `Option<int>`.
  - `None` stands for a missing key and for text that does not parse. Both are falsy after the `&&`/`parseInt` in the source.
  - `Some(0)` is a stored zero, which is falsy too.
- `initialTime` is undefined in the source until the first resume. The model starts it at 0, and its invariant only constrains it while the countdown timer is scheduled.
- The bird is reduced to the integer top `y` of its bounds and its height, which is all `checkGameStatus` reads.

## Model

| member | source | states |
|---|---|---|
| Common.Max | src/scenes/PlayScene.js:261 | the result is at least both arguments and equals one of them |
| Difficulty.SettingsOf | src/scenes/PlayScene.js:19-33 | each tier's horizontal and vertical range is non-empty with a positive lower bound, so every draw moves a pipe right and leaves a gap |
| Difficulty.NextTier | src/scenes/PlayScene.js:247-255 | increaseDifficulty either keeps the tier or moves to the intended tier for the new score |
| Difficulty.TierAfterRunMatches | src/scenes/PlayScene.js:247-255 | starting easy at score 0 and applying increaseDifficulty after every point gives easy at 0, normal at 1 and 2, hard from 3 on |
| Difficulty.TierStep | src/scenes/PlayScene.js:247-255 | one more point followed by increaseDifficulty keeps the tier equal to the intended tier for the new score |
| Difficulty.TierNeverRegresses | src/scenes/PlayScene.js:247-255 | a higher score never has an easier tier |
| Difficulty.HarderTiersAreTighter | src/scenes/PlayScene.js:20-33 | every bound of a harder tier's horizontal and vertical ranges is at most the easier tier's |
| Pipes.RightMostX | src/scenes/PlayScene.js:257-265 | the rightmost x is at least 0 and every pipe's x; it is 0 or some pipe's x |
| Pipes.Offscreen | src/scenes/PlayScene.js:235 | a pipe is off screen exactly when its left edge is at least its width left of 0, so its left edge is left of the screen too |
| Pipes.Placed | src/scenes/PlayScene.js:206-218 | placePipe keeps the pool's size; what it does to the pair and the rest is stated by PlacedLayout |
| Pipes.PlacedLayout | src/scenes/PlayScene.js:206-218 | both pipes share one column at a horizontal distance in the tier's range from the old rightmost x; the gap is in the vertical range; the upper end is at least 20 below the top and the lower end at least 20 above the bottom; widths are kept; every other pipe is unchanged and strictly left of the new column |
| Pipes.PlacedIsRightMost | src/scenes/PlayScene.js:206-218 | after placement, the placed pair's column is the new rightmost x |
| Pipes.Layout | src/scenes/PlayScene.js:136-155 | the pool after a number of createPipes iterations always has eight sprites; their positions are stated by LayoutPairs and CreatedLayout |
| Pipes.OffsetIncreasing | src/scenes/PlayScene.js:212-214 | the sums of successive horizontal distances of a tier strictly increase |
| Pipes.PairsPlacedStep | src/scenes/PlayScene.js:139-155 | placing pair n-1 at the next offset, with nothing else moving, extends a pool placed up to n-2 to one placed up to n-1 |
| Pipes.PlacedStep | src/scenes/PlayScene.js:139-155 | one loop iteration of createPipes places pair n-1 at the sum of the first n horizontal distances, and that column becomes the rightmost |
| Pipes.LayoutPairs | src/scenes/PlayScene.js:136-155 | after n iterations, pair k sits at the sum of the first k+1 horizontal distances with draw k's position and gap, unplaced sprites are still at (0, 0), and widths are kept |
| Pipes.ColumnsFromOffsets | src/scenes/PlayScene.js:136-155 | pools placed this way have the first column in the horizontal range, consecutive spacings in the range, strictly increasing columns, and gaps and margins in bounds |
| Pipes.CreatedLayout | src/scenes/PlayScene.js:136-155 | createPipes gives four pairs, each sharing a column; the columns strictly increase, starting one horizontal distance from 0 and spaced within the tier's range; every gap and margin is in bounds |
| Pipes.OffscreenIndices | src/scenes/PlayScene.js:232-236 | the collected indices are in range, and the first two are in increasing order |
| Pipes.OffscreenIndicesSound | src/scenes/PlayScene.js:232-236 | the collected indices are exactly the pipes whose right edge is at or left of 0, in increasing order |
| Pipes.OffscreenIndicesStep | src/scenes/PlayScene.js:234-236 | visiting one more pipe appends its index exactly when it is off screen |
| Pipes.RecycleIffTwoOffscreen | src/scenes/PlayScene.js:232-245 | a pair is recycled if and only if at least two pipes are off screen |
| Pipes.RecycledAreFirstTwo | src/scenes/PlayScene.js:232-245 | the recycled pair is the first two off-screen pipes in list order: every other pipe before the second one is still visible |
| BestScore.SavedBest | src/scenes/PlayScene.js:267-274 | a missing, unparsable or zero best becomes the score; any other best becomes the larger of itself and the score; the result never falls below the score or the old best |
| BestScore.SaveIsIdempotent | src/scenes/PlayScene.js:267-274 | saving the same score twice stores what the first save stored |
| BestScore.BestAfterIsHighest | src/scenes/PlayScene.js:267-274 | after a series of saves, the best is at least the old best and every saved score, and equals the old best or one of the scores |
| Pause.Paused | src/scenes/PlayScene.js:184-189 | the pause handler sets the pause flag and leaves the countdown alone |
| Pause.Resumed | src/scenes/PlayScene.js:83-97 | the resume handler sets three seconds left and schedules the timer, leaving the pause flag alone |
| Pause.Ticked | src/scenes/PlayScene.js:100-110 | one tick takes a second off; at 0 or below it unpauses and removes the timer, otherwise both stay as they were |
| Pause.CountdownTakesThreeTicks | src/scenes/PlayScene.js:83-110 | after resume, ticks 1 and 2 only count down (2, then 1 left) with the timer still running; tick 3 unpauses and stops the timer with 0 left |
| Pause.PausedUntilLastTick | src/scenes/PlayScene.js:100-110 | after pause and resume, the game stays paused and the timer stays scheduled for exactly the first two ticks |
| Scene.OutOfBounds | src/scenes/PlayScene.js:198-200 | the bird is in play exactly when the y of its top is greater than 0 and the y of its bottom is less than the canvas height |
| Scene.PlayScene.constructor | src/scenes/PlayScene.js:6-34 | score 0, easy tier, not paused, no pipes yet; the stored best is whatever local storage holds |
| Scene.PlayScene.Create | src/scenes/PlayScene.js:37-47 | back to easy, score 0, not paused, bird at rest, and a fresh pool equal to the createPipes layout of the draws; the stored best and countdown are untouched |
| Scene.PlayScene.CreatePipes | src/scenes/PlayScene.js:136-158 | a fresh pool of eight sprites, laid out in loop order as the Layout of the four draws |
| Scene.PlayScene.GetRightMostPipe | src/scenes/PlayScene.js:257-265 | the loop returns RightMostX of the pool: at least 0 and every x, and 0 or some pipe's x |
| Scene.PlayScene.PlacePipe | src/scenes/PlayScene.js:206-218 | the pool becomes Placed of the old pool with the current tier's draw |
| Scene.PlayScene.RecyclePipes | src/scenes/PlayScene.js:232-245 | with at least two pipes off screen, the first two are placed as a pair with the old tier, the score rises by one, the best is saved and the tier advances; otherwise nothing changes; the tier always equals TierForScore of the score |
| Scene.PlayScene.RecyclePair | src/scenes/PlayScene.js:237-242 | place the pair, add a point, save the best with the new score, advance the tier, keeping the tier equal to TierForScore of the score |
| Scene.PlayScene.IncreaseScore | src/scenes/PlayScene.js:304-307 | the score rises by one |
| Scene.PlayScene.IncreaseDifficulty | src/scenes/PlayScene.js:247-255 | normal on reaching 1, hard on reaching 3, otherwise unchanged |
| Scene.PlayScene.SaveBestScore | src/scenes/PlayScene.js:267-274 | the stored best becomes SavedBest of the old best and the score |
| Scene.PlayScene.GameOver | src/scenes/PlayScene.js:276-295 | the stored best becomes SavedBest of the old best and the score |
| Scene.PlayScene.CheckGameStatus | src/scenes/PlayScene.js:197-204 | game over exactly when the bird's bottom reaches the canvas height or its top reaches 0, and the best is saved only then |
| Scene.PlayScene.Update | src/scenes/PlayScene.js:75-78 | the game-over save, then recycling on the pool as it was, keeping the tier equal to TierForScore of the score |
| Scene.PlayScene.Pause | src/scenes/PlayScene.js:184-189 | only the pause flag changes, and it becomes set |
| Scene.PlayScene.Resume | src/scenes/PlayScene.js:83-97 | three seconds left and the timer scheduled; the pause flag stays as it was |
| Scene.PlayScene.CountDown | src/scenes/PlayScene.js:100-110 | one second less; at 0 or below the game is unpaused and the timer removed, otherwise nothing else changes |
| Scene.PlayScene.Flap | src/scenes/PlayScene.js:297-302 | ignored while paused; otherwise the vertical velocity is set to 300 upwards |

## Left out

- Positions are integers in the model, while the engine moves pipes at -200 px/s and the bird under gravity by fractional steps. The rules on positions are `Math.max`, addition and comparisons, so no rounding is involved, but fractional states are not represented.
- Physics is not modelled: gravity, velocity integration, the bird–pipe collider (`createColliders`), world bounds, `setVelocityX(-200)` on the pipe group, and the pipes scrolling between frames. The engine owns all of these; the model takes the pipes' positions as it finds them at each call.
- Rendering is not modelled: the background, sprites, animations (`anims.create`, `bird.play`), the score and best-score texts, the countdown text and the bird's tint. They draw and change no rule state.
- Input wiring is not modelled: `handleInputs`, the pause button's creation, and the `listenToEvents` guard that registers the 'resume' handler once. Only the handlers themselves are modelled.
- Timers are a scheduled/unscheduled flag. Pausing again during a countdown and resuming adds a second timer while the first is still alive, so ticks come twice as fast and the stale timer keeps calling countDown. One flag cannot represent that.
- Scene control is not modelled: `physics.pause`/`resume`, `scene.pause`, `scene.launch('PauseScene')`, the delayed `scene.restart` scheduled by gameOver, and the repeated game-over calls made every frame until the restart. Scene control belongs to the engine.
- Local storage is not modelled as raw text. The stored value is the parsed integer or absent, and writing stores the score as a number. So partial parses such as `parseInt("12abc")` are seen only through their result.
- `Phaser.Math.Between` is replaced by the `Draw` parameters: its randomness is outside the model, and its range is kept as the precondition `DrawFits`.
- The pipe texture's width is a parameter, since the texture is loaded by the preload scene.
- `BaseScene` (`createBG`, `screenCenter`, `fontOptions`), `MenuScene`, `PreloadScene` and the game configuration in `src/index.js` are not part of this model apart from the canvas height.
- Scene.PlayScene.Create: does not model `createBird` beyond resetting the bird's vertical velocity. The bird (start position (40, 300) from the shared configuration, body size from the loaded texture) is not a field of the model: physics moves it, so `CheckGameStatus` and `Update` take its bounds as a parameter each frame.
