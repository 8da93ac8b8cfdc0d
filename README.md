# GroupRunner game scene, modelled in Dafny

GroupRunner is an endless-runner game. Its `GameScene` runs the whole
per-frame simulation, and this project models it:

- **Contact classifier** (`didBegin`). A physics contact is classified by the category bitmask of each body. A body exactly in category 2 means ground: it re-arms the jump. A body exactly in category 4 means obstacle: it tints the hero red and ends the run.
- **Jump gate** (`touchesBegan`). A tap requests an impulse of (0, 100) when the hero is alive and on the ground, and then clears the ground flag.
- **Frame driver** (`update`). Each frame runs these steps in order:
  1. scroll the ground;
  2. move, despawn and spawn obstacles;
  3. advance the spawn timer by 1/60 s;
  4. set the scroll speed to 200 + 0.01 × score, using the score before this frame's increment;
  5. add one point, if the hero is alive.
- **Obstacle layer** (`updateObstacles`). The layer moves left by speed/60 each frame. Obstacles whose scene x is no longer positive are removed. When the timer read before this frame's advance is at least 4 s, one copy of the template is added at scene x 600, with a random vertical scale in [0.3, 1.3], and the timer is reset.
- **Ground layer** (`scrollWorld`). The layer moves left by speed/60 each frame. A tile whose scene x is at most −width/2 is moved to scene x `sceneWidth/2 + width`, keeping its y.

Positions and time are exact `real`s. A child of a layer sits at scene x = layer x + child x.

Files:

- `game_model.dfy` (module `GameModel`): the scene as a value (`Scene`). It has one function per method of the source; each function's contract, with the lemmas beside it (`UpdateObstaclesMeaning`, `SurvivorsCount`, `SurvivorsKeepOrder`), states what that method promises.
- `game_runs.dfy` (module `GameRuns`): runs made of any interleaving of contacts, taps and frames, with the lemmas about whole runs. These cover death, score, speed, the spawn cadence and the jump budget.
- `game_scene.dfy` (module `GameScene`): the class `GameScene`, with the source's fields and methods written imperatively. Each method is proved to leave `Model()` equal to the matching `GameModel` function applied to the old state.

These behaviours of the code are easy to get wrong, and the model keeps them:

- After 240 quiet frames the speed is 202.39 rather than 202.4, because the speed is set from the score before the increment. No obstacle has spawned yet; the first spawn is on frame 241, because the spawn test reads the timer before the frame's advance.
- The red tint starts on every obstacle contact, including those after the one that kills.
- The speed is set once more on the first frame after death, from the frozen score. It is constant from then on, but not already from the moment of death.
- World scrolling and spawning go on after death.
- A ground contact re-arms the jump while dead.
- After a frame the spawn timer is positive. The invariant kept by every event bounds it by 4 + 1/60; from a zero start it never exceeds 4 (`TimerAfterFrames`).

## Model

| member | source | states |
|---|---|---|
| GameModel.DidBegin | GroupRunner/GroupRunner/GameScene.swift:47-72 | grounded afterwards iff grounded before or either category is exactly 2; dead afterwards iff dead before or either category is exactly 4; the tint count rises by one per obstacle contact; nothing else changes |
| GameModel.TouchesBegan | GroupRunner/GroupRunner/GameScene.swift:74-86 | exactly one (0, 100) impulse is logged iff alive and grounded; afterwards grounded iff it was grounded and dead; nothing else changes |
| GameModel.RecycleTile | GroupRunner/GroupRunner/GameScene.swift:152-161 | a tile whose scene x is at most −width/2 gets scene x sceneWidth/2 + width with the same y and width; any other tile is unchanged |
| GameModel.ScrollWorld | GroupRunner/GroupRunner/GameScene.swift:144-164 | the ground layer moves left by speed/60; the tile count is unchanged; each tile that left the scene sits at sceneWidth/2 + width with the same y; other tiles and all other fields are untouched |
| GameModel.Survivors | GroupRunner/GroupRunner/GameScene.swift:108-121 | an obstacle is kept iff it was present and its scene x is positive; no more obstacles than before |
| GameModel.SurvivorsCount | GroupRunner/GroupRunner/GameScene.swift:109-121 | each on-screen obstacle is kept exactly as many times as it occurs, and no off-screen one is kept |
| GameModel.SurvivorsKeepOrder | GroupRunner/GroupRunner/GameScene.swift:109-121 | the survivors of two consecutive runs of children are the survivors of each, in the same order, so removal keeps the children's order |
| GameModel.UpdateObstacles | GroupRunner/GroupRunner/GameScene.swift:103-142 | the obstacle layer moves left by speed/60; at most one obstacle is added, and only when the old timer is at least 4; the timer becomes 0 after a spawn and is unchanged otherwise; no other field changes |
| GameModel.UpdateObstaclesMeaning | GroupRunner/GroupRunner/GameScene.swift:106-139 | every remaining obstacle has scene x > 0; every old obstacle with scene x > 0 remains; kept obstacles keep their local positions; a due timer appends exactly one obstacle at scene x 600 with the template's y and a scale in [0.3, 1.3] |
| GameModel.Update | GroupRunner/GroupRunner/GameScene.swift:88-101 | both layers move left by the speed from before this frame's recompute, whether alive or dead; tiles and obstacles are those of scrollWorld followed by updateObstacles; the score rises by 1 iff alive; speed = 200 + 0.01 × the score before the frame; timer = old timer (or 0 after a spawn) + 1/60, hence positive; at most one obstacle added; state, ground flag, impulses, tint count, scene width and template y unchanged; keeps the scene invariant |
| GameRuns.StepKeepsValid | GroupRunner/GroupRunner/GameScene.swift:88-101 | a contact, a tap or a frame keeps the timer in [0, 4 + 1/60) and the speed between 200 + 0.01 × (score − 1) and 200 + 0.01 × score |
| GameRuns.RunKeepsValid | GroupRunner/GroupRunner/GameScene.swift:88-101 | any run keeps that invariant |
| GameRuns.InitialIsValid | GroupRunner/GroupRunner/GameScene.swift:24-30 | the initial scene (speed 200, timer 0, score 0) satisfies the invariant |
| GameRuns.DeadIsAbsorbing | GroupRunner/GroupRunner/GameScene.swift:64-71 | no sequence of contacts, taps and frames brings a dead scene back to active |
| GameRuns.ObstacleContactKills | GroupRunner/GroupRunner/GameScene.swift:64-71 | an obstacle contact sets dead; a second one changes nothing but the tint count |
| GameRuns.GroundContactIsIdempotent | GroupRunner/GroupRunner/GameScene.swift:57-62 | a ground contact only sets the ground flag, and repeating it changes nothing |
| GameRuns.CombinedMaskIsIgnored | GroupRunner/GroupRunner/GameScene.swift:57-64 | a body with combined mask 6, against any body that is neither ground nor obstacle, changes nothing |
| GameRuns.FrozenAfterDeath | GroupRunner/GroupRunner/GameScene.swift:95-100 | once dead, the score never changes, and after the first frame the speed is fixed at 200 + 0.01 × that score |
| GameRuns.ScoreNonDecreasing | GroupRunner/GroupRunner/GameScene.swift:97-100 | over any run the score never decreases and rises by at most one per frame |
| GameRuns.SpeedNonDecreasing | GroupRunner/GroupRunner/GameScene.swift:95 | from any scene satisfying the invariant, the speed never decreases |
| GameRuns.ActiveRun | GroupRunner/GroupRunner/GameScene.swift:95-100 | n quiet frames from score 0 give score n, state active, and a speed set by frame n of 200 + 0.01 × (n − 1) |
| GameRuns.TimerStep | GroupRunner/GroupRunner/GameScene.swift:93 | in closed form, after k frames the timer is due iff k is a positive multiple of 240, and one more frame gives the closed form for k + 1 |
| GameRuns.StepTimer | GroupRunner/GroupRunner/GameScene.swift:93 | only a frame changes the spawn timer: reset if due, then advance by 1/60; taps and contacts leave it alone |
| GameRuns.TimerAfterFrames | GroupRunner/GroupRunner/GameScene.swift:124-140 | from timer 0, after any interleaving of taps and contacts with n ≥ 1 frames, the timer is ((n − 1) mod 240 + 1)/60 |
| GameRuns.SpawnCadence | GroupRunner/GroupRunner/GameScene.swift:124-140 | from timer 0, over any run, frame n + 1 spawns iff n is a positive multiple of 240; so the first spawn is on frame 241 and then one every 240 frames, whatever taps and contacts come between |
| GameRuns.AtMostOneSpawnPerFrame | GroupRunner/GroupRunner/GameScene.swift:124-140 | over any run the obstacle count grows by at most the number of frames |
| GameRuns.QuietFirst240Frames | GroupRunner/GroupRunner/GameScene.swift:88-101 | after 240 quiet frames from the start: score 240, speed 202.39, and the timer due, so frame 241 spawns |
| GameRuns.NoSpawnInFirst240Frames | GroupRunner/GroupRunner/GameScene.swift:124 | from timer 0, none of the first 240 frames spawns, whatever taps and contacts come between them |
| GameRuns.SecondTapIsDropped | GroupRunner/GroupRunner/GameScene.swift:74-86 | a tap while dead or airborne is a no-op; a second tap changes nothing; two taps log exactly one impulse iff the scene was alive and grounded |
| GameRuns.ImpulseBudget | GroupRunner/GroupRunner/GameScene.swift:57-84 | over any run, impulses plus the ground flag never exceed their start value plus the number of ground contacts; the impulse log only grows |
| GameRuns.OneJumpWithoutGroundContact | GroupRunner/GroupRunner/GameScene.swift:80-84 | with no ground contact, any number of taps and frames log at most one impulse, and it is (0, 100) |
| GameScene.RemoveOffScreen | GroupRunner/GroupRunner/GameScene.swift:109-121 | the loop over a snapshot of the obstacles keeps exactly the survivors, in order, all with scene x > 0 |
| GameScene.GameScene.constructor | GroupRunner/GroupRunner/GameScene.swift:24-30 | fields start active, grounded, score 0, speed 200, timer 0, around the injected layers |
| GameScene.GameScene.DidBegin | GroupRunner/GroupRunner/GameScene.swift:47-72 | the object's new state is `GameModel.DidBegin` of the old one |
| GameScene.GameScene.TouchesBegan | GroupRunner/GroupRunner/GameScene.swift:74-86 | the object's new state is `GameModel.TouchesBegan` of the old one |
| GameScene.GameScene.Update | GroupRunner/GroupRunner/GameScene.swift:88-101 | the object's new state is `GameModel.Update` of the old one, through calls to ScrollWorld and UpdateObstacles |
| GameScene.GameScene.UpdateObstacles | GroupRunner/GroupRunner/GameScene.swift:103-142 | the object's new state is `GameModel.UpdateObstacles` of the old one |
| GameScene.GameScene.ScrollWorld | GroupRunner/GroupRunner/GameScene.swift:144-164 | the tiles are updated in place, one per loop iteration, to `GameModel.ScrollWorld` of the old state |

## Left out

- `didMove(to:)`: the named scene-graph lookups and the delegate wiring are scene plumbing. The constructor takes the layers, the tiles, the scene width and the template's y instead.
- The score label text is rendering and is not modelled. The red tint is only counted (`colorizes`).
- The physics behind `applyImpulse` is not modelled. The model only logs that an impulse of (0, 100) was requested.
- `CGFloat.random(min:max:)` is an extension that is not part of the source file. The scale is a parameter, required to lie in [0.3, 1.3].
- `CGFloat` and `CFTimeInterval` rounding is not modelled. Arithmetic is exact, and the frame-241 fencepost relies on that.
- Coordinate conversion is a translation along x only. Scale, rotation, anchor points and the layers' y offsets are not modelled: a spawned obstacle's local y is the template's y, and a recycled tile keeps its local y.
- Copying the obstacle template is reduced to the fields the scene sets (position and yScale).
- The `currentTime` argument of `update` is unused by the source and is not a parameter of the model.
- `score` is unbounded. Swift's 64-bit `Int` would trap on overflow, which needs 2^63 frames.
- Callback delivery and threading are not modelled. Contacts and taps are method calls between frames.
- Strip contiguity: that the ground strip stays gap-free over many frames is not stated. It depends on the tile layout the scene graph sets up, which is not part of this model.
