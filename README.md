# Flappy-bird simulation engine, modelled in Dafny

This project models the simulation core of a browser Flappy-Bird clone:

- the `Game` session: its three-state machine (`Start`, `Playing`, `GameOver`), driven by one input event and by `reset`;
- the per-frame `update`: the frame clock and pipe-spawn cadence, bird physics, pipe motion, the one-shot pass-and-score rule, the strict box collision test, the off-screen filter and ground/ceiling death;
- the `Bird`: gravity, the flap impulse and a three-sprite animation counter;
- the `Pipe`: a rectangle that moves left at a fixed speed.

Modules follow the source files:

- `PipeMotion` (`pipe.dfy`) models `src/game/Pipe.ts`. A pipe is a record, `Pipe`; `Updated` is `Pipe.update`.
- `BirdPhysics` (`bird.dfy`) models `src/game/Bird.ts`. `Bird` is a class whose `Flap` and `Update` methods assign its fields. The functions `PhysicsStep` and `AnimStep` specify one frame; `Fall` and `AnimAfter` specify many.
- `Session` (`game.dfy`) models `src/game/Game.ts` and the `GameState` enumeration it imports. `Game` is a class with the source's fields. Its pipe list is a `seq<Pipe>` field. The loop of `update` is proved against the functions `StepAll`, `Gained` and `AnyCollision`. The filter is the function `OnScreen`. One iteration of the loop on one pipe is `StepPipe`, its scoring test `Scores` and its collision test `CheckCollision`. The frame clock is `Tick` and its spawn test `SpawnDue`; the filter's keep test is `OnScreenPipe`; the largest height the spawner may draw is `MaxPipeHeight`; the ceiling and ground test is `HitsEdge`, and the bird's starting height `StartY`.
- `SessionProperties` (`properties.dfy`) holds the lemmas that relate several frames or operations. It also holds an end-to-end client: a game on a 320x480 canvas where the bird never flaps.

Numbers are exact `real`s. The source's constants (gravity 0.25, flap strength -5, speed 2, sizes 34x24 and 52) are exact binary fractions.

The canvas size is a constructor parameter. The random draw in `spawnPipe` is the integer parameter `h` of `SpawnPipe` and `Update`.

Fields that no code assigns after construction are `const`: the bird's `gravity`, `width`, `height`, `flapStrength` and `frameDelay`, and the sprite count. So `update` cannot change them.

Three details of the code that the model keeps as written:

- After a collision the pipe loop goes on (`src/game/Game.ts:108-110`). The remaining pipes of that frame are still moved and can still score.
- A pipe is removed when `x + width <= 0` (`src/game/Game.ts:114` keeps `x > -width`), so a pipe whose right edge is exactly at 0 is removed.
- The top and bottom pipes are two separate records; the `passed` flag is used only on the top one. There is no pair entity.

## Model

| member | source | states |
|---|---|---|
| PipeMotion.NewPipe | src/game/Pipe.ts:2-13 | a new pipe is at (x, y) with the given height and kind, width 52, speed 2 and not passed |
| PipeMotion.Pipe.Updated | src/game/Pipe.ts:15-17 | definition of one frame of motion: x decreases by the speed; its properties are proved in PipeMotion.UpdatedTimesTranslates and SessionProperties.StepPipeMoves |
| PipeMotion.UpdatedTimesTranslates | src/game/Pipe.ts:15-17 | k updates move a pipe left by exactly k times its speed; y, height, width, speed, kind and passed are unchanged |
| BirdPhysics.Bird.constructor | src/game/Bird.ts:2-18 | a new bird is at (x, y) with velocity 0, the given gravity and both animation counters at 0 (size 34x24 and flap strength -5 are constant fields) |
| BirdPhysics.Bird.Flap | src/game/Bird.ts:38-40 | velocity becomes the flap strength whatever it was; position and animation counters are unchanged |
| BirdPhysics.Bird.Update | src/game/Bird.ts:42-53 | velocity gains gravity and y gains the new velocity; x is unchanged; the animation counters take one AnimStep and stay in range |
| BirdPhysics.PhysicsStep | src/game/Bird.ts:43-45 | one physics frame: velocity gains gravity, then y gains the new velocity; its many-frame behaviour is proved in BirdPhysics.FallClosedForm and BirdPhysics.FallVelocityIncreasing |
| BirdPhysics.AnimStep | src/game/Bird.ts:48-52 | the frame counter advances; on reaching the delay it restarts at 0 and the sprite index moves to the next sprite, wrapping from the last to 0 |
| BirdPhysics.AnimStepInRange | src/game/Bird.ts:48-52 | the counter stays below the delay and the sprite index below the sprite count |
| BirdPhysics.SpriteAdvancesEveryFiveFrames | src/game/Bird.ts:48-52 | from the start of a cycle, frames 1 to 4 only count up and frame 5 shows the next sprite with the counter back at 0 |
| BirdPhysics.AnimationPeriod | src/game/Bird.ts:48-52 | with 3 sprites and delay 5, the animation returns to the same state after 15 frames |
| BirdPhysics.FallClosedForm | src/game/Bird.ts:44-45 | after n frames without a flap, velocity is v0 + n*g and y is y0 + n*v0 + g*n*(n+1)/2 |
| BirdPhysics.FallVelocityIncreasing | src/game/Bird.ts:44 | with positive gravity and no flap, velocity is strictly increasing over frames |
| Session.StartY | src/game/Game.ts:24 | definition of the bird's starting height, canvas height / 2 - 12, used by both the constructor and reset (line 62); its properties are proved in Session.Game.constructor, Session.Game.Reset and SessionProperties.DefaultFallHitsGroundOnFrame43 |
| Session.CheckCollision | src/game/Game.ts:123-130 | definition of the strict four-inequality overlap test; its properties are proved in SessionProperties.CollisionIffCommonPoint, SessionProperties.CollisionSymmetric and SessionProperties.TouchingBoxesDoNotCollide |
| Session.Tick | src/game/Game.ts:85-91 | definition of the clock part of a playing frame: the frame count rises by 1 and the last spawn frame is set to it when more than 90 frames have elapsed; its properties are proved in SessionProperties.CadenceFromReset, SessionProperties.SpawnFramesFromReset and SessionProperties.TickKeepsSpawnGap |
| Session.Scores | src/game/Game.ts:101 | definition of the scoring test on a moved pipe; its properties are proved in SessionProperties.GainedAtMostOpenTops and SessionProperties.PipeScoresAtMostOnce |
| Session.StepPipe | src/game/Game.ts:98-105 | definition of one iteration of the pipe loop on one pipe; its properties are proved in Session.StepAllAt and SessionProperties.StepPipeMoves |
| Session.HitsEdge | src/game/Game.ts:117 | definition of the ceiling and ground test; its properties are proved in SessionProperties.DefaultFallHitsGroundOnFrame43 and used in Session.Game.Update |
| Session.MaxPipeHeight | src/game/Game.ts:75-76 | definition of the largest top-pipe height the spawner may draw, canvas height - 120 - 50; its properties are proved in Session.PipePair |
| Session.SpawnDue | src/game/Game.ts:88 | definition of the spawn test: more than 90 frames since the last spawn; its properties are proved in SessionProperties.SpawnFramesFromReset and SessionProperties.TickKeepsSpawnGap |
| Session.StepAll | src/game/Game.ts:97-111 | definition of the pipe loop's effect on the list: every pipe stepped, in order; its properties are proved in Session.StepAllAt, Session.GainedCountsFlips and Session.Game.UpdatePipes |
| Session.Gained | src/game/Game.ts:100-105 | definition of the points the pipe loop scores; its properties are proved in Session.GainedCountsFlips, SessionProperties.GainedAtMostOpenTops and Session.Game.UpdatePipes |
| Session.AnyCollision | src/game/Game.ts:107-110 | definition of "some moved pipe overlaps the bird"; its properties are proved in Session.Game.UpdatePipes and SessionProperties.CollisionDoesNotStopScoring |
| Session.OnScreenPipe | src/game/Game.ts:114 | definition of the filter's keep test, x > -width; its properties are proved in SessionProperties.KeptIffRightEdgeVisible and SessionProperties.SpawnedPipeLifetime |
| Session.OnScreen | src/game/Game.ts:114 | definition of the off-screen filter; its properties are proved in Session.OnScreenMembership, Session.OnScreenCountPassed, SessionProperties.OnScreenAppend and SessionProperties.OnScreenShorter |
| Session.PipePair | src/game/Game.ts:74-81 | a spawn gives a top pipe at y 0 with the drawn height and a bottom pipe starting one gap lower and ending at the canvas bottom; both are at the right edge and not passed; the heights sum to canvas height minus gap, and each is at least 50 |
| Session.Game.constructor | src/game/Game.ts:10-24 | a new session is in Start with no pipes, zero score and clock, and a fresh bird at (50, height/2 - 12) with velocity 0 and gravity 0.25 |
| Session.Game.HandleInput | src/game/Game.ts:46-59 | Start becomes Playing and nothing else changes; Playing stays Playing and only the bird's velocity changes, to the flap strength; GameOver becomes Start after a reset |
| Session.Game.Reset | src/game/Game.ts:61-68 | pipes emptied; score, frameCount and lastPipeFrame zeroed; a fresh bird at the starting point; the state is kept |
| Session.Game.SpawnPipe | src/game/Game.ts:74-81 | exactly the two pipes of PipePair are appended |
| Session.Game.UpdatePipes | src/game/Game.ts:96-111 | every pipe is moved and possibly marked passed, in order; the score rises by Gained; the state becomes GameOver iff some moved pipe collides with the bird; a collision does not stop the loop |
| Session.Game.Update | src/game/Game.ts:83-121 | outside Playing nothing changes; in Playing the clock ticks, a pair is spawned iff frameCount - lastPipeFrame exceeds 90, the bird falls one frame, pipes become the filtered moved pipes, the score rises by Gained, and the state is GameOver iff a pipe collides or the bird touches ceiling or ground; the session invariant is kept |
| Session.StepAllAt | src/game/Game.ts:97-105 | pipe k after the loop is pipe k moved and, if it scores, marked passed |
| Session.GainedCountsFlips | src/game/Game.ts:101-105 | the points one frame scores equal the number of passed flags that frame turns on |
| Session.OnScreenMembership | src/game/Game.ts:114 | a pipe survives the filter iff it was present and x > -width |
| Session.OnScreenCountPassed | src/game/Game.ts:114 | the filter never adds passed pipes |
| Session.SpawnKeepsPassedSound | src/game/Game.ts:79-80 | appending new pipes adds no passed pipe and keeps "only top pipes are passed" |
| Session.FrameKeepsPassedSound | src/game/Game.ts:97-114 | after a frame only top pipes are passed, and the passed pipes on screen never outnumber the score |
| SessionProperties.CollisionIffCommonPoint | src/game/Game.ts:123-130 | for boxes of positive size, the test is true iff the two open boxes share a point |
| SessionProperties.CollisionSymmetric | src/game/Game.ts:123-130 | the test is symmetric in its two boxes |
| SessionProperties.TouchingBoxesDoNotCollide | src/game/Game.ts:123-130 | boxes that only share an edge do not collide |
| SessionProperties.CadenceFromReset | src/game/Game.ts:85-91 | n frames after a reset, frameCount is n and lastPipeFrame is n - n mod 91 |
| SessionProperties.SpawnFramesFromReset | src/game/Game.ts:88-91 | after a reset a pair is spawned on frame n iff n is a multiple of 91, so the first spawn is on frame 91 |
| SessionProperties.TickKeepsSpawnGap | src/game/Game.ts:85-91 | after a tick, frameCount - lastPipeFrame is at most 90 |
| SessionProperties.GainedAtMostOpenTops | src/game/Game.ts:101 | a frame scores at most the number of top pipes not yet passed, so bottom pipes never score |
| SessionProperties.PipeScoresAtMostOnce | src/game/Game.ts:101-103 | over any run of frames a pipe scores at most once; a bottom pipe or a passed pipe never scores |
| SessionProperties.StepPipeMoves | src/game/Game.ts:98-102 | the loop moves a pipe exactly as Pipe.update does, and never clears its passed flag |
| SessionProperties.CollisionDoesNotStopScoring | src/game/Game.ts:97-111 | a concrete frame in which the first pipe collides and the second still scores |
| SessionProperties.OnScreenAppend | src/game/Game.ts:114 | filtering distributes over concatenation, so kept pipes keep their order |
| SessionProperties.OnScreenShorter | src/game/Game.ts:114 | the filter never lengthens the list, and keeps it whole when every pipe passes the test |
| SessionProperties.KeptIffRightEdgeVisible | src/game/Game.ts:114 | a pipe is kept iff its right edge is strictly right of 0; one whose right edge is at 0 is removed |
| SessionProperties.SpawnedPipeLifetime | src/game/Pipe.ts:15-17 | a pipe spawned at x = w is kept after k updates iff 2k < w + 52 |
| SessionProperties.DefaultPipeRemovedOnUpdate186 | src/game/Pipe.ts:5 | on a 320-wide canvas a pipe survives 185 updates and is removed on update 186 |
| SessionProperties.DefaultFallMonotone | src/game/Bird.ts:44-45 | from the starting point, a bird that never flaps only moves down |
| SessionProperties.DefaultFallHitsGroundOnFrame43 | src/game/Game.ts:117-119 | on a 480-high canvas a bird that never flaps stays below its start, never touches the ceiling, and touches the ground first on frame 43 |
| SessionProperties.PlayWithoutFlapping | src/game/Game.ts:83-121 | a 320x480 game that is started and never flapped ends after exactly 43 updates with score 0 |

## Left out

- `src/game/Background.ts` and `src/main.ts`: random scenery and page setup, with no game logic.
- Drawing: `Game.render`, `Bird.draw` (including the tilt angle) and `Pipe.draw`.
- Browser wiring: the canvas and score-element lookups and event listeners in the `Game` constructor, `gameLoop`, `start`, and `requestAnimationFrame`. The canvas size is a constructor parameter instead.
- `updateScore`: it only writes the score into the page, so the model treats it as a no-op.
- `Bird.loadSprites` and `spriteLoaded`: image objects only. The model keeps only that there are 3 sprites.
- The source file `src/game/GameState.ts` is not part of this model. `GameState` is the three-value datatype its uses imply.
- `Math.random` in `spawnPipe`: the drawn top-pipe height is the parameter `h`. On frames that spawn, it must lie in [50, canvas height - 170]. On a canvas shorter than 220 that range is empty, and the source's formula then draws heights outside it. Spawning on such canvases is not modelled.
- Session.Game.Update: the draw requirement above is stronger than the source, which spawns on any canvas.
- Floating point: positions and velocity are exact reals, and counters are unbounded naturals. The source's constants are exact binary fractions, but rounding of IEEE doubles in very long games is not modelled.
- Pipes are values in the session's sequence rather than shared objects. The source never shares a pipe object, so aliasing between pipes is not modelled.
