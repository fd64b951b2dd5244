# ByteDog game step, modelled in Dafny

This project models the per-frame world update of the browser platformer in
`Game.js`. It covers:

- how the player (Byte) reacts to the held keys: arrows, jump, deep search `d`, think mode `t`;
- gravity, the horizontal and floor clamps, and landing on the three static platforms;
- the deep-search park/merge of hidden bones and the think-mode countdown;
- the asteroids (filtered, then drifting left) and the robots (patrolling and turning at platform edges);
- the world reset after a hazard collision;
- picking up bones for score, and the spawners with their 60/120/180-frame cadence.

Files:

- `geometry.dfy` (module `Geometry`): the `Box` record and `collides`.
- `seqs.dfy` (module `Seqs`): `Array.prototype.filter` as a generic `Filter`, its characterisation, and `Option`.
- `world.dfy` (module `World`): the world as a value (`WorldState`) and one function per phase of
  `update()`. `Step` composes the phases in source order. `Frames` runs `Step` over a sequence of frames.
  `Invariant` is the predicate every frame preserves.
- `world_props.dfy` (module `WorldProps`): the properties, proved as lemmas about those functions.
- `game.dfy` (module `GameLoop`): the imperative form of the same code.
  - `Player` is a class with the mutable fields of the JS `player` object.
  - `Game` holds the module-level state as fields and updates it in place.
  - `Game.Update` runs the phases as methods. The platform, asteroid and robot passes are `for` loops, as in the source.
  - Every method is proved to produce exactly the state the matching `World` function gives. `Update` is proved to keep `Invariant`.

Modelling choices:

- Positions and speeds are `real`.
- The canvas is a `Canvas(width, height)` value. `ValidCanvas` asks for `width >= 90`, so the restart position x = 50 lies inside the clamp.
- The held keys are a `Keys` record.
- The `Math.random()` results are a `Draws` record of values in [0, 1). The spawners read these.
- Asteroids and robots are immutable records held in `seq` fields. The JS loops do `for…of` over an array and mutate its objects in place. The model instead loops over a local copy, `pass`. The field is reassigned from `pass` only until a reset replaces it. After a reset, the JS loop keeps iterating the old array, and so does the model.

Four behaviours of the code that are easy to misread:

- **Landing: the first qualifying platform wins, not the last.** A landing sets `dy = 0`, so no later platform in the same loop can pass the `dy > 0` part of the test (`WorldProps.LandOnFirst`).
- **Deep-search activation overwrites `hiddenBones`.** It does not add to it. Bones are still conserved, because nothing is parked while deep search is off. `Invariant` records that fact, and `WorldProps.DeepSearchConserves` relies on it.
- **Hidden bones can end up in `bones`.** Bones spawned while deep search is held go straight into `bones`, even when their `hidden` flag is set. So "every bone in `bones` is visible" holds only right after activation (`WorldProps.DeepSearchModes`).
- **The player never becomes grounded, so the jump branch never runs.** On the floor the clamp sets `dy = 0`, which fails the landing test. From the start height the player can never get above a platform top, because rising needs a jump (`WorldProps.FramesNeverGrounded`).

## Model

| member | source | states |
|---|---|---|
| `Geometry.CollidesSymmetric` | Game.js:76-81 | `collides(a, b) == collides(b, a)` |
| `Geometry.SharedEdgeIsNotCollision` | Game.js:76-81 | boxes that only share an edge (right/left or bottom/top) do not collide, since every comparison is strict |
| `Geometry.CollidesIffCommonPoint` | Game.js:76-81 | for boxes of positive size, `collides` holds exactly when some point lies strictly inside both boxes |
| `Seqs.Filter` | Game.js:96-97 | `filter` keeps exactly the elements that pass the test: it is shorter or as long, as long exactly when every element passes, and membership is "in the input and passes the test" |
| `Seqs.FilterMultiset` | Game.js:96-97 | every element passing the test is kept as many times as it occurs; every other element is kept zero times |
| `Seqs.FilterKeepsOrder` | Game.js:173-179 | the kept elements are a subsequence of the input, so their relative order is unchanged |
| `Seqs.FilterSplits` | Game.js:94-102 | filtering by a test and by its negation splits the input into two parts whose multisets add up to the input's |
| `World.PlatformIndex` | Game.js:44 | `Math.floor(random * platforms.length)` is a valid platform index and is the floor of the product |
| `World.FindTop` | Game.js:156 | `platforms.find` returns the first platform whose top equals the given height, or none when no top equals it |
| `WorldProps.LandOnKeeps` | Game.js:123-129 | the platform loop changes only y, dy and grounded: x and the deep-search and think-mode fields are unchanged |
| `WorldProps.LandOnNone` | Game.js:123-129 | when no platform passes the landing test, the platform loop leaves the player unchanged |
| `WorldProps.LandOnFirst` | Game.js:123-129 | when platform k is the first to pass the landing test, the loop ends with the player's bottom on that platform's top, `dy == 0` and `grounded`, and nothing else changed |
| `WorldProps.LandOnGrounded` | Game.js:123-129 | the loop ends grounded exactly when the player was already grounded or some platform passes the landing test |
| `WorldProps.LandGroundedIff` | Game.js:115-129 | after the platform phase, `grounded` holds exactly when some platform passes the landing test; the floor clamp's `grounded = true` never survives |
| `WorldProps.LandingSnaps` | Game.js:122-129 | a landing on the first qualifying platform leaves the bottom on its top, `dy == 0`, `grounded`, and x unchanged |
| `WorldProps.JumpSameFrame` | Game.js:90-110 | a grounded jump gives `dy = -12 + 0.5` and ungrounds the player in the same frame; when not grounded, the key does nothing and only gravity acts |
| `WorldProps.DeepSearchConserves` | Game.js:94-102 | if nothing is parked while deep search is off, the multiset of `bones ++ hiddenBones` is the same after the deep-search step |
| `WorldProps.DeepSearchModes` | Game.js:94-102 | activation parks only hidden bones, leaves only visible ones active, and sets the flag; release empties the park into the end of `bones` and clears the flag; holding the key while active changes nothing |
| `WorldProps.ThinkSetOnlyOnActivation` | Game.js:103-106 | think mode turns on exactly when `t` is held and it is off; the timer changes only then, and is set to 120 |
| `WorldProps.HazardsShape` | Game.js:137-170 | the hazard phases either leave the player alone or put it at the restart position with `dy = 0`; either the score is unchanged or it is 0 with bones and hazards cleared; the parked bones and the clock are never touched; a collision in either phase yields exactly the reset world, and without one the player, score and bones are unchanged and the hazards are the moved ones |
| `WorldProps.AsteroidMotion` | Game.js:138-140 | with no collision, the asteroids are the filtered ones in order; each moves left by its speed, or by half its speed in think mode, with its other attributes unchanged |
| `WorldProps.OffscreenAsteroidDropped` | Game.js:138 | an asteroid whose right edge is at or left of x = 0 is removed by the filter: it is not among the asteroids that survive the filter, the phase ends with no asteroids (a reset) or with those survivors drifted, and the list gets shorter |
| `WorldProps.PatrolMotion` | Game.js:155-159 | a robot moves horizontally by its speed scaled for think mode; its speed keeps its magnitude and at most changes sign |
| `WorldProps.PatrolTurnsAtEdge` | Game.js:155-159 | a moving robot reverses exactly when the first platform whose top equals its bottom no longer spans its extent |
| `WorldProps.CollectRemovesPicked` | Game.js:173-179 | the score rises by exactly the number of bones removed; the removed bones are exactly those that collide and are visible (or deep search is on); the rest keep their order |
| `WorldProps.HiddenBoneNeedsDeepSearch` | Game.js:174 | while deep search is off, no hidden bone is picked up |
| `WorldProps.SpawnedBoneOnPlatform` | Game.js:43-52 | a new bone rests on the drawn platform within its span, and is hidden exactly when its draw is below 0.3 |
| `WorldProps.SpawnedAsteroid` | Game.js:54-62 | a new asteroid starts at the right border with speed in [3, 5), so it is not filtered out before its first move |
| `WorldProps.SpawnedRobotFindsPlatform` | Game.js:64-73 | a new robot's bottom equals its platform's top, the patrol lookup finds that platform, and the robot lies within its span |
| `WorldProps.SpawnCadence` | Game.js:181-184 | on frames that are multiples of 60, 120 and 180, the bone, asteroid or robot the spawner builds from this frame's draws is appended at the end; on other frames that collection is unchanged; nothing else changes |
| `WorldProps.StepKeepsPlayerInside` | Game.js:113-114 | after any frame, from any state, `0 <= x <= width - 40` |
| `WorldProps.HazardHitZeroesScore` | Game.js:141-168 | if any hazard collides in a frame, the frame ends with score 0, the player at the restart position, the parked bones untouched, and each live collection holding exactly this frame's spawn of that kind, if the cadence calls for one, and nothing else |
| `WorldProps.StepThink` | Game.js:103-135 | over a whole frame, an active timer drops by exactly 1 and the mode stays on while it is positive; activation and the first tick share the frame (timer 119); otherwise nothing changes |
| `WorldProps.StepPreservesInvariant` | Game.js:84-184 | every frame keeps: score ≥ 0, clock ≥ 0, x in range, nothing parked while deep search is off, every parked bone hidden, and `thinkMode ==> 0 < timer <= 120` |
| `WorldProps.InitialInvariant` | Game.js:6-35 | the state at page load, after its three spawns, satisfies the invariant |
| `WorldProps.FramesPreserveInvariant` | Game.js:84-184 | the invariant holds after any number of frames; in particular the score is never negative |
| `WorldProps.ThinkModeLastsExactly` | Game.js:103-135 | think mode switched on in frame 1 is on after frames 1 to 119 and off after frame 120, whatever keys are held afterwards, with timer `120 - n` after frame n |
| `WorldProps.StepStaysBelowPlatforms` | Game.js:108-129 | a player at or below the start height, not rising and not grounded, stays so after any frame: above the floor, its bottom started below every platform top, and on the floor `dy` is 0, so no landing test passes |
| `WorldProps.FramesNeverGrounded` | Game.js:90-129 | from such a state, the player is not grounded after any number of frames, so the jump branch never fires |
| `WorldProps.InitialBelowPlatforms` | Game.js:10-24 | the page-load player is at the start height, at rest and not grounded |
| `GameLoop.SiftBones` | Game.js:173-179 | the filter loop returns exactly the bones not picked up, in order, and counts exactly the picked ones |
| `GameLoop.PatrolRobot` | Game.js:155-159 | the in-place move and turn of one robot gives the robot `Patrol` describes |
| `GameLoop.Player.constructor` | Game.js:10-24 | the player starts at (50, height - 50), at rest, with every mode off |
| `GameLoop.Game.constructor` | Game.js:223-226 | page load gives the initial state with one bone, asteroid and robot spawned, and the invariant holds |
| `GameLoop.Game.SpawnBone` | Game.js:43-52 | appends the bone `NewBone` describes; nothing else changes |
| `GameLoop.Game.SpawnAsteroid` | Game.js:54-62 | appends the asteroid `NewAsteroid` describes; nothing else changes |
| `GameLoop.Game.SpawnRobot` | Game.js:64-73 | appends the robot `NewRobot` describes; nothing else changes |
| `GameLoop.Game.Update` | Game.js:84-184 | one frame changes the state exactly as `Step` does, and keeps the invariant |
| `GameLoop.Game.HandleInput` | Game.js:85-106 | the input block's effect is `Input` |
| `GameLoop.Game.MoveByKeys` | Game.js:85-93 | the clock, the arrow keys and the jump |
| `GameLoop.Game.ToggleDeepSearch` | Game.js:94-102 | the deep-search block's effect is `DeepSearch` |
| `GameLoop.Game.StartThinkMode` | Game.js:103-106 | activation of think mode |
| `GameLoop.Game.ApplyGravity` | Game.js:108-110 | `dy` grows by 0.5, then y moves by the new `dy` |
| `GameLoop.Game.KeepInBounds` | Game.js:112-119 | the two horizontal clamps in order, then the floor clamp |
| `GameLoop.Game.LandOnPlatforms` | Game.js:121-129 | clears `grounded`, then its loop over the platforms is `LandOn` in list order |
| `GameLoop.Game.TickThinkMode` | Game.js:131-135 | the countdown and the switch-off at 0 |
| `GameLoop.Game.ResetWorld` | Game.js:142-148 | resets score, player position and `dy`, and the three live collections; `hiddenBones` is kept |
| `GameLoop.Game.UpdateAsteroids` | Game.js:137-151 | filter, then move and test each surviving asteroid; any collision makes the result the reset world, even though the loop keeps going |
| `GameLoop.Game.UpdateRobots` | Game.js:153-170 | patrol and test each robot; any collision makes the result the reset world |
| `GameLoop.Game.CollectBones` | Game.js:172-179 | the bones not picked stay, and the score rises by the number picked |
| `GameLoop.Game.SpawnObjects` | Game.js:181-184 | the spawn cadence `Spawn` |

## Left out

- Drawing (Game.js:186-215). This is output to the canvas and carries no state.
- DOM text (Game.js:3-4, 149, 168, 218). The game-over message and the score text are display only.
- Host scheduling (Game.js:220). `requestAnimationFrame` is the host's. `World.Frames` stands for the resulting sequence of frames.
- Keyboard listeners (Game.js:38-40). These capture input. The step reads a `Keys` record whose fields are the entries `ArrowLeft`, `ArrowRight`, `Space`, `d` and `t` of the `keys` object. Which physical key sets which entry is not part of this model. Read from the source and not executed: the listener at Game.js:39 stores `e.key`, and for the space bar that is `" "`, not `"Space"`. So in the page as written, `keys['Space']` seems never to be set and the jump at Game.js:90-93 would not fire. The model keeps the jump branch on its `space` field. Even so it is dead in the model too: `WorldProps.FramesNeverGrounded` with `WorldProps.InitialBelowPlatforms` shows that no reachable state is grounded, independently of the key name. The floor clamp leaves `dy` at 0, which fails the landing test's `dy > 0`, and from the start height the player's previous bottom is always below every platform top.
- `Math.random()` (Game.js:44, 46, 50, 57, 60, 65). Each call becomes a field of `Draws`, with a value in [0, 1).
- Floating point. Arithmetic is on exact reals, with no IEEE-754 rounding.
- Object identity. Asteroids and robots are values, not shared objects. The aliasing between the `asteroids`/`robots` fields and the array a running loop iterates is represented by the local `pass` described above. Nothing else in the game holds these objects.
- `GameLoop.Game.CollectBones`: the filter callback's `score++` is gathered as `gained` and added once the filter is done. Nothing reads the score during the filter, so the final state is the same.
- JavaScript `%`. It agrees with Dafny's `%` for the non-negative frame counter, which `Invariant` guarantees.
