# Seasonal canvas effects, modelled in Dafny

This project models the bookkeeping behind the site's animated p5
backgrounds and the date-based choice between them:

- **Confetti** (`confetti.dfy`). Each piece wraps around the viewport,
  which is padded by 30 px on every side. The top edge wraps only when the
  piece respawns. A piece moves by velocity plus acceleration. While its
  vertical acceleration is more than 0.1 from 0, each run adds 0.2 to it
  (whatever its sign); otherwise it snaps to 0, so an upward impulse
  counts down to 0. A
  non-respawning piece splices itself out of the shared `pieces` array.
  Setup seeds respawning pieces, and a click pushes a burst of 100
  non-respawning pieces with an upward impulse. The frame loop walks
  `pieces` by index while pieces remove themselves.
- **Particle field** (`particles.dfy`).
  - Options resolve through JavaScript's `||`, so a configured 0 counts as
    absent.
  - A particle either snaps to the pointer or steps by its velocity and
    bounces off the canvas edges. The bounce is an in-place negation of a
    velocity vector that `initVelo` shares.
  - `connect` draws lines below a distance threshold, with linearly fading
    opacity.
  - The draw loop joins particle `i` with `particles.slice(i)`.
- **Snowfall** (`snowfall.dfy`). A flake circles horizontally around the
  centre line and falls by the square root of its size each time it is updated (a flake
  that slides into the slot of a removed one is skipped that frame). Once it
  is below the canvas, it splices itself out of the shared `snowflakes`
  array. Each frame pushes 0 to 2 new flakes and then walks the array with
  `for..of` while flakes remove themselves.
- **Event selector** (`event_handler.dfy`). The selector maps a date to
  `'CHRISTMAS'`, `'NEWYEAR'` or `'NONE'`. It then maps that name to snowfall
  or to the particle field with fixed options.

`common.dfy` holds values the effects share:
- optional arguments;
- 2-D vectors;
- `Between`, the range of a `p5.random` call.

`js_array.dfy` holds the JavaScript array operations the effects use:
`indexOf`, `splice(start, 1)` and the remove-by-identity idiom. It also
holds `Sweep`, a model of an index loop whose body may splice out the
current element. When that happens, the next element slides into the
current slot and the index moves past it, so that element is skipped for
the frame. The confetti `draw` loop and the snowfall `for..of` loop are
both proved to leave exactly `Live(Sweep(...))` in the array.

Pieces, particles, vectors and flakes are classes whose fields the methods
update in place. The shared arrays are `seq` fields of a `Sketch` class,
which the methods reassign. Each method is proved against a pure function
of the old state (`WarpStep`, `MoveStep`, `UpdateStep`, `Sweep`, …), and
the properties are proved about those functions as lemmas.

Every `p5.random(a, b)` is a parameter constrained by `Between(v, a, b)`.
The date is two parameters: `getDate()` and the 0-based `getMonth()`. The
source's `p5.sin`, `p5.pow(_, 0.5)` and `p5.dist` are function parameters.
Lemmas that need them state what they rely on: sine in [-1, 1], and a
non-negative square root.

Two points where the code is more specific than its own description:

- **The snowfall spawn loop** is `for (i = 0; i < p5.random(2); i++)`. It
  draws a fresh bound at every test, so the number of flakes pushed is not
  the ceiling of one draw. `Snowfall.SpawnCount` models the code: three
  draws in [0, 2).
- **The snowfall `update`** splices at `indexOf(this)` without checking for
  -1. The draw loop only updates flakes that are in the array, so the index
  is always found. `JsArray.UnguardedSpliceOfAbsent` records what the
  splice would do otherwise: it would drop the last flake.

## Model

| member | source | states |
|---|---|---|
| `JsArray.IndexOf` | src/graphics/confetti.ts:179 | indexOf gives the first index holding the object, or -1 exactly when the object is absent |
| `JsArray.SpliceOne` | src/graphics/snowfall.ts:36 | splice(start, 1) removes one element exactly when the start, counted from the end if negative, is inside the array; otherwise it leaves the array unchanged |
| `JsArray.RemoveFirst` | src/graphics/confetti.ts:178-181 | remove deletes exactly one occurrence of the object and keeps the others in order (multiset minus one copy); it is a no-op when the object is absent |
| `JsArray.RemoveAt` | src/graphics/confetti.ts:178-181 | in an array without repeats, removing the element at slot i deletes exactly that slot and keeps the array free of repeats |
| `JsArray.UnguardedSpliceOfAbsent` | src/graphics/snowfall.ts:35-36 | without the -1 guard, splicing out an absent object drops the last element instead |
| `JsArray.UnguardedSpliceOfPresent` | src/graphics/snowfall.ts:35-36 | for an object in the array, the unguarded splice is the same as the guarded removal |
| `JsArray.UnguardedSpliceAt` | src/graphics/snowfall.ts:35-36 | in an array without repeats, splice(indexOf(a[i]), 1) deletes exactly slot i |
| `JsArray.RemovedSlotAbsent` | src/graphics/snowfall.ts:35-36 | in an array without repeats, the object spliced out of slot i is no longer in it |
| `JsArray.Sweep` | src/graphics/confetti.ts:205 | the index loop that may splice out the current element yields one entry per original slot |
| `JsArray.SweepSlot` | src/graphics/confetti.ts:205 | a slot right after a removed one is skipped and left unchanged; any other slot is processed by the body and is kept exactly when the body does not remove it |
| `JsArray.SweepObject` | src/graphics/snowfall.ts:61-64 | each slot of the loop's outcome is about the object that was in that slot before the loop |
| `JsArray.LiveFrom` | src/graphics/snowfall.ts:61-64 | every object left in the array after the loop comes from a slot that was kept |
| `JsArray.SweepAddsNothing` | src/graphics/snowfall.ts:61-64 | the loop adds no object: every object left was in the array before |
| `JsArray.LiveHas` | src/graphics/snowfall.ts:61-64 | every live slot is among the objects left after the loop |
| `JsArray.SurvivesIffLive` | src/graphics/snowfall.ts:61-64 | with distinct objects, an object is still in the array after the loop exactly when its slot is live |
| `JsArray.RemovedOnlyByStep` | src/graphics/confetti.ts:205 | an object is gone after the loop only if it was processed and its body removed it |
| `JsArray.SkipAfterRemoval` | src/graphics/confetti.ts:205 | the object after a removed one stays in the array with its state unchanged, because the loop skips it |
| `JsArray.SweepWithoutRemoval` | src/graphics/confetti.ts:205 | when no body removes its object, every object is processed exactly once and kept, in order |
| `JsArray.SweepKeepsHalf` | src/graphics/confetti.ts:205 | one pass never removes two neighbours, so at least half of the objects (rounded down) stay |
| `JsArray.SweepLoopAdvance` | src/graphics/confetti.ts:205 | one loop iteration keeps the invariant: the array holds what survived of the processed slots, followed by the untouched rest |
| `JsArray.SweepLoopDone` | src/graphics/confetti.ts:205 | when the index reaches the array length, the array is exactly what survives the whole pass |
| `Confetti.DecayDraw` | src/graphics/confetti.ts:148 | the decay draw p5.random(0.2 - 0, 0.2 + 0) can only be 0.2 |
| `Confetti.Round` | src/graphics/confetti.ts:189 | p5.round gives the integer within half a unit of its argument, with halves rounding up |
| `Confetti.WarpStep` | src/graphics/confetti.ts:109-136 | for width >= 0, x ends in [-30, width+30]; leaving left lands at width+30 and leaving right at -30; leaving the bottom resets y to -30 whatever respawn is; leaving the top wraps to height+30 only when respawn is set; out-of-bounds holds iff the left, right or bottom bound was crossed; a piece inside the padded viewport is unchanged; velocity, acceleration and respawn are untouched |
| `Confetti.MoveStep` | src/graphics/confetti.ts:139-151 | the position becomes the old position plus velocity plus acceleration; velocity and acceleration.x are kept; acceleration.y gains the decay when its magnitude exceeds 0.1 and is set to 0 otherwise |
| `Confetti.RunStep` | src/graphics/confetti.ts:101-136 | a piece removes itself iff it does not respawn and crossed the left, right or bottom bound; a respawning piece is never removed; a piece inside the padded viewport stays and simply moves |
| `Confetti.Piece.constructor` | src/graphics/confetti.ts:74-98 | flags default to respawn true; the position is (x, y); the acceleration is the given one or (0, 0); the corners are (±size/2, ±size/2) |
| `Confetti.Piece.Warp` | src/graphics/confetti.ts:109-136 | the new state is WarpStep of the old one, and the piece is spliced out of the array exactly when it was out of bounds and does not respawn |
| `Confetti.Piece.Move` | src/graphics/confetti.ts:139-151 | the new state is MoveStep of the old one |
| `Confetti.Piece.Remove` | src/graphics/confetti.ts:178-181 | the array becomes RemoveFirst of the old array and this piece |
| `Confetti.Piece.Run` | src/graphics/confetti.ts:101-106 | warp then move: the state becomes RunStep's, and the piece is removed exactly when RunStep says so |
| `Confetti.Sketch.constructor` | src/graphics/confetti.ts:12 | the sketch starts with an empty pieces array |
| `Confetti.Sketch.Setup` | src/graphics/confetti.ts:186-196 | appends round(height*300/1080) respawning pieces without impulse, one per seed drawn inside the canvas; existing pieces are untouched and keep their order |
| `Confetti.Sketch.RunAt` | src/graphics/confetti.ts:205 | running the piece at index i either updates slot i or removes it, after which the piece is no longer in the array; no other slot changes |
| `Confetti.Sketch.EntriesAfterRemoval` | src/graphics/confetti.ts:178-180 | once a piece splices itself out, the entries are the old ones without that slot: the other pieces, and their states, stay in order |
| `Confetti.Sketch.EntriesAfterUpdate` | src/graphics/confetti.ts:100-105 | a run that leaves the piece in the array changes only that piece's entry |
| `Confetti.Sketch.RunNext` | src/graphics/confetti.ts:200-206 | one pass of the draw loop: the piece at index i is the first one the sweep has not reached, running it advances the sweep by one step, and the array keeps only pieces it had before |
| `Confetti.Sketch.Draw` | src/graphics/confetti.ts:200-206 | the array after the frame is Live(Sweep(...)) of the pieces before it: pieces run in order, and the piece that slides into a removed slot is skipped for the frame |
| `Confetti.Sketch.MouseClicked` | src/graphics/confetti.ts:210-220 | appends exactly 100 pieces at the pointer, each with respawn false and acceleration (0, -12); existing pieces are untouched and keep their order |
| `Confetti.KeptPiece` | src/graphics/confetti.ts:111-135 | a respawning piece, or one inside the padded viewport, is still in the array after the frame |
| `Confetti.RemovedPiece` | src/graphics/confetti.ts:100-135 | a piece gone after a frame does not respawn and crossed the left, right or bottom bound; it was warped, spliced out inside warp, then moved, and its last state is that run's |
| `Confetti.RespawningFrame` | src/graphics/confetti.ts:205 | when every piece respawns, a frame keeps all pieces in order and runs each exactly once |
| `Confetti.Runs` | src/graphics/confetti.ts:139-151 | over any number of runs of a piece, velocity, acceleration.x and respawn never change |
| `Confetti.RunsSplit` | src/graphics/confetti.ts:100-103 | a + b runs of a piece are a runs followed by b runs |
| `Confetti.ImpulseCountdown` | src/graphics/confetti.ts:147-150 | an upward acceleration of c decay steps shrinks by exactly one decay step per run of the piece |
| `Confetti.SettledStaysSettled` | src/graphics/confetti.ts:147-150 | a vertical acceleration within ±0.1 becomes 0 after one run of the piece and stays 0 |
| `Confetti.ImpulseLasts` | src/graphics/confetti.ts:147-150 | an upward acceleration of c decay steps stays negative for c runs of the piece and is 0 from then on |
| `Confetti.BurstImpulseLasts60Runs` | src/graphics/confetti.ts:217 | the (0, -12) impulse of a clicked piece pushes it up for exactly 60 runs of the piece and is (0, 0) from then on |
| `Particles.Resolve` | src/graphics/particles.ts:51-63 | every numeric setting resolved through JavaScript `or`-defaulting is non-zero, and lines are shown unless lineShow is exactly false |
| `Particles.Reach` | src/graphics/particles.ts:98 | maxDist is maxDis when it is truthy, and otherwise lineDist, or 100 if that is absent or 0 |
| `Particles.Strength` | src/graphics/particles.ts:102 | the opacity scale is opac when it is truthy, and otherwise lineOpacity, or 0.8 if that is absent or 0 |
| `Particles.Opacity` | src/graphics/particles.ts:102 | for 0 <= dis < maxDist the opacity lies in (0, opac]; it equals opac at distance 0 and 0 at the threshold |
| `Particles.OpacityDecreasing` | src/graphics/particles.ts:102 | the opacity strictly decreases as the distance grows |
| `Particles.Link` | src/graphics/particles.ts:95-105 | a line is drawn iff lineShow is not false and dis < maxDist, and its opacity lies in (0, opac] |
| `Particles.LoopCount` | src/graphics/particles.ts:164 | `for (i = 0; i < n; i++)` runs the least natural number of times that is not below n, which is the ceiling of n for positive n |
| `Particles.MoveStep` | src/graphics/particles.ts:76-89 | with both arguments truthy the position becomes (x, y) and the velocity is kept; otherwise the position steps by the velocity, and each velocity component is negated exactly when the new coordinate is outside [0, width] or [0, height]; speeds never change |
| `Particles.Drift` | src/graphics/particles.ts:76-89 | any number of free moves keeps the speed on each axis |
| `Particles.DriftStaysNear` | src/graphics/particles.ts:86-87 | bouncing keeps a free particle that starts on the canvas within one step of it for ever |
| `Particles.ZeroLineDistIsAbsent` | src/graphics/particles.ts:98 | configuring lineDist as 0, whatever the other options, resolves exactly as leaving it out |
| `Particles.ZeroLineOpacityIsAbsent` | src/graphics/particles.ts:102 | configuring lineOpacity as 0, whatever the other options, resolves exactly as leaving it out |
| `Particles.ZeroBoundFallsBack` | src/graphics/particles.ts:51-63 | a range bound configured as 0 resolves to the default bound while the other configured bound is kept |
| `Particles.EmptyOptions` | src/graphics/particles.ts:51-63 | with no options the radius range is [1, 8], the speed ranges are [-2, 2] and [-1, 1.5], and lines reach 100 px at opacity 0.8 |
| `Particles.Vector.constructor` | src/graphics/particles.ts:41-42 | p5.createVector(x, y) holds exactly x and y |
| `Particles.Particle.constructor` | src/graphics/particles.ts:47-66 | the position is the random one unless an argument is truthy; the radius and the velocity are the draws; initVelo is the same object as velocity |
| `Particles.Particle.Move` | src/graphics/particles.ts:76-89 | the new state is MoveStep of the old one, and initVelo, sharing the velocity object, still equals the velocity |
| `Particles.Particle.Connect` | src/graphics/particles.ts:92-108 | one result per other particle: the line Link gives for the distance between them |
| `Particles.SeparateAppend` | src/graphics/particles.ts:164 | pushing a particle with fresh vectors keeps every particle's vectors unshared |
| `Particles.LoopStepStates` | src/graphics/particles.ts:177-181 | at index i, the particles before i have moved this frame and the rest have not |
| `Particles.LoopStepRow` | src/graphics/particles.ts:180 | the lines of particle i join it, at its new position, to the later particles at their positions before the frame |
| `Particles.ConsideredPairs` | src/graphics/particles.ts:177-181 | the pairs of the rows, whose entries Row draws, are exactly those with a <= b, so each unordered pair of distinct particles is considered once and no pair twice |
| `Particles.PairsFromMembers` | src/graphics/particles.ts:177-181 | the pairs the loop considers from row i on are exactly (a, b) with i <= a <= b < n |
| `Particles.PairsFromDistinct` | src/graphics/particles.ts:177-181 | no pair is considered twice from row i on |
| `Particles.RowMembers` | src/graphics/particles.ts:180-181 | row i holds exactly the pairs (i, b) with i <= b < n |
| `Particles.EachPairOneLine` | src/graphics/particles.ts:177-181 | each pair a <= b is drawn by exactly one row entry, entry b - a of row a, joining a at its new position to b as row a sees it |
| `Particles.PointerOnAxisDrifts` | src/graphics/particles.ts:173 | the pointer particle moves when either coordinate is truthy but snaps only when both are, so on the left or top edge it drifts by its velocity instead |
| `Particles.Sketch.constructor` | src/graphics/particles.ts:151-152 | the pointer particle is created at the canvas centre, and the particle array starts empty |
| `Particles.Sketch.Setup` | src/graphics/particles.ts:156-165 | appends particleAmt particles (width/10 when particleAmt is absent or 0), rounded up, each from its draws; existing particles keep their order and state |
| `Particles.Sketch.StepAt` | src/graphics/particles.ts:177-181 | moves particle i only and returns its lines to particles.slice(i) |
| `Particles.Sketch.StepNext` | src/graphics/particles.ts:177-181 | with particles before i already stepped and the rest not, stepping i extends that by one and returns Row(before, i) |
| `Particles.Sketch.PointerStep` | src/graphics/particles.ts:173-174 | the pointer particle moves only when the pointer is off the origin, and it is then joined to every particle with reach 150 and opacity 1 |
| `Particles.Sketch.Draw` | src/graphics/particles.ts:169-182 | after a frame every free particle has moved once; the pointer's lines and row i of the lines are those of the rule above |
| `Particles.Sketch.StepRows` | src/graphics/particles.ts:177-182 | the draw loop moves every free particle once, leaves the pointer particle as it is, and row i of the lines is Row(before, i) |
| `Snowfall.InitialShaped` | src/graphics/snowfall.ts:14-21 | a new flake starts with posY in [-50, 0], size in [2, 5], initAngle in [0, 2π] and a radius of at most half the width |
| `Snowfall.SpawnCount` | src/graphics/snowfall.ts:58 | each frame pushes 0, 1 or 2 flakes: none iff the first bound drawn is 0, two iff the first is positive and the second exceeds 1 |
| `Snowfall.UpdateStep` | src/graphics/snowfall.ts:24-38 | the shape never changes, and the flake is removed iff its new posY is below the canvas |
| `Snowfall.Swing` | src/graphics/snowfall.ts:28 | a radius of at most width/2 times a sine moves at most width/2 off the centre line |
| `Snowfall.RootAboveOne` | src/graphics/snowfall.ts:31 | the square root of a size of at least 2 is more than 1 |
| `Snowfall.FlakeFalls` | src/graphics/snowfall.ts:31 | each update strictly increases posY, by more than 1 |
| `Snowfall.FlakeCircles` | src/graphics/snowfall.ts:26-28 | posX is recomputed, not accumulated: it does not depend on the old posX, and it stays in [0, width] |
| `Snowfall.Fallen` | src/graphics/snowfall.ts:24-38 | any number of updates keeps the shape of a flake |
| `Snowfall.FlakeKeepsFalling` | src/graphics/snowfall.ts:31 | n > 0 updates take a flake more than n pixels down, and no update takes it up |
| `Snowfall.Snowflake.constructor` | src/graphics/snowfall.ts:14-21 | a new flake has posX 0 and its drawn posY, angle, size and radius, all within their ranges |
| `Snowfall.Snowflake.Update` | src/graphics/snowfall.ts:24-38 | the new state is UpdateStep of the old one, and the array is spliced at indexOf(this) exactly when the flake is now below the canvas |
| `Snowfall.Sketch.constructor` | src/graphics/snowfall.ts:10 | the flake array starts empty |
| `Snowfall.Sketch.Spawn` | src/graphics/snowfall.ts:58 | pushes SpawnCount(rolls) new flakes, made from the draws, behind the existing ones |
| `Snowfall.Sketch.EntriesAfterPush` | src/graphics/snowfall.ts:58 | after the pushes, the flake list is the old flakes followed by the new ones |
| `Snowfall.Sketch.UpdateAt` | src/graphics/snowfall.ts:61-63 | updating the flake at index i either updates slot i or removes exactly that slot, after which the flake is no longer in the array; no other flake changes |
| `Snowfall.Sketch.UpdateNext` | src/graphics/snowfall.ts:61-64 | one pass of the for..of loop: the flake at index i is the first one the sweep has not reached, updating it advances the sweep by one step, and the array keeps only flakes it had before |
| `Snowfall.Sketch.EntriesAfterRemoval` | src/graphics/snowfall.ts:35-36 | removal deletes exactly that flake and keeps the other flakes, and their states, in order |
| `Snowfall.Sketch.EntriesAfterUpdate` | src/graphics/snowfall.ts:24-31 | an update without removal changes only the updated flake's state |
| `Snowfall.Sketch.UpdateAll` | src/graphics/snowfall.ts:61-64 | the array after the for..of loop is Live(Sweep(...)) of the flakes before it: a flake that slides into a removed slot is skipped |
| `Snowfall.Sketch.Draw` | src/graphics/snowfall.ts:53-65 | a frame pushes SpawnCount(rolls) fresh flakes and then runs the for..of loop at time frameCount/60 over old and new flakes together |
| `Snowfall.FlakeRemovedIffBelow` | src/graphics/snowfall.ts:34-37 | a flake processed in a frame is gone afterwards iff its updated posY is below the canvas |
| `Snowfall.FlakeGoneIffBelow` | src/graphics/snowfall.ts:34-37 | with distinct flakes, a flake processed in a frame is no longer in the array afterwards iff its updated posY is below the canvas |
| `Snowfall.NoRespawn` | src/graphics/snowfall.ts:58-64 | every flake left after a frame was there before or was spawned in it: there is no respawn path |
| `EventHandler.GetEventName` | src/utils/eventHandler.ts:9-21 | with the 0-based month made 1-based: 'CHRISTMAS' iff December 24 or 25, 'NEWYEAR' iff January 1, and 'NONE' for every other date |
| `EventHandler.GetEventP5` | src/utils/eventHandler.ts:25-37 | snowfall iff the event is 'CHRISTMAS'; otherwise particles with dotSize {min 0, max 0.4} and lineDist 100; never confetti |
| `EventHandler.EventDays` | src/utils/eventHandler.ts:16-20 | of all calendar dates exactly three carry an event: 24 and 25 December and 1 January |
| `EventHandler.NoEventInJune` | src/utils/eventHandler.ts:30 | no day of June has an event, since there is no Pride branch; June gets the ordinary particle field |
| `EventHandler.NewYearIsOrdinary` | src/utils/eventHandler.ts:29-36 | New Year gets the same effect as an ordinary day |
| `EventHandler.EventSettings` | src/utils/eventHandler.ts:33-36 | the particle field of a non-Christmas date resolves to a radius range from 1 (the configured 0 falls through to the default) to 0.4, a line distance of 100, and default speeds and opacity |

## Left out

- Rendering and canvas calls (`show`, `display`, `create`, `ellipse`, `vertex`, `line`, `stroke`, `fill`, `clear`, `createCanvas`, colours and HSB mode) are output only.
- The `windowResized` handlers are window plumbing. Width and height are fixed fields of each sketch.
- Confetti rotation (`Point.rotX`/`rotY`/`rotZ`, `Piece.rot`, `rotSpeed`) is trigonometric geometry. The corner points are kept only as the constructor sets them.
- `Repeller` and `Particle.repel` are never called from the draw loop. Particle's unused `acceleration` field is also left out.
- src/utils/parallax.ts and vue.config.js are page and build plumbing.
- All arithmetic is exact real arithmetic, not IEEE doubles.
- `Confetti.BurstImpulseLasts60Runs`: counts runs of the piece, not frames. In a frame where the previous piece leaves the array, the next piece slides into its slot and is not run (`JsArray.SkipAfterRemoval`), so its impulse does not decay that frame; a clicked piece can therefore be pushed up for more than 60 frames. The count also holds in exact arithmetic only. With doubles, sixty additions of 0.2 to -12 can leave a residue of order 1e-14, which the next run snaps to 0.
- `p5.sin`, `p5.pow(_, 0.5)` and `p5.dist` are function parameters. The lemmas assume only that sine lies in [-1, 1] and that the root is a non-negative square root.
- `p5.random(a, b)` draws from a half-open range. The model admits the closed range; the spawn bounds of snowfall are the exception and keep [0, 2).
- The distribution of the random draws is not modelled, e.g. the uniform-in-area choice of the snowflake radius.
- `Snowfall.InitialShaped`: the radius is `sqrt(random((width/2)^2))`. Only its range [0, width/2] is kept, not how it is computed.
- `Confetti.Piece.constructor`: the launch velocity comes from `fromAngle(random(1.0472, 2.0944))` and `setMag(random(height*2/1080, height*5/1080))`. It is constrained without angles: vy >= 0 and vx^2 <= 0.2500043 times the squared magnitude (|cos| on [1.0472, 2.0944] peaks at 0.50000424), with magnitude in that range. The cone is slightly wider than the drawn one.
- `Particles.Particle.constructor`: both call sites pass both coordinates or neither. The p5.Vector treatment of a single missing coordinate is not modelled.
- `Particles.Particle.Connect`: p5 computes the distance with `p5.dist`. The model takes the distance as a parameter.
- The time of `Snowfall.Sketch.Draw` is `p5.frameCount / 60`, with the frame count as a parameter.
