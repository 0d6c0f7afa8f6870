# Liquid-glass metaballs: the ball simulation

This project models the CPU-side simulation of the liquid-glass metaball
sketch (`mySketch.js`) and proves what it promises. It has two kinds of ball:

- a few big balls, anchored at the canvas centre;
- small balls that big balls emit at random, each anchored at its parent.

Every ball moves along a fixed direction, with a signed offset `r` kept
between `-distB` and `distA`. A ball moves in one of two ways:

- **steady oscillation** (`updateOsc`): step by `sgn * speed`, clamp at the limits and flip the sign there, then ease a quarter of the way towards that step;
- **burst** (after a click, `mousePressed`): every ball is reseeded and eases out to its outer limit `distA` over `ANIM_FRAMES = 30` ticks of `draw`. Then it turns inward.

At the end of `draw`, the sketch packs at most 64 balls into the shader's uniform arrays. Each entry holds the ball's UV position and its radius as a share of the canvas width.

The model has four modules.

- `Numeric`:
  - p5's `lerp` and `random(lo, hi)`, where `random(lo, hi)` is `u * (hi - lo) + lo` for a unit draw `u`;
  - the sketch's `easeOutCubic`;
  - the facts about them that the rest of the model uses.
- `BallSpec`:
  - the fields of one `OscBall` as a value (`BallState`);
  - one function per `OscBall` method: `NewBall`, `Started`, `BurstStep`, `Finished`, `OscStep`, `Positioned`, `Reseeded`;
  - the per-ball properties: offset bounds, the sign rule, burst bounds and monotonicity, and `reseed` keeping a ball's identity.
- `WorldSpec`:
  - the globals as a value (`World`: `bigBalls`, `smallBalls`, `isBurst`, `burstFrame`, canvas size and centre);
  - what `draw` does to them before drawing (`Tick`), and what `mousePressed`, `rebuildBalls`, `setup` and `windowResized` do;
  - the uniform packing (`Packed`);
  - the invariant the sketch keeps between events (`WorldValid`), and the 30-tick run of a burst.
- `MySketch`: the program in its own imperative form.
  - `OscBall` is a class with the source's fields. Its methods update them in place.
  - `Sketch` is a class whose fields are the sketch's globals. Its methods are `setup` (constructor), `windowResized`, `rebuildBalls`, `draw` and `mousePressed`. The `for` loops of the source are `while` loops with invariants.
  - Every method is proved to change the state exactly as the corresponding `BallSpec`/`WorldSpec` function says. So the lemmas about those functions hold of the program.

Inputs the sketch takes from outside are parameters of the model:

- Each `random()` draw is a parameter `u` in [0, 1). `Seed`, `Spawn` and `EmitDraw` hold the draws of one reseed, one constructor and one emission.
- Each direction `(cos a, sin a)` is a pair `(dirX, dirY)` with `dirX * dirX + dirY * dirY == 1`.
- `parent` is the index of the parent in `bigBalls`. The anchor `updatePos` uses is resolved from it: the canvas centre for a big ball, the parent's current `(x, y)` for a small ball.

Behaviour of the code that the model keeps:

- `burstFrame` is incremented before `t = burstFrame / ANIM_FRAMES` is computed (mySketch.js:59-60). So the burst ticks use `t = 1/30, ..., 1`, not `0, ..., 29/30`.
- `isBurst` is cleared (mySketch.js:66) before the emission check (mySketch.js:76). So balls can be emitted on the tick that finishes a burst. Such balls are not at their outer limit when the burst is over. `BurstLastsAnimFrames` therefore speaks about the balls that existed when the burst began.
- `setup` calls `rebuildBalls` (5 big balls) and then pushes 5 more (mySketch.js:31-36). So the sketch starts with 10 big balls, while a resize leaves 5.
- Nothing guards against a zero-sized canvas. The model requires `width > 0` and `height > 0` wherever it divides by them or draws a range from the shorter side.

## Model

| member | source | states |
|---|---|---|
| `Numeric.Min` | mySketch.js:137 | p5 `min`: the result is one of the two arguments and no larger than either |
| `Numeric.LerpBetween` | mySketch.js:166 | `lerp(start, stop, amt)` with `amt` in [0, 1] lies between `start` and `stop` (either order), returning `start` at 0 and `stop` at 1 |
| `Numeric.UniformInRange` | mySketch.js:146-151 | `random(lo, hi)` for a unit draw lies in [lo, hi) |
| `Numeric.EaseOutCubicEnds` | mySketch.js:49-51 | `easeOutCubic(0) == 0` and `easeOutCubic(1) == 1` |
| `Numeric.EaseOutCubicBounded` | mySketch.js:49-51 | `easeOutCubic` maps [0, 1] into [0, 1] |
| `Numeric.EaseOutCubicMonotone` | mySketch.js:49-51 | `easeOutCubic` is non-decreasing on [0, 1] |
| `Numeric.EasedBetween` | mySketch.js:164-168 | easing from `r0` to `r1 >= r0` with `t` in [0, 1] stays within [r0, r1] |
| `Numeric.EasedArrives` | mySketch.js:164-168 | at `t = 1` the eased value is exactly the target |
| `BallSpec.Moved` | mySketch.js:62-72 | no per-ball pass of `draw` or `mousePressed` changes a ball's kind, parent or diameter |
| `BallSpec.RolledWellFormed` | mySketch.js:142-151 | the direction/range/offset/sign roll gives positive limits, an offset in [-distB, distA], a sign in {1, -1} and a unit direction, and touches no other field |
| `BallSpec.DiameterBounds` | mySketch.js:136-140 | a big ball's diameter is in [0.15, 0.22) of the shorter side, a small ball's in [0.5, 0.75) of its parent's |
| `BallSpec.NewBallWellFormed` | mySketch.js:132-156 | a new ball is well-formed, sits at its anchor, keeps the given kind and parent, and has a diameter within the bounds above |
| `BallSpec.ReseedKeepsIdentity` | mySketch.js:212-225 | `reseed` keeps the ball well-formed and at its anchor, takes the new direction, and leaves diameter, kind, parent, speed and burst snapshot untouched |
| `BallSpec.ProposalInRange` | mySketch.js:178-186 | the clamped step of `updateOsc` lies in [-distB, distA] with a sign in {1, -1} |
| `BallSpec.OscKeepsRange` | mySketch.js:177-190 | `updateOsc` keeps the offset in [-distB, distA] and the sign in {1, -1}, and places the ball at its anchor |
| `BallSpec.OscSignRule` | mySketch.js:178-186 | the sign becomes -1 when `r + sgn * speed > distA`, 1 when it is below `-distB`, and otherwise stays; it flips exactly when the step leaves the range |
| `BallSpec.OscMovesTowardProposal` | mySketch.js:188 | the offset moves a quarter of the way to the clamped step and never past it |
| `BallSpec.BurstStepBetween` | mySketch.js:164-168 | `updateBurst(t)` for `t` in [0, 1] puts the offset between `r_start` and `r_target` (= `distA`), reaching the target at `t = 1`, and keeps the ball well-formed and at its anchor |
| `BallSpec.BurstStepMonotone` | mySketch.js:164-168 | a later burst tick never gives a smaller offset |
| `BallSpec.FinishedAtLimit` | mySketch.js:170-174 | `finishBurst` leaves `r == distA` and `sgn == -1`, well-formed and at its anchor |
| `BallSpec.StartedBursting` | mySketch.js:159-162 | `startBurst` snapshots `r_start = r` and `r_target = distA` and changes nothing else |
| `BallSpec.MovedOk` | mySketch.js:159-190 | every per-ball pass keeps a ball well-formed; all but `startBurst` place it at its anchor; a burst step keeps and `startBurst` creates the burst snapshot |
| `BallSpec.DistanceFromAnchor` | mySketch.js:192-200 | a placed ball is at squared distance `r * r` from its anchor |
| `WorldSpec.MovePass` | mySketch.js:62-72 | a pair of loops over `bigBalls` then `smallBalls` keeps both lengths, every parent index in range, and every global other than the two lists |
| `WorldSpec.Advance` | mySketch.js:58-73 | step 1 of `draw` keeps the list lengths, the canvas and the centre |
| `WorldSpec.EmitStep` | mySketch.js:203-209 | `maybeEmit` never changes `bigBalls` and keeps parent indices in range |
| `WorldSpec.EmitFrom` | mySketch.js:76-78 | the emission loop never changes `bigBalls` and keeps parent indices in range |
| `WorldSpec.Tick` | mySketch.js:54-78 | `draw` keeps the number of big balls and parent indices in range |
| `WorldSpec.TickN` | mySketch.js:54-78 | so do `k` calls of `draw` |
| `WorldSpec.ReseedPass` | mySketch.js:120-121 | the reseed loops keep both lengths and every other global |
| `WorldSpec.Press` | mySketch.js:119-128 | `mousePressed` keeps both list lengths and parent indices in range |
| `WorldSpec.MovePassOk` | mySketch.js:62-72 | a pass keeps every ball well-formed and at its anchor, small balls at their parents' new positions, because big balls move first |
| `WorldSpec.EmitStepOk` | mySketch.js:203-209 | `maybeEmit` keeps `smallBalls.length <= MAX_SMALL`, adds at most one small ball, parented to the emitting big ball, and keeps the balls already there |
| `WorldSpec.EmitFromOk` | mySketch.js:76-78 | the emission loop keeps the cap, adds at most one ball per big ball and only appends |
| `WorldSpec.AdvanceOk` | mySketch.js:58-73 | step 1 keeps the invariant; in a burst it advances the frame by one and the burst stays on exactly while the frame is below 30 |
| `WorldSpec.TickValid` | mySketch.js:54-78 | `draw` keeps the invariant: offsets in range, signs in {1, -1}, every ball at its anchor, at most `MAX_SMALL` small balls, the burst frame in range |
| `WorldSpec.NoEmissionWhileBursting` | mySketch.js:76-78 | a tick that leaves the burst running emits nothing |
| `WorldSpec.FinishingTick` | mySketch.js:65-78 | the tick at frame 29 ends the burst at frame 30 with every big ball and every earlier small ball at `r == distA`, `sgn == -1` |
| `WorldSpec.BurstPrefix` | mySketch.js:58-64 | `k < 30` ticks into a burst the burst is on, the frame is `k`, the invariant holds and nothing was emitted |
| `WorldSpec.BurstLastsAnimFrames` | mySketch.js:58-78 | a burst begun at frame 0 is on for ticks 0..29 with frame `k`; after exactly 30 ticks it is over and every big ball and every ball there at its start has `r == distA`, `sgn == -1` |
| `WorldSpec.PressStartsBurst` | mySketch.js:119-128 | `mousePressed` keeps the invariant, starts the burst at frame 0, and aims every ball at its newly drawn `distA` from its reseeded offset, leaving diameter, kind and parent unchanged |
| `WorldSpec.RebuildValid` | mySketch.js:246-256 | `rebuildBalls` leaves exactly 5 big balls, no small balls, no burst and frame 0, with the invariant |
| `WorldSpec.NewBigsOk` | mySketch.js:250-252 | each new big ball is well-formed and centred |
| `WorldSpec.SetupValid` | mySketch.js:18-37 | `setup` leaves 10 big balls, no small balls, no burst, with the invariant |
| `WorldSpec.ResizedValid` | mySketch.js:38-46 | `windowResized` recentres on the new canvas and leaves 5 big balls, no small balls, no burst, with the invariant |
| `WorldSpec.NeverTruncates` | mySketch.js:91 | under the invariant there are fewer than 64 balls, so packing sends every ball |
| `WorldSpec.UnpackRoundTrip` | mySketch.js:95-105 | the packed entries give back each ball's `x`, `y` and diameter |
| `MySketch.OscBall.constructor` | mySketch.js:132-156 | the new object's fields are those of `NewBall` for the same draws |
| `MySketch.OscBall.StartBurst` | mySketch.js:159-162 | updates the fields as `Started` |
| `MySketch.OscBall.UpdateBurst` | mySketch.js:164-168 | updates the fields as `BurstStep` |
| `MySketch.OscBall.FinishBurst` | mySketch.js:170-174 | updates the fields as `Finished` |
| `MySketch.OscBall.UpdateOsc` | mySketch.js:177-190 | updates the fields as `OscStep` |
| `MySketch.OscBall.UpdatePos` | mySketch.js:192-200 | updates the fields as `Positioned`: anchor + direction * r, nothing else (its distance from the anchor is `DistanceFromAnchor`) |
| `MySketch.OscBall.Reseed` | mySketch.js:212-225 | updates the fields as `Reseeded` |
| `MySketch.OscBall.Apply` | mySketch.js:62-72 | one ball's call in a pass, as `Moved` |
| `MySketch.Sketch.constructor` | mySketch.js:18-37 | the globals are `Setup` of the canvas, with the invariant |
| `MySketch.Sketch.WindowResized` | mySketch.js:38-46 | the globals become `Resized` of the old ones, with the invariant |
| `MySketch.Sketch.RebuildBalls` | mySketch.js:246-256 | the globals become `Rebuild` of the old ones, with the invariant |
| `MySketch.Sketch.AddBigBalls` | mySketch.js:34-36 | appends one new centred big ball per draw and changes nothing else |
| `MySketch.Sketch.AnchorOf` | mySketch.js:193-199 | the anchor read from the objects is the `Anchor` of the abstract state |
| `MySketch.Sketch.MoveAll` | mySketch.js:62-72 | the two loops change the globals as `MovePass` |
| `MySketch.Sketch.MoveBig` | mySketch.js:62 | the big-ball loop moves every big ball at the centre and leaves the small balls |
| `MySketch.Sketch.MoveSmall` | mySketch.js:63 | the small-ball loop moves every small ball at its parent's current position and leaves the big balls |
| `MySketch.Sketch.ReseedAll` | mySketch.js:120-121 | the two reseed loops change the globals as `ReseedPass` |
| `MySketch.Sketch.ReseedBig` | mySketch.js:120 | reseeds every big ball at the centre and leaves the small balls |
| `MySketch.Sketch.ReseedSmall` | mySketch.js:121 | reseeds every small ball at its parent's position and leaves the big balls |
| `MySketch.Sketch.MaybeEmit` | mySketch.js:203-209 | the globals change as `EmitStep` and the big list is untouched |
| `MySketch.Sketch.EmitAll` | mySketch.js:76-78 | the globals change as `EmitFrom` from the first big ball |
| `MySketch.Sketch.UpdateBalls` | mySketch.js:58-73 | the globals change as `Advance` |
| `MySketch.Sketch.Step` | mySketch.js:57-78 | the globals change as `Tick`, and the invariant holds after it |
| `MySketch.Sketch.Draw` | mySketch.js:54-109 | the globals change as `Tick`, the invariant holds, and the returned arrays are `Packed` from the balls, big balls first |
| `MySketch.Sketch.MousePressed` | mySketch.js:119-128 | the globals change as `Press`, and the invariant holds after it |
| `MySketch.Sketch.PackUniforms` | mySketch.js:86-109 | `n == min(count, 64)`, `|pos| == 2n`, `|rad| == n`, entry `i` from ball `i` (big before small) with `u = x/width`, `v = 1 - y/height`, `rad = d*0.5/width` |

## Left out

- `shader.js` is not part of this model. It is per-pixel GPU code over floating point: exponentials, powers, normalisation and texture sampling.
- `rebuildBackground` (mySketch.js:227-245) is left out: it renders text into an offscreen buffer.
- The p5 plumbing is left out:
  - `createCanvas`, `frameRate`, `noStroke`, `createShader`, `shader`, `setUniform`, `rectMode`, `rect`, `resetShader`, `background`, `resizeCanvas`;
  - the reads of `windowWidth` and `windowHeight`, which become the `width` and `height` parameters of `setup` and `windowResized`.
- Randomness and trigonometry are inputs:
  - each `random()` draw is a parameter in [0, 1);
  - `random(TAU)` with `cos`/`sin` is a given unit vector.
  
  The model does not capture the order in which one random stream is consumed. For example, `maybeEmit` draws nothing once the cap is reached, while its `EmitDraw` parameter is supplied anyway.
- Numbers are reals. IEEE double rounding is not modelled, and neither is the difference between `pow(1 - t, 3)` and `(1 - t)^3`.
- `r_start` and `r_target` are undefined in the source until the first `startBurst`. The model starts them at 0. Nothing reads them before `startBurst` sets them.
- Some values the source reads from globals or from the parent object are parameters in the model:
  - `MySketch.OscBall.constructor` takes the parent's diameter, the shorter canvas side and the anchor;
  - `MySketch.OscBall.UpdateBurst`, `FinishBurst`, `UpdateOsc`, `UpdatePos`, `Reseed` and `Apply` take the anchor, which the calling `Sketch` method computes with `AnchorOf`;
  - `MySketch.OscBall.Reseed`, `MySketch.Sketch.ReseedBig` and `MySketch.Sketch.ReseedSmall` take the shorter canvas side, which `ReseedAll` computes once.
- Aliasing between ball objects is excluded by the `Separate` precondition: no object appears twice in `bigBalls` and `smallBalls`. The source never shares an object between the two lists.
- WorldSpec.BurstLastsAnimFrames: weaker than "every ball": it does not cover small balls emitted on the tick that finishes the burst, because in the code those are created after `finishBurst` and sit at their random start offset.
