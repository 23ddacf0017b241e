# Flock engine model

A Dafny model of `BoidFlock`, the boids engine in `flock/src/lib.rs`. The
engine keeps two buffers of boids (position and velocity each) and a selector
`cur` naming the current one. Each `update` computes the next state of every
boid from the current buffer alone and writes it into the same slot of the
other buffer. It then flips `cur`. A boid's next state applies five rules in
order, then moves the boid by its final velocity:

1. cohesion: steer toward the centre of the boids within the perception radius;
2. separation: push away from every boid inside the minimum distance;
3. alignment: steer toward 1.2 times the neighbours' mean velocity;
4. limits: clamp the speed, bounce off the screen edge with a one-step
   look-ahead, then accelerate away from the walls;
5. goal: steer toward the goal, when one is set.

Vector components are `real`, so the model keeps the logic and drops `f32`
rounding.

Modules, in dependency order:

- `Options`: the optional goal.
- `Vectors`: `Vec2` arithmetic.
- `Constants`: the tuning constants.
- `Boids`: a boid and its random construction.
- `Neighbours`: the neighbour scan shared by rules 1 to 3, as prefix counts and
  sums.
- `Rules`: the five rules as functions, with their properties.
- `RuleScans`: the rules as loops and in-place updates that mirror the source.
  Each is proved equal to its function.
- `Flocks`: the double-buffered flock, `new`, the accessors and `update`.

## Model

| member | source | states |
|---|---|---|
| Constants.DerivedConstants | flock/src/lib.rs:17-23 | Each squared or per-frame constant equals its defining expression; the per-frame maximum speed is 25/3. |
| Constants.ConstantsConsistent | flock/src/lib.rs:51 | The constructor's check `MAX_SPEED_SQ > MIN_SPEED_SQ` holds; the separation radius is inside the perception radius. |
| Boids.ScaleDraw | flock/src/lib.rs:34-35 | A draw in [0, 1) stretched over a positive extent lands in [0, extent). |
| Boids.SpawnInRange | flock/src/lib.rs:32-37 | With unit draws, a new boid lies in [0,size.x) x [0,size.y) for a positive size. Both velocity components lie in [0, MaxSpeedFrame). |
| Boids.Spawn | flock/src/lib.rs:32-37 | `Boid::new` from four draws taken in the order position x, position y, velocity x, velocity y; positions scale by the world size and velocities by MaxSpeedFrame, the exact square root of MaxSpeedSq. Its ranges are stated by `SpawnInRange` and `NewBoidsInRange`. |
| Boids.Integrate | flock/src/lib.rs:115 | The move keeps the velocity and displaces the position by exactly that velocity. |
| Neighbours.NearCountIsSetSize | flock/src/lib.rs:125-134 | The running `found` counter equals the number of distinct indices that are not self and lie strictly within the limit. |
| Neighbours.SelfNeverNear | flock/src/lib.rs:128 | The boid's own index is never counted, whatever the limit. |
| Neighbours.NoNeighboursNoSums | flock/src/lib.rs:125-134 | With no qualifying boid, the count is 0 and the position, velocity and offset sums are zero. |
| Neighbours.ScanIgnoresSelf | flock/src/lib.rs:127-133 | Replacing the boid's own slot leaves the count and every sum unchanged. |
| Neighbours.OffsetSumFromPosSum | flock/src/lib.rs:135-137 | Summing positions and subtracting `found` copies of the boid's position gives the sum of the offsets to the neighbours. |
| Rules.RuleOne | flock/src/lib.rs:123-139 | Cohesion never moves the boid; it only changes the velocity. |
| Rules.CohesionMeanOffset | flock/src/lib.rs:135-138 | With n > 0 neighbours the velocity changes by (sum of offsets to them) / (200 n): 1/200 of the way to the centre. With none, the boid is unchanged. |
| Rules.RuleTwo | flock/src/lib.rs:141-150 | Separation never moves the boid. |
| Rules.SeparationSumsOffsets | flock/src/lib.rs:143-149 | After the loop has seen k boids, the velocity is the start velocity minus 1/20 of the summed offsets to every too-close boid among them, so none is skipped. |
| Rules.RuleThree | flock/src/lib.rs:152-168 | Alignment never moves the boid. |
| Rules.AlignmentClosesGap | flock/src/lib.rs:164-167 | With a neighbour, the gap between the velocity and 1.2 times the neighbours' mean velocity shrinks to 0.95 of itself. |
| Rules.CloseIsPerceived | flock/src/lib.rs:17-18 | A boid inside the separation radius is also inside the perception radius. |
| Rules.NoCloseBoidNoPush | flock/src/lib.rs:141-150 | With no other boid strictly inside the minimum distance, separation returns the boid unchanged, even when boids lie within the perception radius. |
| Rules.IsolatedBoidUnsteered | flock/src/lib.rs:123-168 | With no other boid strictly inside the perception radius, rules 1, 2 and 3 each return the boid unchanged. |
| Rules.LoneBoidUnsteered | flock/src/lib.rs:123-168 | In a flock of one, rules 1 to 3 in sequence are the identity. |
| Rules.RulesIgnoreOwnSlot | flock/src/lib.rs:128 | What the buffer holds at the boid's own index makes no difference to rules 1, 2 or 3. |
| Rules.ScaleToMax | flock/src/lib.rs:175 | Scaling by MaxSpeedFrame over the true length gives a squared length of exactly MaxSpeedSq. |
| Rules.Clamp | flock/src/lib.rs:173-176 | After the clamp the squared speed is at most MaxSpeedSq. A velocity already within it is unchanged. A faster one ends exactly at the limit. |
| Rules.ClampKeepsDirection | flock/src/lib.rs:174-175 | A too-fast velocity is multiplied by a factor strictly between 0 and 1, so its direction is kept. |
| Rules.BounceAxis | flock/src/lib.rs:180-186 | The component becomes -Bounciness times itself exactly when the predicted coordinate is outside and the velocity points further out. Afterwards it points back in. A boid predicted inside is untouched. |
| Rules.WallAxis | flock/src/lib.rs:189-200 | On a positive extent, WallAcc is added within the low 10% margin and subtracted within the high 10% margin. In the middle band nothing changes. |
| Rules.RuleFour | flock/src/lib.rs:170-201 | Rule 4 never moves the boid. |
| Rules.RuleFourAtRest | flock/src/lib.rs:170-201 | A boid that is mid-field, within the speed limit and heading for a point on screen leaves rule 4 unchanged. |
| Rules.RuleFive | flock/src/lib.rs:203-206 | Goal seeking never moves the boid. |
| Rules.GoalRaisesApproach | flock/src/lib.rs:205 | The velocity's component along the offset to the goal grows by 1/200 of the squared distance, strictly when the boid is away from the goal. |
| RuleScans.ScanRuleOne | flock/src/lib.rs:123-139 | The counting loop of `rule_one` computes `RuleOne`. |
| RuleScans.ScanRuleTwo | flock/src/lib.rs:141-150 | The in-place loop of `rule_two` computes `RuleTwo`. |
| RuleScans.ScanRuleThree | flock/src/lib.rs:152-168 | The counting loop of `rule_three` computes `RuleThree`. |
| RuleScans.ApplySpeedLimit | flock/src/lib.rs:173-176 | The in-place speed limit computes `Clamp`. |
| RuleScans.ApplyBounce | flock/src/lib.rs:180-186 | The two in-place bounce checks compute `BounceAxis` on each axis. |
| RuleScans.ApplyWalls | flock/src/lib.rs:189-200 | The four sequential wall checks compute `WallAxis` on each axis. |
| RuleScans.ApplyRuleFour | flock/src/lib.rs:170-201 | `rule_four` as written computes `RuleFour`. |
| Flocks.Spawned | flock/src/lib.rs:63-65 | Pushing `count` spawned boids yields `count` boids; boid i is built from draws 4i to 4i+3. |
| Flocks.Flock.Valid | flock/src/lib.rs:88-89 | Both buffers hold exactly `len` boids, the checks `update` asserts. `New` establishes it, and `Update` and `ResizeKeepsAgents` show it is preserved. |
| Flocks.New | flock/src/lib.rs:50-67 | A new flock is valid, holds `count` boids, has equal buffers, buffer 0 current and no goal. Slot i holds the boid spawned from draws 4i to 4i+3. |
| Flocks.NewBoidsInRange | flock/src/lib.rs:32-37 | With unit draws and a positive size, every boid of a new flock starts on screen with velocity components in [0, MaxSpeedFrame). |
| Flocks.Agents | flock/src/lib.rs:70-72 | The iterated buffer holds `len` boids. |
| Flocks.Resize | flock/src/lib.rs:74-77 | Requires both new extents positive, then stores the new size. |
| Flocks.SetGoal | flock/src/lib.rs:79-81 | Stores the new goal. |
| Flocks.GetGoal | flock/src/lib.rs:83-85 | Returns the stored goal; `GoalRoundTrip` states that it reads back what `set_goal` stored. |
| Flocks.SettersTouchOneField | flock/src/lib.rs:74-81 | `resize` and `set_goal` change nothing but their own field. |
| Flocks.GoalRoundTrip | flock/src/lib.rs:79-85 | `get_goal` after `set_goal(g)` returns g; setting the goal just read changes nothing. |
| Flocks.ResizeKeepsAgents | flock/src/lib.rs:74-77 | Resizing keeps the flock valid and moves no boid. |
| Flocks.Step | flock/src/lib.rs:102-117 | The next state of boid i moved it by exactly its final velocity. |
| Flocks.NextBuffer | flock/src/lib.rs:102-118 | The written buffer has one slot per boid, and slot i holds the step of boid i. |
| Flocks.Update | flock/src/lib.rs:87-121 | After the update, the flock is valid, `cur` is flipped, and `len`, `size` and `goal` are unchanged. The previously current buffer is untouched. Slot i of the new current buffer is the step of boid i. |
| Flocks.UpdateLoop | flock/src/lib.rs:87-121 | The slot-by-slot overwrite of the other buffer, using the rule loops, computes `Update`. |
| Flocks.UpdateTwiceRestoresSelector | flock/src/lib.rs:91-120 | Two updates make the original buffer current again. |
| Flocks.UpdateIgnoresOtherBuffer | flock/src/lib.rs:93-118 | The old contents of the buffer being overwritten make no difference to the result. |
| Flocks.IsolatedStep | flock/src/lib.rs:102-118 | A boid with nobody within perception and no goal is moved by rule 4 alone. |
| Flocks.LoneBoidDrifts | flock/src/lib.rs:87-121 | A lone boid that is mid-field, within the speed limit and heading on screen flies straight on when no goal is set. |
| Flocks.GoalAddsPull | flock/src/lib.rs:109-113 | A goal adds exactly (goal - pos)/200 to the final velocity, compared with the same step without one. |

## Left out

- `flock/src/main.rs` is not part of this model. It holds the window event loop, drawing, the child process, the reader thread and the line parsing: all I/O and concurrency.
- The Python tracker scripts are not part of this model. They do camera capture and image processing through foreign libraries.
- `f32` arithmetic: components are exact reals. Rounding, NaN and infinities are not modelled.
- `f32::sqrt` is a parameter `root` that every caller must show satisfies `IsSqrt` (a non-negative root of every non-negative real).
- Boids.Spawn: the source scales the velocity draws by `MAX_SPEED_SQ.sqrt()`. The model uses its exact value `MaxSpeedFrame`, which `DerivedConstants` shows squares to `MaxSpeedSq`.
- Random numbers: the generator's seeding from `getrandom` and its "Unable to RNG" panic are not modelled. `New` takes the draws (four per boid, in the order position x, position y, velocity x, velocity y) as a parameter. The `rng` field is dropped from the state, since only `new` uses it.
- `split_at_mut` and the other borrow mechanics: the two buffers are two sequences, and `cur` is a number below 2.
- The `assert_eq!` length checks at the top of `update` are the precondition `Valid()`, which `New` establishes and `Update` and `Resize` preserve.
- `resize` panics on a non-positive extent; `Resize` requires positive extents instead.
- No speed bound is claimed after a whole step. The wall push and the goal pull come after the clamp, so the source does not keep the speed within `MAX_SPEED_FRAME`.
- `MIN_SPEED` and `MIN_SPEED_SQ` are used only in the constructor's check (`ConstantsConsistent`); no minimum speed is enforced.
- Rules.GoalRaisesApproach: strict growth is stated for a positive squared distance to the goal rather than for "goal differs from position". Deriving one from the other needs reasoning about squares that the solver does not do reliably.
- Rules.BounceAxis: the "points back in" guarantees need a non-negative extent. `resize` rejects non-positive sizes, but `new` stores `size` unchecked (flock/src/lib.rs:50-58), so `New` accepts any size.
