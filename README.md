# A verified model of a 2-D platformer's physics, camera and levels

This project models the core of a small Rust platformer in Dafny and proves properties of
that model. The core is:

- the rectangle geometry and the player's collision resolver (`src/objects.rs`);
- the moving platforms (`src/objects.rs`);
- the camera that follows the player, colour packing and the frame renderer (`src/camera.rs`);
- the level loader (`src/map.rs`);
- the tuning constants (`src/constants.rs`).

| file | module | models |
|---|---|---|
| `common.dfy` | `Common` | `Option`, and `Outcome` (`Pass` or `Panic`) for the places where the game panics |
| `constants.dfy` | `Constants` | every constant of `src/constants.rs`, with its value |
| `objects.dfy` | `Objects` | `Vector2`, rectangles (`Rect`, `Bounds`, `Points`, containment, the overlap tests), `RigidBody` with `HandleCollisions`, `MovingObject` with `Update`, `StaticObject` |
| `camera.dfy` | `Screen` | `Rgb` packing, screen geometry, the `Camera` class (`GetGamePosition`, `KeepCenteredOnPlayer`, `RenderFrame`) |
| `map.dfy` | `Levels` | `Circle`, `Checkpoint`, the seven level tables as data (`LevelTable`), the `Map` class and `LoadMap` |

Modelling choices:

- `f64` becomes `real`.
- The `%` operator on `f64` is truncated division, so its remainder has the sign of the dividend. `Rem2` models it that way.
- `x as usize` on an `f64` drops the fraction and turns negative values into 0. `TruncToUsize` models it that way.
- A `usize` subtraction that would underflow panics, as it does in a build with overflow checks. An out-of-range buffer index panics too. So do the explicit `panic!`s, such as a negative platform movement or an unknown level. Every such panic is the `Panic` outcome.
- Entities whose fields the game updates in place are classes: `RigidBody`, `MovingObject`, `Camera` and `Map`. Their methods carry `modifies` clauses.
- The `RectObject` trait gives `RigidBody`, `MovingObject` and `StaticObject` identical `points`/`bounds` code. Here that code is defined once, on the value `Rect`, and each entity exposes its `Shape()`.

How `handle_collisions` is specified:

- `Resolve` is a recursive function: the resolver after the first `n` objects.
- `HandleCollisions` is the loop. Its postcondition ties the final centre, the final collision state and the returned platform index to `Resolve`.
- Lemmas about `Resolve` state what the loop promises:
  - which side is chosen, with the last index winning ties;
  - that exactly one coordinate moves;
  - separation after each resolution;
  - that the state ends as the state of the last object hit, and is never cleared;
  - that the platform reported is the last object landed on.

How the camera is specified:

- `Follow` is one axis of `keep_centered_on_player`. `KeepCenteredOnPlayer` is proved to apply it to each axis independently.
- Lemmas show:
  - the camera does not move inside the dead zone;
  - it never over-corrects;
  - a step large enough to reach the dead zone stops exactly at its edge.
- `RenderFrame` is proved to write the packed colour of every pixel's world point into cell `y * WINDOW_WIDTH + x`. It panics exactly when the buffer is shorter than a window, and leaves later cells alone.

## Model

| member | source | states |
|---|---|---|
| Constants.WindowSize | src/constants.rs:13-14 | the window is 1040 by 780 pixels |
| Constants.DeadZoneBounds | src/constants.rs:47-58 | the dead-zone expressions evaluate to 426.4, 613.6, 221.75 and 358.25, so each axis's dead zone is non-empty |
| Constants.VerticalDeadZoneCentre | src/constants.rs:53-58 | the vertical dead zone is centred on half the window width plus the focus offset, not on half the window height |
| Constants.FrameLimit | src/constants.rs:60 | the frame limit is 6 ms, the truncation of 1000 / 144 |
| Constants.ColoursFitIn24Bits | src/constants.rs:6-10 | every colour constant is below 2^24 |
| Constants.GravityOrder | src/constants.rs:39-40 | falling gravity is stronger than rising gravity, and both are negative |
| Constants.FrictionOrder | src/constants.rs:19-28 | 0 < air friction < ground friction < 1, and the air acceleration ratio lies strictly between 0 and 1 |
| Objects.LerpLinear | src/objects.rs:32-37 | `lerp(a, b, t)` is `a + t·(b − a)` coordinate-wise |
| Objects.LerpEndpoints | src/objects.rs:32-37 | `lerp` gives `a` at t = 0 and `b` at t = 1 |
| Objects.LerpBetween | src/objects.rs:30-37 | for t in [0, 1], each coordinate of the interpolated point lies between the two end points' coordinates |
| Objects.Bounds | src/objects.rs:269-283 | the extents are width and height apart with the centre as their midpoint; left ≤ right exactly when width ≥ 0, and bottom ≤ top exactly when height ≥ 0 (the same code at src/objects.rs:414-428 and 470-484) |
| Objects.Points | src/objects.rs:242-267 | the four corners, top-left, top-right, bottom-right and bottom-left, are each a pair of the rectangle's extents |
| Objects.BoundsContainPoint | src/objects.rs:135-140 | a point is inside exactly when it lies within the extents on both axes, edges included |
| Objects.ContainsPoint | src/objects.rs:66-82 | `contains_point` agrees with `bounds_contain_point` on the rectangle's own bounds |
| Objects.CornersContained | src/objects.rs:242-267 | for non-negative dimensions, every corner `points()` returns is contained in the rectangle |
| Objects.AxisHit | src/objects.rs:86-126 | when the four endpoints of two ordered intervals are pairwise distinct, the one-axis test is exactly open-interval overlap |
| Objects.CollidesWithIsOverlap | src/objects.rs:84-132 | with no shared edge coordinates, `collides_with` is interior overlap on both axes, and it is symmetric |
| Objects.TouchingIntervalsDoNotHit | src/objects.rs:92-101 | an interval whose high end is the other's low end does not hit it |
| Objects.IdenticalIntervalsDoNotHit | src/objects.rs:92-101 | an interval does not hit an identical interval |
| Objects.EdgeContactIsNoCollision | src/objects.rs:128-132 | a rectangle does not collide with a copy of itself, and one whose right edge is another's left edge does not collide with it |
| Objects.StrictContainmentCollides | src/objects.rs:84-132 | a rectangle strictly inside another collides with it, whichever of the two asks |
| Objects.CollisionNotSymmetricOnSharedEdge | src/objects.rs:84-132 | a concrete pair sharing an edge where A collides with B but B does not collide with A |
| Objects.ReduceMin | src/objects.rs:206-212 | one `reduce` step keeps the accumulator only if it is strictly smaller; the result is a minimum, and every later index holds a strictly larger value |
| Objects.MinIndex | src/objects.rs:203-212 | the index picked is valid, holds the minimum, and is the last position of it (ties go to the later index) |
| Objects.MinIndexOfStrictMinimum | src/objects.rs:206-212 | a strictly smallest element is the one picked |
| Objects.ChosenSide | src/objects.rs:206-221 | the side chosen is one of the four, so the `panic!` arms at src/objects.rs:220 and 229 cannot be reached |
| Objects.SideState | src/objects.rs:223-230 | the recorded state is never `NoCollision` |
| Objects.StepResolves | src/objects.rs:193-234 | a resolving step uses the smallest depth (the last one on ties, from the bounds taken before the loop) and moves one coordinate only. The body ends flush with the chosen side, one unit below it for the bottom side. The state matches the side, and the index is recorded exactly when the body lands on top |
| Objects.StepPlatform | src/objects.rs:232-234 | a step reports this object's index exactly when it pushes the body on top, otherwise keeps the earlier report |
| Objects.StepSkips | src/objects.rs:188-191 | an object that does not collide with the body changes nothing |
| Objects.StepSeparates | src/objects.rs:214-221 | after a resolving step against an object of positive size the body no longer collides with it |
| Objects.ResolveNoHits | src/objects.rs:184-237 | if no object is hit, the centre and state stay as they were and no platform is reported |
| Objects.ResolveAfterLastHit | src/objects.rs:187-235 | objects after the last hit leave the resolution unchanged |
| Objects.ResolveActiveIsLastHit | src/objects.rs:223-230 | the final collision state is the state of the last object hit |
| Objects.ResolveNeverClears | src/objects.rs:182-237 | the final state is `NoCollision` exactly when it started so and no object was hit |
| Objects.ResolvePlatformStep | src/objects.rs:232-234 | each object updates the reported platform only when the body lands on it |
| Objects.ResolvePlatform | src/objects.rs:185-237 | the result is `Some(j)` exactly when object j was the last one the body was pushed on top of |
| Objects.ResolveNoPlatform | src/objects.rs:185-237 | the result is `None` exactly when no object was resolved through its top |
| Objects.LandingScenario | src/objects.rs:179-238 | a 20×40 body sunk 5 units into a 100×10 block ends on top of it, centre at y = 30, state `OnTop`, platform 0 |
| Objects.StaleDepthsScenario | src/objects.rs:184-219 | with the depths taken from the bounds before the loop, a 20×20 body pushed right to x = 15 by one object is then pushed 22 units left out of a second, to x = −7, where it overlaps the first again, although a 3-unit push right would have cleared the second |
| Objects.StaleFirstPush | src/objects.rs:184-230 | the first step of that scenario: depths [25, 15, 60, 60] pick the right side and the centre moves to x = 15 |
| Objects.StaleSecondPush | src/objects.rs:184-230 | the second step: the pre-loop depths against the second object are [7, 18, 60, 60], so the left side is picked and the centre moves to x = −7 |
| Objects.RigidBody.FromState | src/objects.rs:159-167 | a body is created with the given centre, size and velocity |
| Objects.RigidBody.MoveBy | src/objects.rs:169-173 | the centre moves by the vector, and nothing else changes |
| Objects.RigidBody.HandleCollisions | src/objects.rs:175-238 | the new centre, the collision state left in `active_collision` and the returned index are `Resolve` of the body as it was on entry; size and velocity do not change |
| Objects.Trunc | src/objects.rs:360 | truncation toward zero is an integer within one of its argument, on the same side of zero |
| Objects.Rem2 | src/objects.rs:359-360 | `r % 2.0` differs from r by an even integer and lies in [0, 2) for r ≥ 0, or (−2, 0] for r < 0 |
| Objects.Rem2ShiftByTwo | src/objects.rs:360 | adding 2 to a non-negative value does not change its remainder |
| Objects.Rem2Small | src/objects.rs:360 | a value in [0, 2) is its own remainder |
| Objects.AdvancePeriodic | src/objects.rs:357-360 | with a positive move time, moving a further period of 2·move_time returns to the same progress |
| Objects.AdvanceWithinPeriod | src/objects.rs:357-360 | within one period, the progress grows by `amount / move_time` |
| Objects.LerpAmountTriangle | src/objects.rs:362-375 | the lerp factor is a triangle wave: it stays in [0, 1], is 0 at the start and 1 at the turn, and is symmetric about 1 |
| Objects.PathPositionOnSegment | src/objects.rs:369-379 | the platform is at its start at progress 0, at its end at progress 1, and always within the box spanned by the two |
| Objects.PathPositionSymmetric | src/objects.rs:369-379 | the way back retraces the way out: progress 2 − t stands where t does |
| Objects.PlatformScenario | src/objects.rs:345-367 | with move time 10, three updates by 5 give progress 0.5 (leaving), 1.0 (leaving) and 1.5 (returning) |
| Objects.HalfWayScenario | src/objects.rs:377-379 | half way out from (0, 0) to (100, 0) the platform stands at (50, 0) |
| Objects.MovingObject.New | src/objects.rs:313-339 | a new platform keeps its parameters and starts at its start point: progress 0, leaving, no last move |
| Objects.MovingObject.Update | src/objects.rs:341-383 | a negative amount panics and changes nothing. Zero sets `Standstil` and nothing else. A positive amount advances the progress modulo 2 and sets the direction: leaving exactly when the progress is ≤ 1. It puts the centre at the lerp of the triangle-wave factor and records the displacement as new centre − old centre. For a positive move time the progress stays in [0, 2), and the centre stays on the path |
| Screen.FromU32 | src/camera.rs:29-35 | red, green and blue are bits 16–23, 8–15 and 0–7 of the word |
| Screen.ToU32 | src/camera.rs:37-40 | the packed word is below 2^24 (so the `u32` sum cannot overflow), with blue, green and red in bytes 0, 1 and 2 |
| Screen.PackUnpack | src/camera.rs:29-40 | `to_u32(from_u32(n))` is the low 24 bits of n |
| Screen.UnpackPack | src/camera.rs:29-40 | `from_u32(to_u32(c))` is c |
| Screen.NewRgbByteOrder | src/camera.rs:25-27 | `Rgb::new(a, b, c)` has red a, blue b and green c: it packs to a·2^16 + c·2^8 + b |
| Screen.ConfiguredColoursRoundTrip | src/constants.rs:6-10 | every configured colour survives `from_u32` then `to_u32` |
| Screen.TruncToUsize | src/camera.rs:70 | the cast gives 0 below 1, and the integer part of a non-negative value |
| Screen.PixelIndexBound | src/camera.rs:145 | every window pixel's buffer index is below W·H |
| Screen.LastPixelIndex | src/camera.rs:140-145 | the last pixel uses cell W·H − 1, so a buffer of exactly W·H cells suffices |
| Screen.PixelIndexDistinct | src/camera.rs:145 | distinct pixels write distinct cells |
| Screen.FollowAxis | src/camera.rs:76-98 | the statements of one axis of `keep_centered_on_player` compute `Follow` |
| Screen.StepNonNegative | src/camera.rs:77-81 | the eased step is non-negative for non-negative frame time and easing |
| Screen.FollowNoOvershoot | src/camera.rs:76-122 | inside the dead zone the coordinate is unchanged. Below it, the new offset d′ satisfies d ≤ d′ ≤ MIN; above it, MAX ≤ d′ ≤ d (both for non-negative frame time and easing) |
| Screen.FollowClamps | src/camera.rs:83-97 | a step that would carry the offset past the dead zone's edge leaves the player exactly on that edge |
| Screen.FollowSettles | src/camera.rs:76-98 | once the player is inside the dead zone, following again changes nothing |
| Screen.Camera.New | src/camera.rs:59-63 | the bottom-left corner is (x, y) |
| Screen.Camera.GetGamePosition | src/camera.rs:67-72 | it panics exactly when the truncated row exceeds the window height. Otherwise x = corner.x + px and y lies in [corner.y, corner.y + H]. For a row in [0, H), y lies in [corner.y + 1, corner.y + H]. For a row below 1, y = corner.y + H |
| Screen.Camera.GamePositionOfPixel | src/camera.rs:143 | a pixel inside the window maps, without panicking, to `PixelToWorld` of that pixel |
| Screen.Camera.KeepCenteredOnPlayer | src/camera.rs:75-123 | each coordinate of the corner becomes `Follow` of that axis alone, with that axis's dead zone and easing; the player is not modified |
| Screen.Camera.RenderFrame | src/camera.rs:131-148 | it panics exactly when the buffer is shorter than W·H. Otherwise cell `y·W + x` of every window pixel holds the packed colour of the world point it shows. Cells from W·H on are unchanged |
| Levels.NewCheckpoint | src/map.rs:15-26 | the indicator is kept, and the respawn body is player-sized, at rest and centred on the given point |
| Levels.Indicators | src/map.rs:339-352 | two markers per platform, the start marker at index 2i and the end marker at 2i + 1, in platform order |
| Levels.Map.New | src/map.rs:50-64 | the map is empty: no objects, a zero-size black goal, two distinct default bodies, lowest point 0 |
| Levels.Map.Reset | src/map.rs:68 | the map is replaced by a new one, with fresh bodies |
| Levels.Map.LoadMap | src/map.rs:67-353 | it panics exactly for a level outside 1 to 7. After a load every field is fixed by the level alone. The map holds `LevelTable(level)`: its blocks, checkpoints, goal, respawn body and lowest point. Its platforms are separate new objects, each built from its table row and at its start. The player is a new copy of the respawn body, and the markers are `Indicators` of the platforms. So nothing of the previous level survives. The design rules of `LevelInvariant` hold |
| Levels.Map.LoadTable | src/map.rs:73-331 | one arm of the `match`: afterwards the map holds table t (every field the arm writes equals t's) and keeps the design rules; the player and the markers are untouched |
| Levels.Map.StartLevel | src/map.rs:336-352 | after the `match`: the player is a new body with the respawn body's state, the markers are `Indicators` of the platforms, and the loaded table is kept |
| Levels.Map.MarkPlatformEnds | src/map.rs:339-352 | the loop pushes start and end markers for every platform, giving `Indicators` of the platforms |
| Levels.NewPlatforms | src/map.rs:98-104 | the `vec![MovingObject::new(..), ..]` of a table: one new platform per row, in order, each a separate object with the row's start, end, size and move time, at its start (the same construction at src/map.rs:127-133, 156-171, 196-202, 226-241 and 278-307) |
| Levels.LevelTable | src/map.rs:72-334 | the `match`: there is a table exactly for levels 1 to 7 |
| Levels.LevelTableWellFormed | src/map.rs:73-331 | every table keeps the design rules: a player-sized respawn body at rest, platforms with a positive move time, every checkpoint's respawn body resting on one of the level's blocks, a goal of radius 20 in the goal colour, and a negative lowest point |
| Levels.Level6WellFormed | src/map.rs:217-259 | the checkpoint of level 6 rests on block 1, at (80, 360) |
| Levels.Level7WellFormed | src/map.rs:261-331 | the checkpoints of level 7 rest on blocks 4 and 9, at (1950, 370) and (4120, 520) |
| Levels.LevelTableCounts | src/map.rs:73-331 | the levels have 2, 2, 4, 4, 6, 5 and 13 blocks, 0, 1, 1, 2, 1, 2 and 4 platforms, and checkpoints only in levels 6 (one) and 7 (two) |
| Levels.Level1 | src/map.rs:73-90 | no contract of its own: the literals of level 1, specified by `LevelTableWellFormed` and `LevelTableCounts`, and loaded as stated by `Map.LoadMap` |
| Levels.Level2 | src/map.rs:92-117 | no contract of its own: the literals of level 2, specified as for `Level1` |
| Levels.Level3 | src/map.rs:119-146 | no contract of its own: the literals of level 3, specified as for `Level1` |
| Levels.Level4 | src/map.rs:148-184 | no contract of its own: the literals of level 4, specified as for `Level1` |
| Levels.Level5 | src/map.rs:186-215 | no contract of its own: the literals of level 5, specified as for `Level1` |
| Levels.Level6 | src/map.rs:217-259 | no contract of its own: the literals of level 6, specified as for `Level1` and by `Level6WellFormed` |
| Levels.Level7 | src/map.rs:261-331 | no contract of its own: the literals of level 7, specified as for `Level1` and by `Level7WellFormed` |
| Levels.IndicatorAt | src/map.rs:341-351 | no contract of its own: one platform end marker, specified through `Indicators` |
| Objects.Add | src/objects.rs:22-24 | no contract of its own: coordinate-wise sum; `RigidBody.MoveBy` and `LerpLinear` state its use |
| Objects.Multiply | src/objects.rs:26-28 | no contract of its own: scaling by a scalar; specified through `LerpLinear` |
| Objects.Lerp | src/objects.rs:30-37 | no contract of its own: specified by `LerpLinear`, `LerpEndpoints` and `LerpBetween` |
| Objects.Sandwich | src/objects.rs:47-49 | no contract of its own: strict betweenness, specified through `AxisHit` |
| Objects.CollidesWithY | src/objects.rs:86-104 | no contract of its own: `AxisHit` on the x extents (despite the name); specified by `AxisHit` and `CollidesWithIsOverlap` |
| Objects.CollidesWithX | src/objects.rs:108-126 | no contract of its own: `AxisHit` on the y extents; specified by `AxisHit` and `CollidesWithIsOverlap` |
| Objects.CollidesWith | src/objects.rs:128-132 | no contract of its own: specified by `CollidesWithIsOverlap`, `EdgeContactIsNoCollision`, `StrictContainmentCollides` and `CollisionNotSymmetricOnSharedEdge` |
| Objects.Depths | src/objects.rs:195-202 | the four depths, left, right, bottom, top; what they mean is stated by `StepResolves` |
| Objects.DepthsArePushDistances | src/objects.rs:195-221 | each depth is the distance the push through that side moves the body: left, right and top exactly, the bottom with its one-unit bias added, so for the body as it stood before the loop the smallest depth is the smallest correction |
| Objects.PushOut | src/objects.rs:214-221 | no contract of its own: the move through the chosen side; specified by `StepResolves` and `StepSeparates` |
| Objects.Step | src/objects.rs:187-235 | no contract of its own: one loop iteration; specified by `StepResolves`, `StepPlatform`, `StepSkips` and `StepSeparates` |
| Objects.Resolve | src/objects.rs:184-237 | no contract of its own: the loop after n objects; specified by the `Resolve…` lemmas and tied to the loop by `RigidBody.HandleCollisions` |
| Objects.Advance | src/objects.rs:357-360 | no contract of its own: specified by `AdvancePeriodic`, `AdvanceWithinPeriod` and `Rem2` |
| Objects.LerpAmount | src/objects.rs:369-375 | no contract of its own: specified by `LerpAmountTriangle` |
| Objects.DirectionAt | src/objects.rs:363-367 | no contract of its own: specified by `MovingObject.Update` and `PlatformScenario` |
| Objects.PathPosition | src/objects.rs:369-379 | no contract of its own: specified by `PathPositionOnSegment`, `PathPositionSymmetric` and `HalfWayScenario` |
| Screen.NewRgb | src/camera.rs:25-27 | no contract of its own: specified by `NewRgbByteOrder` |
| Screen.Follow | src/camera.rs:76-98 | no contract of its own: one axis of the camera; specified by `FollowNoOvershoot`, `FollowClamps` and `FollowSettles`, and computed by `FollowAxis` |
| Screen.PixelToWorld | src/camera.rs:67-72 | no contract of its own: the world point of a pixel; tied to `get_game_position` by `Camera.GamePositionOfPixel` |
| Screen.BufferIndex | src/camera.rs:145 | no contract of its own: row-major cell index; specified by `PixelIndexBound`, `LastPixelIndex` and `PixelIndexDistinct` |
## Left out

- I/O and the game loop: `src/main.rs` (window handling through an external crate, the level loop), `src/game_player.rs` and `src/map_loader.rs` are not part of this model.
- The per-frame integrator is not in the modelled files: gravity, friction, jumping, riding platforms, checkpoint and goal triggers, and the circle test.
- `Rgb::lerp` and `Rgb::blend` (src/camera.rs:21-23, 43-49) are left out. They depend on float rounding and on saturating float-to-byte casts.
- IEEE-754 behaviour (rounding, infinities, NaN) is not modelled; every coordinate is an exact real.
- Objects.MovingObject.Update: requires a non-zero move time. Dividing by a zero `move_time` in `f64` gives an infinity and then NaN rather than a panic, and NaN has no counterpart among the reals.
- Objects.MovingObject.Update: the range [0, 2) for the progress is only promised for a positive move time and a non-negative starting progress. With a negative move time the remainder can be negative, as `%` on `f64` allows.
- Objects.MovingObject.Update: requires `Valid()`, the invariant that the centre lies on the path. The constructor establishes it and `Update` preserves it.
- `Vector2::set` and `Vector2::add_to` are in-place assignments of a value. They appear as field assignments, as in `MoveBy`, rather than as separate members.
- The `fallthrough` and `static_friction` flags are stored but never read, so they are not modelled. The `RigidBody` literals in src/map.rs leave `static_friction` out.
- `MovingObject::new` (src/objects.rs:315-322) takes `fallthrough` as a sixth argument, but the level tables in src/map.rs pass only five. `MovingObject.New` takes those five.
- `src/map.rs` uses items that the modelled files do not define: `Circle`, `StaticObject::new`, `RigidBody::new`, `start_pos()`/`end_pos()`, `PLAYER_WIDTH`, `PLAYER_HEIGHT`, and the indicator radius and colours. `Circle` and `StaticObject` are plain records. The default body, the player size, the radius and the three colours are constants whose values are left abstract.
- `self.player = self.player_respawn` (src/map.rs:337) does not compile as written: it moves a non-`Copy` `RigidBody` out of `&mut self`. This model reads it as a copy. The player is a fresh body with the same state, so updating one leaves the other alone.
- The render callback of `render_frame` is an opaque function from world point to colour, with the map bound in; what it draws is not modelled.
- Screen.Camera.RenderFrame: when the buffer is too short, the cells written before the panic are not described.
- Screen.Camera.GetGamePosition: `usize::MAX` is not modelled. A row beyond it saturates in the source, and it panics here like any other row above the window height.
- A `usize` subtraction that would underflow is modelled as a panic, as in a build with overflow checks (the debug profile). In a release build, `WINDOW_HEIGHT - point.y as usize` (src/camera.rs:70) wraps around instead, and `get_game_position` returns a point far outside the window.
- The level number is a `nat`; `u32` adds nothing, since every level outside 1 to 7 panics.
- Objects.DepthsArePushDistances: the smallest depth is the smallest correction only until the first object moves the body. `handle_collisions` takes `self_bounds` once (src/objects.rs:184) and computes every later depth from it, while each push starts from the current centre (`StaleDepthsScenario`). The model follows the code.
- The comment at src/objects.rs:129 says colliding edges count as a collision. The code does not count them (`EdgeContactIsNoCollision`), and the model follows the code.
- `keep_centered_on_player` repeats one block of statements per axis. `FollowAxis` is that block written once and called for each axis.
- `render_frame` calls `get_game_position` and keeps the result. For a pixel inside the window that call cannot panic (`GamePositionOfPixel`), so `RenderFrame` takes the value it returns.
- `load_map` is one `match` whose arms assign literals. Here each arm's literals are a value, `Level1` to `Level7`, and `LevelTable` is the `match`. One method, `Map.LoadTable`, writes a table into the map. Levels 1 to 5 assign no checkpoints, and level 1 assigns no platforms; their tables hold empty lists, which are the values the reset leaves.
- `vec![MovingObject::new(..), ..]` allocates the platforms of a table one after the other. `NewPlatforms` does the same with a loop over the table's rows.
- Building the markers: the `for_each` of src/map.rs:341-352 pushes onto the map's list. `MarkPlatformEnds` pushes onto a local list, which then replaces the empty list the reset left.
