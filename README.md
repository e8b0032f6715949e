# Platformer core, modelled in Dafny

This project models the deterministic logic of a raylib 2D platformer.
The player runs and jumps across static and moving platforms, fights melee and ranged enemies with a sword, and enters a three-letter name for the top-ten score table.
The model covers:

- **Curves.** Moving platforms follow Bézier curves. Their coefficients come from a Pascal's triangle built row by row. A control-point count is accepted only if it chains whole curve segments. Each path is sampled into 51 waypoints.
- **Obstacles.** A moving obstacle steps along its waypoint list forward and backward. The backward leg turns at index 1, not at 0.
- **Kinematics.** The player and both enemy kinds accelerate, clamp, snap to zero, fall under gravity and jump. They resolve collisions axis by axis against the first obstacle they touch.
- **Level loader.** It reads the player, static obstacles and moving obstacles from a stream of numbers. It rejects bad curves and regenerates the coefficient table.
- **Properties loader.** It dispatches `KEY value` lines onto the fields of the physics configuration.
- **Combat.** The attack block of the main loop kills and counts enemies and turns bullets back. The kill-threshold escalation adds enemies and speeds them up. The sword timers count down at a fixed step.
- **UI data.** This covers:
  - the four-byte name buffer;
  - the heart bar;
  - label alignment;
  - reverse-order event dispatch;
  - the top-ten score merge;
  - the score screen's reading loop;
  - the state-to-menu mapping;
  - the game-over input gate.

Each source file is one Dafny module:

- `headers/bezier.hpp` → `Bezier` (`bezier.dfy`)
- `headers/entity.hpp` → `Entities` (`entity.dfy`)
- `headers/enemies.hpp` → `Enemies` (`enemies.dfy`)
- `headers/level.hpp` → `Levels` (`level.dfy`)
- `headers/properties.hpp` → `Config` (`properties.dfy`)
- the attack and escalation blocks of `main.cpp` → `Combat` (`combat.dfy`)
- `headers/uicomponents.hpp` → `Widgets` (`uicomponents.dfy`)
- `headers/uihandler.hpp` → `Menus` (`uihandler.dfy`)

`Common` (`common.dfy`) holds the shared value types:

- vectors and rectangles;
- `Entity::GetCollider`;
- raymath's `Clamp`;
- the `find(" ")`/`substr` splitting that the file readers share.

Objects whose fields the source updates in place are Dafny classes with `modifies` frames:

- `BezierCurve`, `Obstacle` and `Player`;
- both enemy kinds;
- `Level`;
- the sword and enemy-roster state of the main loop (`Combat.Session`);
- `TextField`, `HPBar`, `Label` and `UIContainer`;
- the UI globals (`Menus.MenuHandler`).

These methods state the new value of every field they change, most of them through a specification function of the old state. The properties the source promises are lemmas and contracts about those functions.

Some functions the source calls are not shown, and the model takes them as parameters:

- raylib's `CheckCollisionRecs` and `CheckCollisionPointRec`;
- keyboard and mouse state;
- `stof`, `stoi` and `to_string`.

Floats are exact reals.

## Model

| member | source | states |
|---|---|---|
| Common.Collider | headers/entity.hpp:46-53 | The collider is centred on the position, and its width and height are twice the half-sizes. |
| Common.Clamp | headers/entity.hpp:122-123 | The result never exceeds the upper bound. It is at least the lower bound when the bounds are ordered. A value already inside the bounds is returned unchanged. |
| Common.FirstSpace | headers/properties.hpp:43 | Finds the first space: no space occurs before the index it returns. None means the string has no space at all. |
| Common.Head | headers/properties.hpp:44 | The key part of a line is a space-free prefix of it. |
| Common.Rest | headers/properties.hpp:47-59 | When a space exists, the line is exactly head + " " + rest. Otherwise the rest is the whole line. |
| Common.HeadOfJoin | headers/uihandler.hpp:47 | Joining a space-free word, a space and any text splits back into that word. |
| Bezier.BinomialIsClosedForm | headers/bezier.hpp:15-38 | The Pascal-rule coefficients the triangle holds equal n! / (k! (n-k)!). |
| Bezier.GeneratePascalsTriangle | headers/bezier.hpp:15-38 | Depth 0 or 1 yields the two base rows; a larger depth yields depth + 1 rows. Row i has i + 1 entries, starts and ends with 1, and each interior entry is the sum of the two above it. Hence row i is C(i, ·). |
| Bezier.TruncatedRemainder | headers/bezier.hpp:41 | C++ `%` on int agrees with the mathematical remainder for non-negative operands and is never positive for a negative dividend. |
| Bezier.ValidateControlPointCount | headers/bezier.hpp:40-42 | For a positive order, a count is valid exactly when it exceeds the order and (count - 1) is a multiple of the order. A valid count always exceeds the order. |
| Bezier.ValidCountsAreSegmentChains | headers/bezier.hpp:40-42 | k * order + 1 points are valid for every k >= 1; a count equal to the order never is. |
| Bezier.ValidCountDecomposes | headers/bezier.hpp:40-42 | Every valid count is a chain of at least one segment of `order` points. |
| Bezier.GetPointInCurve | headers/bezier.hpp:44-59 | The loop's accumulated point is the Bernstein sum over all control points. |
| Bezier.CurveStartsAtFirstPoint | headers/bezier.hpp:44-59 | At t = 0 the curve point is the first control point. |
| Bezier.CurveEndsAtLastPoint | headers/bezier.hpp:44-59 | At t = 1 the curve point is the last control point. |
| Bezier.CurveVanishesBeforeLast | headers/bezier.hpp:44-59 | At t = 1 every term but the last is zero. |
| Bezier.CurveStepsShape | headers/bezier.hpp:71-83 | The waypoint list has NUMBER_OF_STEPS + 1 = 51 entries. It starts at the first control point and ends exactly on the last. |
| Bezier.BezierCurve.constructor | headers/bezier.hpp:61-63 | A curve holds its control points and no waypoints yet. |
| Bezier.BezierCurve.CalculateCurve | headers/bezier.hpp:71-83 | The new waypoint list is a function of the control points and the coefficient row alone. It does not depend on the old list, so a second call changes nothing. |
| Bezier.BezierCurve.GetStartPoint | headers/bezier.hpp:85 | Returns the first waypoint, which after CalculateCurve is the first control point (CurveStepsShape). |
| Bezier.BezierCurve.GetEndPoint | headers/bezier.hpp:87 | Returns the last waypoint, which after CalculateCurve is the last control point (CurveStepsShape). |
| Bezier.CurveEndpoints | headers/bezier.hpp:85-87 | After CalculateCurve, GetStartPoint is the first control point and GetEndPoint the last. |
| Entities.NextStep | headers/entity.hpp:77-95 | The index stays on the list and moves by at most one in the current direction. An index that stays put leaves the state unchanged. Once the index is off 0 it never returns there. |
| Entities.Iterate | headers/entity.hpp:77-95 | Any number of frames keeps the index on the list, and off 0 once it has left it. |
| Entities.IterateAdd | headers/entity.hpp:77-95 | Running a + b frames is running a frames, then b. |
| Entities.ForwardRun | headers/entity.hpp:78-85 | Moving forward, the index climbs one per frame and turns at the last index. |
| Entities.BackwardRun | headers/entity.hpp:86-93 | Moving backward, the index descends one per frame and turns at index 1. |
| Entities.OscillationPeriod | headers/entity.hpp:64-95 | With at least three waypoints, the first frame moves to index 1. The motion then sweeps 1 .. size-1 and back with period 2(size - 2) and never revisits 0. |
| Entities.OneSweep | headers/entity.hpp:77-95 | The first sweep reaches the last index after size - 1 frames and is back at 1 after 2 size - 3 frames. |
| Entities.ShiftByPeriod | headers/entity.hpp:77-95 | After the first frame the state repeats every 2(size - 2) frames. |
| Entities.NeverReturnsToZero | headers/entity.hpp:87-93 | From the first frame on, the index is at least 1. |
| Entities.CurvePathPeriod | headers/entity.hpp:77-95 | On a 51-waypoint path the obstacle repeats every 98 frames. |
| Entities.TwoWaypointsStop | headers/entity.hpp:77-95 | With two waypoints, the obstacle moves to index 1 and stays there facing backward. |
| Entities.Obstacle.constructor | headers/entity.hpp:60-75 | A new obstacle is at index 0, moving forward. |
| Entities.Obstacle.AsSolid | headers/entity.hpp:46-57 | What a collision test sees of an obstacle is its type and its collider. |
| Entities.Obstacle.MoveAlongPath | headers/entity.hpp:77-95 | One NextStep. The index stays on the list. When the index moves, the position is that waypoint; otherwise the position is kept. |
| Entities.Snapshot | headers/entity.hpp:206-208 | The scan sees each obstacle's type and collider, in list order. |
| Entities.FirstHit | headers/entity.hpp:206-221 | The index found is touched by the mover and no earlier solid is. None means no solid is touched. |
| Entities.ScanObstacles | headers/entity.hpp:206-209 | The `for ... break` scan stops at exactly FirstHit. |
| Entities.FirstHitAt | headers/entity.hpp:206-209 | A touched solid with no touched solid before it is the first hit. |
| Entities.PushOutX | headers/entity.hpp:210-216 | A static hit puts the mover's leading edge exactly `gap` beyond the obstacle's near side. A moving hit shifts the mover by exactly `gap`, away from its direction of travel. |
| Entities.PushOutY | headers/entity.hpp:234-240 | A static hit puts the mover `gap` above the top when falling and `gap` below the bottom when rising. A moving hit puts the mover's bottom on the obstacle's top. |
| Entities.Rebound | headers/entity.hpp:241-251 | A falling or resting mover stops; a rising one bounces down at the same speed. |
| Entities.AirControl | headers/entity.hpp:139-143 | The factor is hAir exactly when the vertical velocity is non-zero, and 1 otherwise. |
| Entities.AccelerateBounds | headers/entity.hpp:146-164 | After a push and clamp, the speed is within hVelMax. It is either the maximum toward that side or strictly below it. With non-negative gains it never moves away from that side. |
| Entities.SnapToZero | headers/entity.hpp:168-170 | A speed at or below hVelMin becomes exactly 0; a larger one is kept. |
| Entities.FrictionKeepsBound | headers/entity.hpp:165-167 | Friction by a coefficient of magnitude at most 1 never raises the speed past a bound. |
| Entities.PlayerHorizontalVelocity | headers/entity.hpp:137-172 | With a key held, the new speed is within hVelMax whatever the old one was. Without one, friction with \|hCoeff\| <= 1 keeps that bound. The result is 0 or above hVelMin. |
| Entities.GravityStep | headers/entity.hpp:118-124 | After gravity and the one-sided clamp, the velocity is at most vVelMax and at least -INT32_MAX. It is the plain sum when that already lies in range. |
| Entities.JumpInput | headers/entity.hpp:178-196 | jumpFrame advances by at most one. It advances exactly on a jump start (press, jumpFrame 0, within vSafe frames of leaving ground) or a held jump still rising within vHold. Release raises the velocity to at least vVelCut. A start adds vAccel. |
| Entities.Player.constructor | headers/entity.hpp:98-135 | A new player is at rest, ungrounded, with both jump counters 0 and air factor 1. |
| Entities.Player.MoveHorizontal | headers/entity.hpp:137-174 | Sets the air factor from the vertical velocity and the horizontal velocity as PlayerHorizontalVelocity, then advances x by exactly that velocity. |
| Entities.Player.SteerHorizontal | headers/entity.hpp:145-167 | Key A wins over key D, each pushing and clamping. With neither key, friction applies. |
| Entities.Player.MoveVertical | headers/entity.hpp:176-201 | Applies JumpInput then GravityStep, so the velocity ends at most vVelMax. y advances by exactly that velocity. |
| Entities.Player.HandleJump | headers/entity.hpp:178-196 | The jump state changes as JumpInput says; the horizontal velocity is untouched. |
| Entities.Player.CollideHorizontal | headers/entity.hpp:203-222 | Only the first touched obstacle is resolved: x as PushOutX says, with the horizontal velocity zeroed. With no hit, nothing changes. |
| Entities.Player.BumpSide | headers/entity.hpp:210-218 | The side response: PushOutX, then the horizontal velocity becomes 0. |
| Entities.Player.Land | headers/entity.hpp:233-251 | The floor or ceiling response. A falling mover lands, is grounded, and has both jump counters reset. A rising one bounces. |
| Entities.Player.CollideVertical | headers/entity.hpp:224-259 | The first hit lands or bounces the player. After a miss the player is ungrounded. framesAfterFallingOff counts up only after leaving ground, and is 0 when grounded. |
| Enemies.BottomLeftProbe | headers/enemies.hpp:164-169 | A 10 × 10 square touching the collider's bottom-left corner from outside. |
| Enemies.BottomRightProbe | headers/enemies.hpp:171-176 | A 10 × 10 square touching the collider's bottom-right corner from outside. |
| Enemies.RangedHorizontalVelocity | headers/enemies.hpp:22-63 | The enemy always accelerates toward its heading. Its speed stays within hVelMax and is 0 or above hVelMin. It never moves away from the heading. |
| Enemies.MeleeSpeedBound | headers/enemies.hpp:195-230 | With a flag set the speed is within hVelMax; with none, friction keeps that bound. |
| Enemies.MeleeKeepsSlowSpeeds | headers/enemies.hpp:195-230 | Melee movement has no minimum-speed snap: a slow push survives where a ranged enemy's is zeroed. |
| Enemies.ScanLedge | headers/enemies.hpp:78-98 | The two probe scans decide AtLedge: some probe touches no obstacle. |
| Enemies.Fall | headers/enemies.hpp:67-72 | Gravity leaves the horizontal motion alone, keeps the vertical velocity at most vVelMax and moves y by exactly that velocity. |
| Enemies.Settle | headers/enemies.hpp:130-162 | A vertical hit leaves the horizontal motion alone and only lands or bounces the vertical velocity. With no hit nothing changes. |
| Enemies.RangedWalk | headers/enemies.hpp:22-65 | The walk moves x by exactly the new velocity, which is 0 or above hVelMin, and leaves the vertical motion alone. |
| Enemies.RangedTurn | headers/enemies.hpp:74-128 | At a ledge the enemy only turns. The heading stays only when there is neither a ledge nor a wall, and then nothing moves. A wall hit pushes out by PushOutX. The velocity is never touched. |
| Enemies.RangedFrame | headers/enemies.hpp:12-19 | Over a frame the heading flips at most once. Collisions leave the walk's horizontal velocity. The vertical velocity is gravity's or that one landed or bounced. |
| Enemies.MeleeWalk | headers/enemies.hpp:195-233 | The walk moves x by exactly the new velocity and leaves the vertical motion alone. |
| Enemies.MeleeTurn | headers/enemies.hpp:242-275 | With no wall hit nothing changes. After a hit exactly one flag is set, isMovingRight being the old isMovingLeft. The velocity is never touched. |
| Enemies.MeleeFrame | headers/enemies.hpp:186-193 | Over a frame the flags are kept or left with exactly one set. Collisions leave the walk's horizontal velocity. The vertical velocity is gravity's or that one landed or bounced. |
| Enemies.RangedEnemy.constructor | headers/enemies.hpp:6-10 | A new ranged enemy is at rest, heading left. |
| Enemies.RangedEnemy.Update | headers/enemies.hpp:12-19 | The new position, velocity and heading are RangedFrame of the old ones. So the heading flips at most once, and the speed stays within hVelMax and is 0 or above hVelMin. |
| Enemies.RangedEnemy.MoveHorizontal | headers/enemies.hpp:22-65 | Sets the velocity as RangedHorizontalVelocity and advances x by it. |
| Enemies.RangedEnemy.Steer | headers/enemies.hpp:24-53 | The push toward the heading, clamped. |
| Enemies.RangedEnemy.MoveVertical | headers/enemies.hpp:67-72 | Gravity and clamp, so the velocity ends at most vVelMax; y advances by it. |
| Enemies.RangedEnemy.CollideHorizontal | headers/enemies.hpp:74-128 | At a ledge the enemy turns and stays put. Otherwise the first wall hit pushes it out and turns it, with the velocity kept. With neither, nothing changes. |
| Enemies.RangedEnemy.BumpWall | headers/enemies.hpp:109-125 | The wall response: PushOutX and a turn. |
| Enemies.RangedEnemy.CollideVertical | headers/enemies.hpp:130-162 | The first hit pushes out as PushOutY says and lands or bounces as Rebound says. With no hit nothing changes. |
| Enemies.MeleeEnemy.constructor | headers/enemies.hpp:179-184 | A new melee enemy is at rest with both flags clear. |
| Enemies.MeleeEnemy.Update | headers/enemies.hpp:186-193 | The new position, velocity and flags are MeleeFrame of the old ones. So the velocity follows MeleeHorizontalVelocity, and the flags are either kept or left with exactly one set. |
| Enemies.MeleeEnemy.MoveHorizontal | headers/enemies.hpp:195-233 | Sets the velocity as MeleeHorizontalVelocity and advances x by it. |
| Enemies.MeleeEnemy.MoveVertical | headers/enemies.hpp:235-240 | Gravity and clamp; y advances by the new velocity. |
| Enemies.MeleeEnemy.CollideHorizontal | headers/enemies.hpp:242-275 | The first wall hit pushes the enemy out. It then leaves exactly one flag set: right if it was walking left, left otherwise. With no hit nothing changes. |
| Enemies.MeleeEnemy.CollideVertical | headers/enemies.hpp:278-310 | The same first-hit vertical resolution as the ranged enemy. |
| Levels.ReadPoints | headers/level.hpp:105-109 | n control points, the j-th read from numbers at + 2j and at + 2j + 1. |
| Levels.ReadStatics | headers/level.hpp:63-70 | n static obstacles, the k-th read from the four numbers at 4 + 4k. |
| Levels.ReadMoving | headers/level.hpp:73-116 | An order of at most 0 is rejected before the count is checked. An invalid count is rejected next. An accepted obstacle has a positive order and a valid count of at least 2 points, and the next obstacle starts right after its points. |
| Levels.ReadMovings | headers/level.hpp:72-117 | On success, n obstacles, each having passed both checks. |
| Levels.ReadMovingsPrefix | headers/level.hpp:72-117 | Reading further never changes the obstacles already read. When n obstacles load, the first k of them load too and are the same. |
| Levels.RejectionIsFinal | headers/level.hpp:82-99 | Once an obstacle is rejected, reading more never recovers. |
| Levels.ParseLevel | headers/level.hpp:51-117 | A loaded level has as many static and moving obstacles as the counts say. Statics are in file order, and every moving obstacle passed both checks. |
| Levels.ParsedMovings | headers/level.hpp:51-117 | The load succeeds exactly when every moving obstacle is accepted. The player starts at the first two numbers. |
| Levels.RejectedObstacleAbortsLoad | headers/level.hpp:91-99 | A rejected moving obstacle aborts the whole load with its error, whatever follows it. |
| Levels.MaxCount | headers/level.hpp:62-103 | The running maximum bounds every control-point count and is attained by one of them, or is 0. |
| Levels.MaxCountSnoc | headers/level.hpp:101-103 | One more obstacle raises the maximum only if its count is larger. |
| Levels.MaxCountOfValid | headers/level.hpp:119-121 | The maximum is 0 exactly when there are no moving obstacles, and at least 2 otherwise. |
| Levels.Level.constructor | headers/level.hpp:9-11 | A level holds the player and obstacles it is given. |
| Levels.Level.Update | headers/level.hpp:13-19 | Every moving obstacle takes one NextStep and stays on its path. Static obstacles keep position, index and direction. |
| Levels.Level.GeneratePaths | headers/level.hpp:33-39 | Every moving obstacle gets its 51-waypoint list from its curve. Static obstacles' lists are untouched. |
| Levels.UnsharedAppend | headers/level.hpp:68-116 | A newly created obstacle shares nothing with the list it joins. |
| Levels.LoadLevel | headers/level.hpp:42-126 | A rejected file yields its error and leaves the coefficient table alone. Otherwise the level is built from the file: player, statics in order, then movings in order, no obstacle shared, every curve's row present. The table is regenerated to the largest count when a moving obstacle exists. |
| Levels.AssembleLevel | headers/level.hpp:119-125 | The assembled level is what ParseLevel reads, shares nothing, and fits the table. |
| Levels.LevelAssembled | headers/level.hpp:119-125 | The player plus both obstacle lists make the parsed level, and every path's row exists. |
| Levels.AssembledPathsFit | headers/level.hpp:101-121 | Regenerating to the largest count gives every moving obstacle's curve its coefficient row. |
| Levels.AssembledBuilds | headers/level.hpp:53-125 | The player has half-sizes (12, 16) and starts at rest at the file's position. The obstacles are statics then movings, each as read. |
| Levels.StaticsPrefix | headers/level.hpp:63-125 | The static obstacles keep their places at the front of the level's list. |
| Levels.MovingsSuffix | headers/level.hpp:72-125 | The moving obstacles follow the static ones, in file order. |
| Levels.ReadStaticObstacles | headers/level.hpp:63-70 | One new obstacle per static entry, in file order, none shared. |
| Levels.ReadMovingObstacles | headers/level.hpp:72-117 | Fails with the first rejection's error. Otherwise it builds every moving obstacle and tracks the largest count. |
| Levels.ReadNextMovingObstacle | headers/level.hpp:73-116 | One pass either fails with the load's error or extends the built list by one. |
| Levels.BuiltAppend | headers/level.hpp:101-116 | Appending the next accepted obstacle keeps the loop's invariant. |
| Levels.ReadMovingObstacle | headers/level.hpp:73-116 | The two checks in order. Then a fresh obstacle at the origin, index 0, moving forward, with exactly the file's control points. |
| Levels.ReadControlPoints | headers/level.hpp:105-109 | The point loop reads exactly ReadPoints. |
| Config.Set | headers/properties.hpp:67-95 | Assigning a field reads back the new value and keeps every other field and the keyless camera slots. |
| Config.ApplyLine | headers/properties.hpp:43-95 | A line throws exactly when its key is not CAM_EDGES and it has no space. Otherwise the keyless camera slots are kept. |
| Config.Dispatch | headers/properties.hpp:67-95 | The comparison chain never touches the camera fields. |
| Config.KeysAreDistinct | headers/properties.hpp:67-95 | The fourteen keys are pairwise distinct, space-free and not CAM_EDGES. |
| Config.KnownKeyAssignsItsField | headers/properties.hpp:43-95 | `KEY value` assigns exactly the field spelled KEY. MAX_H_VEL, GRAVITY, V_ACCEL, CUT_V_VEL, MAX_V_VEL and CAM_DRIFT are divided by the frame rate; the rest, H_ACCEL included, are stored raw. |
| Config.DispatchKnownKey | headers/properties.hpp:67-95 | The chain reaches the branch of the given key's field. |
| Config.UnknownKeyChangesNothing | headers/properties.hpp:65-95 | A line with an unrecognised key leaves every field unchanged. |
| Config.DispatchIgnoresUnknownKey | headers/properties.hpp:67-95 | No branch fires for an unknown key. |
| Config.CamEdgesReadsFourNumbers | headers/properties.hpp:46-63 | CAM_EDGES assigns camUpperLeft then camLowerRight from its four numbers, in reading order, and nothing else. |
| Config.LaterLineWins | headers/properties.hpp:42-96 | When a key repeats, the later line's value is the one kept. |
| Config.LastLineDecides | headers/properties.hpp:42-96 | Over a whole file that loads, each field holds the value of the last line with its key, whatever lines come between. A field no line names keeps its initial value. |
| Config.OwnKeyLine | headers/properties.hpp:43-95 | A loading line with a field's key stores the text after the key in that field, divided by the frame rate for a per-second key. |
| Config.OtherKeyLine | headers/properties.hpp:46-95 | A loading line with another key, or CAM_EDGES, leaves a field as it was. |
| Config.DispatchOtherField | headers/properties.hpp:67-95 | The comparison chain leaves alone every field whose key it is not given. |
| Config.SetTwice | headers/properties.hpp:67-95 | A second assignment to a field overwrites the first. |
| Config.LoadProperties | headers/properties.hpp:32-101 | The loop is the line-by-line fold LoadSpec. It throws exactly when some line lacks a value, and never sets camType, cam1UpperLeft or cam1LowerRight. |
| Config.LoadOutcome | headers/properties.hpp:32-101 | Same outcome for the fold itself. |
| Config.LoadStopsAtError | headers/properties.hpp:42-65 | The first throwing line ends the load with its error. |
| Config.FailsIffLineLacksValue | headers/properties.hpp:42-65 | The load throws exactly when some line has a non-CAM_EDGES key and no space. |
| Config.NeverAssignedCameraSlots | headers/properties.hpp:24-95 | camType, cam1UpperLeft and cam1LowerRight keep their initial values. |
| Combat.HitCount | main.cpp:120-140 | A swing counts at most one kill per enemy of the list. |
| Combat.HitCountZero | main.cpp:120-140 | A swing counts nothing exactly when it reaches no enemy. |
| Combat.HitCountAll | main.cpp:120-140 | A swing reaching every enemy counts each once. |
| Combat.KillStruck | main.cpp:120-140 | The enemy list keeps its length: enemies are killed in place, not removed. |
| Combat.KillStruckAt | main.cpp:120-140 | Exactly the enemies the weapon reaches are killed; every other enemy is unchanged. |
| Combat.Deflected | main.cpp:145-149 | The bullet list keeps its length. |
| Combat.DeflectedAt | main.cpp:145-149 | Exactly the bullets touching the weapon are turned back; the others are unchanged. |
| Combat.Deflect | main.cpp:147 | Deflection keeps the bullet's position and size. |
| Combat.DeflectTwice | main.cpp:147 | Deflecting twice restores the bullet. |
| Combat.DeflectedTwice | main.cpp:145-149 | A second swing at the same place sends every bullet back the way it came. |
| Combat.StrikeAll | main.cpp:120-140 | One enemy loop kills as KillStruck says and counts as HitCount says. |
| Combat.DeflectAll | main.cpp:145-149 | The bullet loop turns bullets as Deflected says. |
| Combat.Promote | main.cpp:163-168 | The front of the inactive list moves to the back of the active list. When the inactive list is empty, both are unchanged. |
| Combat.PromoteKeepsRoster | main.cpp:163-168 | Promotion neither creates nor loses an enemy and keeps their order. |
| Combat.Hasten | main.cpp:169-172 | Every active enemy, the newly promoted one included, gains 0.025 speed and nothing else. |
| Combat.HastenAll | main.cpp:169-172 | The speed loop is Hasten. |
| Combat.ThresholdStep | main.cpp:126-174 | The counter is 0 after a frame exactly when the swing brought it to 10, which resets it, or it stayed at 0. |
| Combat.PastThresholdNeverEscalates | main.cpp:157-175 | Once the counter has passed 10, no escalation ever fires again and the counter only grows. |
| Combat.DoubleKillAtNineSkipsEscalation | main.cpp:126-157 | Two kills in one swing at 9 take the counter to 11 and switch escalation off for the rest of the game. |
| Combat.SingleKillsEscalateEveryTen | main.cpp:157-175 | With at most one kill per swing, escalation fires once per ten kills and the counter holds the remainder. |
| Combat.CooldownRunsDown | main.cpp:267-272 | After a swing, the cooldown falls by one timestep per tick. |
| Combat.ArmedStaysArmed | main.cpp:267-272 | An armed sword stays armed while time passes. |
| Combat.RearmTakesFortySixTicks | main.cpp:267-272 | In exact arithmetic, after a swing the sword is armed again exactly from the 46th tick on. |
| Combat.CooldownShift | main.cpp:267-272 | a ticks then b ticks are a + b ticks. |
| Combat.AnimationRunsDown | main.cpp:274-280 | A running animation loses one timestep per tick. |
| Combat.IdleAnimationStays | main.cpp:274-280 | An idle animation clock does not change. |
| Combat.AnimationShift | main.cpp:274-280 | a ticks then b ticks are a + b ticks. |
| Combat.AnimationLastsNineTicks | main.cpp:274-280 | In exact arithmetic, a swing's animation shows for nine ticks, then stops with its timer reset. |
| Combat.Session.constructor | main.cpp:43-74 | Three active and six inactive melee enemies, two ranged ones, no bullets, counters 0, and a sword that is not yet armed. |
| Combat.Session.Attack | main.cpp:116-150 | Nothing happens unless the key is pressed and the sword is armed. A swing kills and counts every enemy reached, adds the same number to kills and to the threshold, turns back the touched bullets, and disarms the sword. |
| Combat.Session.Swing | main.cpp:117-149 | The body of the attack block, as Attack states it. |
| Combat.Session.StrikeEnemies | main.cpp:120-140 | kills and the threshold grow by the same number of hits. |
| Combat.Session.CheckEscalation | main.cpp:157-175 | Only a threshold of exactly 10 fires. It adds two ranged enemies, promotes one melee enemy, hastens the active ones and resets the threshold. The melee roster stays nine. |
| Combat.Session.Fight | main.cpp:116-175 | Struck enemies die and struck bullets turn, and the sword is spent. When the counter reaches EscalationKills, two ranged enemies spawn and one more melee enemy joins. The threshold follows ThresholdStep and the kills grow by the hits. |
| Combat.Session.Tick | main.cpp:267-280 | One fixed-step tick of both timers. |
| Widgets.StateValue | headers/uicomponents.hpp:23-29 | The five states have values below 5. |
| Widgets.StateValueInjective | headers/uicomponents.hpp:23-29 | Distinct states have distinct values. |
| Widgets.ToUpper | headers/uicomponents.hpp:222 | Only a to z change, each to its capital. |
| Widgets.AddLetterInBoundsIff | headers/uicomponents.hpp:221-235 | AddLetter writes only inside `text[4]` exactly when letterCount is 0, 1 or 2. At 3 it would write text[4], so only the caller's guard keeps it in bounds. |
| Widgets.CString | headers/uicomponents.hpp:217 | The C string is the buffer's prefix before its first NUL. |
| Widgets.NameThenCursor | headers/uicomponents.hpp:213-219 | A well-formed buffer shows the letters, then the cursor unless the field is full. |
| Widgets.TextField.constructor | headers/uihandler.hpp:396-397 | With the buffer assumed zero-filled, a new field is well formed, empty and not full. |
| Widgets.TextField.AddLetter | headers/uicomponents.hpp:221-235 | The capital goes at text[letterCount], followed by the cursor and NUL, or by NUL alone for the third letter. letterCount rises by one. isMax is set exactly when the third letter goes in. The name gains that letter. |
| Widgets.TextField.RemoveLetter | headers/uicomponents.hpp:237-246 | letterCount drops by one, but not below 0. The cursor and NUL go at the new end, isMax is cleared, and the name loses its last letter. |
| Widgets.TextField.Show | headers/uicomponents.hpp:213-219 | An empty field gets its cursor; the text shown is the name plus the cursor unless full. |
| Widgets.HeartClassification | headers/uicomponents.hpp:259-268 | For non-negative health, heart i is full iff health >= 2i, half iff health = 2i - 1, and empty otherwise. The three cases are exclusive and exhaustive. |
| Widgets.HeartRow | headers/uicomponents.hpp:259-268 | One entry per heart. |
| Widgets.HeartsShowHealth | headers/uicomponents.hpp:259-268 | The bar shows the health exactly, in half-hearts, up to what its hearts can hold. |
| Widgets.HealedIsClamped | headers/uicomponents.hpp:276-284 | For a non-negative bar, the new health is current + value clamped to [0, maxHealth]. |
| Widgets.HPBar.constructor | headers/uicomponents.hpp:253-256 | A bar holds the given maximum and health. |
| Widgets.HPBar.InitBar | headers/uicomponents.hpp:271-274 | A full bar of the given size. |
| Widgets.HPBar.UpdateHealth | headers/uicomponents.hpp:276-284 | The health becomes Healed, so it stays within [0, maxHealth]. |
| Widgets.HPBar.Hearts | headers/uicomponents.hpp:258-268 | Hearts 1 .. maxHealth / 2, each classified as HeartAt says. |
| Widgets.Label.constructor | headers/uicomponents.hpp:164 | A label starts centred, with exactly one alignment. |
| Widgets.Label.SetCenterAlign | headers/uicomponents.hpp:183-187 | Exactly one alignment holds afterwards: centre. |
| Widgets.Label.SetLeftAlign | headers/uicomponents.hpp:189-193 | Exactly one alignment holds afterwards: left. |
| Widgets.Label.SetRightAlign | headers/uicomponents.hpp:195-199 | Exactly one alignment holds afterwards: right. |
| Widgets.ButtonHover | headers/uicomponents.hpp:133-141 | A button is hovered, and reports it, exactly when the mouse is inside it. |
| Widgets.LastHovering | headers/uicomponents.hpp:65-73 | The child found takes the hover and none added after it does. None means no child does. |
| Widgets.LastClicking | headers/uicomponents.hpp:75-83 | The child found takes the click (a point inside an active button) and none added after it does. None means no child does. |
| Widgets.HoverPass | headers/uicomponents.hpp:65-73 | A hover pass keeps the number of children. |
| Widgets.HoverPassSpec | headers/uicomponents.hpp:65-73 | Children from the taker upwards are asked and those below it are not. Below the taker, buttons keep a stale isHovered. |
| Widgets.UIContainer.constructor | headers/uicomponents.hpp:47-50 | A new container has no children. |
| Widgets.UIContainer.AddChild | headers/uicomponents.hpp:52 | The child goes last. |
| Widgets.UIContainer.ClearChildren | headers/uicomponents.hpp:54 | No children remain. |
| Widgets.UIContainer.HandleHover | headers/uicomponents.hpp:65-73 | Children are asked last to first and the first taker ends the pass. The result is true iff some child takes the hover. |
| Widgets.UIContainer.HandleClick | headers/uicomponents.hpp:75-153 | The action run is the last-added child that takes the click. The result is true iff some child does. |
| Widgets.UIContainer.Update | headers/uicomponents.hpp:295-301 | A hover pass every frame. A click pass only on release, at the mouse position. |
| Menus.FirstBelow | headers/uihandler.hpp:56-64 | The insertion point lies on the list or just past it. |
| Menus.FirstBelowSpec | headers/uihandler.hpp:56-64 | The new line goes just before the first strictly lower score, so ties keep older lines first. |
| Menus.FirstBelowAt | headers/uihandler.hpp:56-64 | Reading from the top, the first lower score found is the insertion point. |
| Menus.FirstNoSpace | headers/uihandler.hpp:50-54 | The line found is among the first n. |
| Menus.FirstNoSpaceSpec | headers/uihandler.hpp:50-54 | The line found has no space and all before it have one. Finding none means every line has a space. |
| Menus.FirstNoSpaceAt | headers/uihandler.hpp:50-54 | A line without a space after lines that all have one is the line found. |
| Menus.FirstNoSpaceNone | headers/uihandler.hpp:50-54 | Every line of a longer prefix having a space means every line of a shorter one does. |
| Menus.Merged | headers/uihandler.hpp:49-72 | The kept list has min(n + 1, 10) lines. |
| Menus.MergedLength | headers/uihandler.hpp:49-72 | After a save the list has min(n + 1, 10) entries. |
| Menus.MergedPlacement | headers/uihandler.hpp:56-72 | The lines above the new one are kept, the new line is at its place, and the old lines follow in their old order. A score ranking eleventh or lower is not kept. |
| Menus.MergedSorted | headers/uihandler.hpp:49-72 | A sorted list stays sorted when the new line carries the new score. |
| Menus.InsertKeepsSorted | headers/uihandler.hpp:56-64 | Inserting before the first lower score keeps the order non-increasing. |
| Menus.SortedPrefix | headers/uihandler.hpp:49 | Cutting a sorted list keeps it sorted. |
| Menus.NewLineScore | headers/uihandler.hpp:47-54 | The new line scores as the new score and has a space, when stoi reads back what to_string wrote. |
| Menus.MergeScoresOk | headers/uihandler.hpp:49-72 | When every line read has a space, the merge succeeds with the merged list. |
| Menus.MergeScoreLines | headers/uihandler.hpp:49-72 | The loop computes exactly the reference merge MergeScores. That is: insertion before the first lower score, cut to ten, or the out-of-range error for the first read line without a space. |
| Menus.MergeAtBreak | headers/uihandler.hpp:58-64 | A new score ranking tenth ends the loop on line 9, which is not kept. |
| Menus.MergePlaced | headers/uihandler.hpp:56-72 | A new line placed inside the loop yields the merged list. |
| Menus.MergeUnplaced | headers/uihandler.hpp:66-72 | A new line not placed by the loop goes last when there is room. |
| Menus.MenuFor | headers/uihandler.hpp:518-533 | `menuList[state]` is always in bounds and never the second score screen. |
| Menus.MenuForEachState | headers/uihandler.hpp:518-533 | Each state shows its own screen, and no two states share a screen. |
| Menus.RowsSpec | headers/uihandler.hpp:167-205 | Row k of the score screen comes from line k: its score text and the name from the space on. |
| Menus.ReadableCount | headers/uihandler.hpp:167-205 | The count of lines the screen gets through is at most the file's length. |
| Menus.ReadableCountSpec | headers/uihandler.hpp:167-205 | Every line counted has a space; the next line, if any, has none. |
| Menus.SortedEnds | headers/uihandler.hpp:169-206 | In a sorted file the first score is the largest and the last the smallest. |
| Menus.ReadableStopsAt | headers/uihandler.hpp:167-205 | The screen stops at the first line without a space. |
| Menus.SavedLinesAllNamed | headers/uihandler.hpp:36-87 | A file written by saveScore reads back whole on the score screen. |
| Menus.ReadScoreFile | headers/uihandler.hpp:167-205 | One row per line read. The line count grows by the number read. The top score is the first line's and the last score the last line's. A line without a space ends the read with its error. |
| Menus.MenuHandler.constructor | headers/uihandler.hpp:15-30 | The globals' initial values: main menu, no pending update, zero scores, empty name. |
| Menus.MenuHandler.NewScoreLine | headers/uihandler.hpp:47 | The saved line is the score, a space and the user name. |
| Menus.MenuHandler.SaveScore | headers/uihandler.hpp:36-87 | On success the merged list replaces the file, scoreUpdate is raised and the score screen is shown. A line without a space throws before anything is written. |
| Menus.MenuHandler.BuildScoreScreen | headers/uihandler.hpp:151-216 | The rows and the max and min scores come from the file. num_of_scores grows on every rebuild and is never reset. |
| Menus.MenuHandler.Initialize | headers/uihandler.hpp:505-524 | The menu list holds the six menus in order, and the game starts in the main menu. |
| Menus.MenuHandler.Update | headers/uihandler.hpp:526-534 | A pending score update rebuilds the score screen: rows, count and max score from the lines read. If every line reads, min score is set, the flag is cleared and the current state's menu is returned for its Update to run. If a line has no space, its error is returned and the flag stays raised. |
| Menus.MenuHandler.GameOverUpdate | headers/uihandler.hpp:424-441 | The save button is active iff the name was full before the frame. A printable key (32..125) adds a letter only while fewer than three are typed. The name changes as EditName says. |
| Menus.MenuHandler.ShowName | headers/uicomponents.hpp:213-219 | The userName global becomes the typed name plus the cursor unless full. |
| Menus.EditName | headers/uihandler.hpp:427-440 | A frame of input changes the name by at most one letter. |
| Menus.EditNameCases | headers/uihandler.hpp:427-440 | The name never exceeds three letters. A full name ignores typing. A letter typed and erased in the same frame leaves the name as it was. Backspace alone drops the last letter. |

## Left out

- Drawing, textures, audio, fonts, window set-up and the camera (every `Draw`, the render part of `main.cpp`, `BezierCurve::Draw`): presentation calls into raylib.
- `main.cpp` outside the attack block (116-150), the escalation block (157-175) and the sword timers (267-280) is not part of this model. This covers the enemy movement between the two blocks, the wall-clock accumulator, `findRotationAngle`, the level clock and the game loop itself.
- `rand()` firing, bullets moving, and the removal loops for bullets and ranged enemies (`main.cpp:237-265`) are not modelled. They depend on `Bullet`, `Shoot` and `CollidePlayer`, which are not shown. Their erase-then-`++i` skips elements, and one line reads a deleted bullet.
- Floating point: `float` values are exact reals, so rounding, `pow` accuracy and the float comparisons of the timers are not modelled.
- Combat.RearmTakesFortySixTicks: the count is for exact arithmetic. With `TIMESTEP` as the `float` nearest 1/60 (main.cpp:23) and `float` subtraction, the cooldown of `0.75f` (main.cpp:27) is still just above zero after 45 steps, so the sword re-arms one tick later, on tick 47.
- Combat.AnimationLastsNineTicks: the count is for exact arithmetic. With `float` steps the animation timer of `0.15f` (main.cpp:26) runs one tick longer, so the animation ends on tick 10.
- Combat.Session.constructor: `kill()`, `speedModifier`, `PlayerWeapon` and enemy positions belong to a later revision than the shown headers. Enemies are records with only a `killed` flag and a speed. The spawn speed is a parameter.
- Combat.Session.Fight: the enemy movement between the attack and escalation blocks is left out.
- Entities.Obstacle: `Enemy` (`headers/entity.hpp:262-395`) is the same code as `RangedEnemy`, and `Enemies.RangedEnemy` stands for both. `Item` has no behaviour and is not modelled.
- Levels.LoadLevel: the file is modelled as its numbers, already parsed, so file opening, `exit(1)` on failure and the `>>` extraction from text are not modelled. Two choices are the model's own. An integer field is the floor of its number, where `>>` into an `int` stops at a decimal point and leaves the rest for the next read. A read past the end yields 0, where `>>` at the end of the file fails and leaves its variable as it was. `oPath.numberOfSteps` is not a field of the shown `BezierCurve`, so `NUMBER_OF_STEPS` governs.
- Bezier.GeneratePascalsTriangle: entries are unbounded integers. The 32-bit overflow past row 33 is not modelled. A negative depth, which would never end the loop, is excluded by the precondition.
- Bezier.GeneratePascalsTriangle: the debug `printf` is left out.
- Config.LoadProperties: file opening and `exit(1)` are left out, and the file is its list of lines. `stof` is a parameter, so its exceptions on malformed numbers are not modelled; only the `substr` out-of-range throw is.
- Menus.MenuHandler.SaveScore: file reading and writing are lists of lines. The line `getline` reads before the size test ends the loop (headers/uihandler.hpp:49) is discarded unread, so it is not modelled. `stoi` and `to_string` are parameters, so `stoi`'s exceptions are not modelled.
- Menus.MenuHandler.BuildScoreScreen: the leaked `Label`s and the label layout are left out. Rows are modelled as pairs of strings.
- Menus.MenuHandler.Initialize: the `createUI` calls of the six menus and the second score screen are not replayed. Neither are the other menus' buttons and their `goTo*` state changes.
- Menus.MenuHandler.GameOverUpdate: `GameOverScreen`'s own `uiLibrary.Update` is not chained. The key and backspace inputs are parameters.
- Menus.MenuHandler.Update: the current state's menu is returned, not updated; its `Update()` (headers/uihandler.hpp:533) belongs to the menus, whose `createUI` and buttons are not replayed.
- Widgets.UIContainer.HandleClick: a button's action is reported as the index of the child that fires, not run, because the actions are function pointers into the menu code.
- Widgets.TextField.constructor: the model assumes a zero-filled buffer. The only handler the source creates is a local in `main()` (uitest.cpp:19), so `char text[4]` (headers/uicomponents.hpp:207) is indeterminate until the first AddLetter or RemoveLetter, and `GameOverScreen::createUI` (headers/uihandler.hpp:396-397) sets only `letterCount` and `isMax`. Valid() of a new field rests on that assumption, and the first Show of a field never edited, which may copy a buffer without a NUL, is not modelled.
- Memory management (`new`/`delete`, leaks) and `std::cout` logging are left out.
