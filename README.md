# Snoopy dogfighting client: a verified model of its core

This is a model of the core of the browser client of a 2D dogfighting game, written in Dafny.

- **The game loop.** The `GameWorld` game loop paces frames with a millisecond accumulator. Its first call starts the update source.
- **Applying snapshots.** A paced frame applies the pending server snapshot to the id-keyed `players` and `bullets` maps. An id the world has not seen gets a new `Agent` or `Bullet`, and that entity is appended to the shared `scene` list. The frame then integrates every tracked entity and has the debug camera update and draw.
- **The server side.** `ServerUpdateManager` is a one-slot, latest-wins mailbox with a dirty flag. `ServerMock` keeps a list of observers and two scripted timers. Each timer tick is a method call.
- **The camera.** `Camera` follows its target with a lerp-or-clamp rule and a dead zone. It shakes on a timer and culls the scene to its view before drawing. `DebugCamera` adds:
  - arrow-key panning;
  - wheel zoom clamped to [0.125, 3];
  - a toggle between debug and player mode;
  - an on-screen menu.
- **Agents and bullets.** An `Agent` takes one explicit Euler step per frame. It is overwritten by every server state, and its sprite is drawn inside a translate/rotate bracket. A `Bullet` moves its shared position object in place and has a fixed radius.
- **Helpers.** The vector helpers of `VectorMath.js` and its duplicate `Vectors.js` are modelled, including JavaScript's truncating `%`. So is the grid background's pair of real-stepped loops.

Modelling choices:

- **Numbers.** All numbers are exact `real`s.
- **The canvas.** Canvas width and height are parameters. Drawing is a returned trace of `CanvasOp`s (module `Canvas`).
- **Time.** `Date.now()` is the parameter `now`. `Math.sin` is the camera's parameter `sine`, and nothing about its values is used.
- **The camera follow rule.** The clamp tests the signed gap, exactly as `build/Scene.js:139` and `:145` are written. So a target far behind the camera is only lerped towards (`Scene.FollowIsAsymmetric`).
- **Frame specifications.** A frame is specified on value snapshots of the world:
  - `Game.WorldState`, read by `GameWorld.World()`;
  - `Game.ClockState`, read by `GameWorld.Clock()`.

  The predicates `Advanced`, `Framed`, `Due` and `Paced` relate the state before a call to the state after it. The snapshot includes the scene list, the debug-menu lines and the camera's target. So `Shown` can state what a frame's new entities add to the scene, the menu and the target, and `Following` can state which position the camera steps towards.
- **The debug camera.** It owns its `Camera` (`base`) instead of inheriting from it. JavaScript closures become small datatypes:
  - the camera target: `Scene.Target`;
  - the debug-menu lines: `Scene.DebugLine`;
  - the scene entries: `Scene.SceneObject`.

## Model

| member | source | states |
|---|---|---|
| VectorMath.AddVectorsCommutes | build/VectorMath.js:5-10 | adding vectors is commutative |
| VectorMath.OriginIsAdditiveIdentity | build/VectorMath.js:1-19 | `origin` is (0, 0), a two-sided identity of addition and a right identity of subtraction |
| VectorMath.AddVectors | build/VectorMath.js:5-10 | `addVectors`, component-wise; its laws are the commutativity and identity lemmas |
| VectorMath.SubtractVectors | build/VectorMath.js:14-19 | `subractVectors`, component-wise; SubtractSelfIsOrigin and SubtractIsAddNegated relate it to addition |
| VectorMath.MultiplyVectors | build/VectorMath.js:23-28 | `multiplyVectors`, component-wise; MultiplyVectorsCommutes and MultiplyDistributesOverSubtract state its laws |
| VectorMath.SubtractSelfIsOrigin | build/VectorMath.js:14-19 | v - v is `origin` |
| VectorMath.SubtractIsAddNegated | build/VectorMath.js:5-19 | adding `origin - v2` is subtracting v2; subtraction and addition undo each other |
| VectorMath.MultiplyVectorsCommutes | build/VectorMath.js:23-28 | the component-wise product is commutative |
| VectorMath.MultiplyDistributesOverSubtract | build/VectorMath.js:14-28 | multiplying by a vector distributes over subtraction |
| VectorMath.Truncate | build/VectorMath.js:32-37 | the integer part JavaScript's `%` uses: within 1 of the quotient, rounded toward zero on both signs |
| VectorMath.JsRemainder | build/VectorMath.js:32-37 | the remainder r of a / d: (a - r) / d is an integer, abs(r) < abs(d), and r has the sign of a; these determine it uniquely |
| VectorMath.ModVectors | build/VectorMath.js:32-37 | `modVectors` is the truncated remainder on each component, with the same three properties per axis |
| VectorMath.JsRemainderOfNonNegative | build/VectorMath.js:32-37 | a non-negative dividend and a positive divisor give a remainder in [0, d) |
| VectorMath.JsRemainderOfNegative | build/VectorMath.js:32-37 | a negative dividend gives a remainder in (-abs(d), 0], unlike a Euclidean remainder |
| VectorMath.JsRemainderExample | build/VectorMath.js:32-37 | -7 % 3 is -1 and 7 % 3 is 1 |
| Vectors.AgreesWithVectorMath | build/Vectors.js:1-28 | the duplicate file's `origin`, `addVectors`, `subractVectors` and `multiplyVectors` equal those of VectorMath.js on all inputs |
| Vectors.AddVectors | build/Vectors.js:5-10 | the copy's `addVectors`; AgreesWithVectorMath proves it equal to VectorMath's |
| Vectors.SubtractVectors | build/Vectors.js:14-19 | the copy's `subractVectors`; AgreesWithVectorMath proves it equal to VectorMath's |
| Vectors.MultiplyVectors | build/Vectors.js:23-28 | the copy's `multiplyVectors`; AgreesWithVectorMath proves it equal to VectorMath's |
| Vectors.AddAndMultiplyCommute | build/Vectors.js:1-28 | the copy's addition and product commute, and `origin` is a right identity of its addition |
| Vectors.SubtractIsAddNegated | build/Vectors.js:5-19 | in the copy, adding `subractVectors(origin, v2)` is subtracting v2 |
| Agents.Agent.constructor | build/Agents.js:100-112 | the current fields hold the given state; every destination field equals its current field; `getPosition`/`getSize` return the state's position and the given size |
| Agents.Integrate | build/Agents.js:63-64 | the Euler step of `update`; its meaning is stated by the three Integrate lemmas below |
| Agents.Agent.GetPosition | build/Agents.js:32 | the position of the agent's current kinematic state, the one each update moves |
| Agents.Agent.Update | build/Agents.js:50-65 | the new kinematic state is one Euler step `Integrate` of the old one with deltaTime |
| Agents.IntegratePositionIgnoresAcceleration | build/Agents.js:63 | the position moves by the pre-step velocity times dt, whatever the acceleration |
| Agents.IntegrateKeepsTheRest | build/Agents.js:63-64 | a step leaves acceleration, orientation and cooldown unchanged |
| Agents.IntegrateZeroIsIdentity | build/Agents.js:63-64 | `update(0)` changes nothing |
| Agents.Agent.GetServerUpdate | build/Agents.js:71-86 | afterwards the kinematic state is exactly the new state, whatever it was before, so applying a state twice is applying it once; the destination fields are constants and cannot change |
| Agents.Agent.DrawSprite | build/Agents.js:19-28 | five ops: translate to location - size/2, rotate by the orientation, draw the image at (0, 0) with the given size, then undo both; the surface's transform is restored |
| Agents.Agent.RotateThenDraw | build/Agents.js:88-99 | translate(c), rotate(r), draw at c - pos, then two undoing transforms; the net transform is the identity |
| Canvas.BracketRestores | build/Agents.js:92-98 | translate, rotate, one drawing call, rotate back, translate back leaves no transform applied |
| Canvas.UnclosedBracketLeavesTranslation | build/Agents.js:92-97 | for every angle, without the final translate the bracket leaves the translation applied: the last call is needed |
| Bullets.Bullet.constructor | build/Bullet.js:48-50 | the bullet keeps the given point object itself (not a copy) and the velocity; `getPosition` reads that point |
| Bullets.Advance | build/Bullet.js:36-39 | straight-line motion of `update`; AdvanceZeroAndVelocity and AdvanceComposes state its laws |
| Bullets.Bullet.GetPosition | build/Bullet.js:11-13 | the position of the bullet's current motion, read from its shared point object |
| Bullets.Bullet.GetSize | build/Bullet.js:27-29 | the size is the radius 10 on both axes, for every bullet |
| Bullets.Bullet.Update | build/Bullet.js:36-39 | the bullet keeps its point object and its motion advances by velocity * deltaTime, velocity unchanged |
| Bullets.AdvanceZeroAndVelocity | build/Bullet.js:36-39 | a zero step changes nothing; every step keeps the velocity |
| Bullets.AdvanceComposes | build/Bullet.js:36-39 | two steps a and b equal one step a + b: the trajectory does not depend on frame slicing |
| Bullets.UpdateMovesSharedPoint | build/Bullet.js:37-38 | another holder of the bullet's point object sees it move: the update works in place |
| Bullets.Bullet.GetServerUpdate | build/Bullet.js:44-47 | afterwards position and velocity are exactly the state's, whatever the bullet held before, so applying a state twice is applying it once |
| Bullets.Bullet.DrawSprite | build/Bullet.js:18-23 | one filled circle centred at pos with radius size.x; no transform is left applied |
| GridBackground.GridOrigin | build/GridBackground.js:36-37 | topLeft + o is a whole number of cells and o is less than one cell from the corner; o is at or before the corner for a non-negative top-left and at or after it for a negative one, which pins o down |
| GridBackground.VerticalLines | build/GridBackground.js:39-44 | one full-height vertical line per x, in order |
| GridBackground.HorizontalLines | build/GridBackground.js:46-51 | one full-width horizontal line per y, in order |
| GridBackground.DrawVerticalLines | build/GridBackground.js:39-44 | the first loop emits a vertical line at every x it visits from the start while x <= width |
| GridBackground.DrawHorizontalLines | build/GridBackground.js:46-51 | the second loop emits a horizontal line at every y it visits from the start while y <= height |
| GridBackground.Draw | build/GridBackground.js:33-52 | `draw` emits the vertical lines, then the horizontal lines, starting from `origin - topLeft % dimensions` |
| GridBackground.GridLines | build/GridBackground.js:33-52 | the lines `draw` emits; GridLinesShape and GridFirstLine state their shape |
| GridBackground.GridLinesShape | build/GridBackground.js:38-51 | all vertical lines precede all horizontal lines. Vertical lines: each spans 0..height, each x <= width, consecutive ones are dimensions.x apart, the first is at the grid origin, and one more would pass the edge. The horizontal lines have the same shape on the other axis |
| GridBackground.GridFirstLine | build/GridBackground.js:34-39 | with a non-negative top-left the first vertical line is drawn, within one cell before the left edge; with a negative top-left it is on screen, less than one cell past the edge, and drawn once the screen is at least a cell wide |
| Stepping.PositionsShape | build/GridBackground.js:39 | the coordinates the loop visits: first the start, each at most the limit, one step apart, the next one past the limit; none when the start is past it |
| Stepping.RemainingShrinks | build/GridBackground.js:39 | each iteration takes one off the remaining count, so the loop ends for every positive step |
| Scene.SceneList.Push | build/GameWorld.js:51 | `scene.push` appends the object and keeps every earlier entry in place |
| Scene.FollowDeadZone | build/Scene.js:136-137 | within 1 of the destination on both axes the path does not move |
| Scene.FollowLerpOrClamp | build/Scene.js:139-149 | outside the dead zone, per axis: a signed gap <= 50 (every negative gap included) is closed by a tenth; a larger one leaves the camera exactly 50 behind |
| Scene.FollowGapNeverGrows | build/Scene.js:133-152 | for a fixed destination the gap never grows, on either axis |
| Scene.FollowGapShrinks | build/Scene.js:137-152 | outside the dead zone every non-zero gap strictly shrinks |
| Scene.FollowIsAsymmetric | build/Scene.js:139-149 | from 0, a target at 100 pulls the camera to 50, a target at -100 only to -10 |
| Scene.FollowAxis | build/Scene.js:136-149 | the follow rule on one axis; FollowDeadZone, FollowLerpOrClamp, FollowGapNeverGrows and FollowGapShrinks state its meaning |
| Scene.Follow | build/Scene.js:133-152 | the follow rule applied per axis to the path position (see FollowAxis) |
| Scene.ShakeStep | build/Scene.js:54-72 | one `shake(deltaTime)` on camera state values; ShakeStepCases, ShakeStartsOnPath and ShakeEnds state its meaning |
| Scene.ShakeStepCases | build/Scene.js:54-72 | at most 0.5 s into a shake: the camera is shaking, offset vertically from the path by the shake offset, and the timer grows by deltaTime. Past 0.5 s: the timer resets, shaking stops and the camera is put back on the path. The path never moves |
| Scene.ShakeStartsOnPath | build/Scene.js:59-65 | a shake started at time 0 with a zero step leaves the camera on its path |
| Scene.ShakeEnds | build/Scene.js:58-71 | with a positive frame time every shake ends: not shaking, timer 0, back on the unchanged path |
| Scene.UpdateStepCases | build/Scene.js:133-158 | an update follows the target, then shakes or puts the augmented position on the path; the augmented x always equals the path x; without a shake only the two positions change |
| Scene.UpdateStep | build/Scene.js:133-158 | one `update(deltaTime)` on camera state values (see UpdateStepCases) |
| Scene.WorldBoundsAreCentred | build/Scene.js:97-108 | the visible rectangle is centred on the augmented position and spans 2 * axesRadii / scale |
| Scene.Camera.ComputeWorldBounds | build/Scene.js:97-108 | the visible rectangle is centred on the augmented position and spans 2 * axesRadii / scale on each axis |
| Scene.Camera.CoordWithinBounds | build/Scene.js:111-117 | a coordinate is within bounds exactly when it is drawn within axesRadii of the screen centre |
| Scene.Camera.WorldToScreenCoords | build/Scene.js:162-167 | the augmented position is drawn at the screen centre, and the offset from it is the world offset times `scale` |
| Scene.WithinIsInclusive | build/Scene.js:111-117 | all four corners and the centre of the visible rectangle count as visible |
| Scene.CentreMapsToScreenCentre | build/Scene.js:162-167 | the augmented position is drawn at the screen centre |
| Scene.WorldToScreenIsAffine | build/Scene.js:162-167 | screen displacement is world displacement times `scale` on each axis |
| Scene.WithinIffNearScreenCentre | build/Scene.js:97-124 | a point is visible exactly when it is drawn within axesRadii of the screen centre |
| Scene.WithinIffOnScreen | build/Scene.js:111-124 | at the radii a camera is built with at scale 1, a point is visible exactly when it is drawn on the screen |
| Scene.VisibleIndices | build/Scene.js:85-93 | the objects drawn are indices into the scene |
| Scene.VisibleIndicesAreTheVisibleObjects | build/Scene.js:85-93 | an object is drawn exactly when its position is within the bounds, each once, in scene order |
| Scene.DrawVisible | build/Scene.js:85-93 | the object loop draws exactly the visible objects' sprites, each at its screen position with its size times `scale` |
| Scene.Camera.constructor | build/Scene.js:118-126 | both positions start at the target, axesRadii is half the screen times the scale, no shake running |
| Scene.Camera.CenterOn | build/Scene.js:48-50 | the target becomes the new one |
| Scene.Camera.Shake | build/Scene.js:54-72 | the camera state becomes one `ShakeStep` (see ShakeStepCases) |
| Scene.Camera.Update | build/Scene.js:133-159 | the camera state becomes one `UpdateStep` towards the target's position at the call (see UpdateStepCases) |
| Scene.Camera.RenderAll | build/Scene.js:78-94 | the grid background with cells of 100 * scale, then the sprites of exactly the visible objects in scene order |
| Scene.ClampScale | build/Scene.js:232-233 | the result is in [0.125, 3], equals the input inside that range and the nearer end outside it |
| Scene.ClampScaleIsMonotone | build/Scene.js:229-234 | more wheel zoom never yields a smaller clamped scale |
| Scene.PanDisplacement | build/Scene.js:182-196 | a pan moves 50 per held axis: Up beats Down, Right beats Left |
| Scene.Pan | build/Scene.js:182-196 | the arrow-key pan of the debug update (see PanDisplacement) |
| Scene.DebugStepCases | build/Scene.js:180-203 | in debug mode the path never moves, and without a shake only the pan changes the camera. A running shake puts the camera on the path's vertical line. Out of debug mode the step is the ordinary camera update |
| Scene.DebugStep | build/Scene.js:180-203 | the debug camera's update on camera state values (see DebugStepCases) |
| Scene.Without | build/Scene.js:225-227 | filtering never lengthens the key list |
| Scene.WithoutRemovesExactlyKey | build/Scene.js:226 | after keyup a key is held exactly when it was held before and is not the released key |
| Scene.WithoutKeepsOrder | build/Scene.js:226 | filtering works piece by piece, so the kept keys stay in their order |
| Scene.WithoutKeepsOthers | build/Scene.js:226 | every copy of the released key goes; every other key keeps its multiplicity |
| Scene.JsRound | build/GameWorld.js:55 | `Math.round`: the nearest integer, halves upward |
| Scene.NatToString | build/GameWorld.js:55 | an integer prints as a non-empty string of decimal digits |
| Scene.NatToStringRoundTrip | build/GameWorld.js:55 | reading the printed digits back gives the integer |
| Scene.LineText | build/GameWorld.js:55-56 | the text a menu line shows at display time: the camera mode, a fixed text, or a player's id with its rounded current position |
| Scene.MenuLayoutAt | build/Scene.js:249-254 | menu line i is text i, drawn at (30, 30 + 30 i) |
| Scene.MenuLinesAreSpaced | build/Scene.js:249-254 | the first line is at (30, 30) and each line is 30 below the previous one at the same x |
| Scene.MenuLayout | build/Scene.js:249-254 | one text op per line; MenuLayoutAt and MenuLinesAreSpaced state where each goes |
| Scene.DebugCamera.constructor | build/Scene.js:177-213 | a camera on the origin at scale 1, in debug mode, with no keys held and the three fixed menu lines |
| Scene.DebugCamera.Update | build/Scene.js:180-203 | the camera state becomes one `DebugStep` (see DebugStepCases) |
| Scene.DebugCamera.ToggleDebugFeatures | build/Scene.js:205-207 | the mode flips, so two toggles restore it |
| Scene.DebugCamera.OnKeyDown | build/Scene.js:214-224 | the key is appended to the held keys; space flips the mode; "s" runs one zero-length shake step; nothing else changes |
| Scene.DebugCamera.OnKeyUp | build/Scene.js:225-227 | the held keys become the old ones without any copy of the key (see the Without lemmas) |
| Scene.DebugCamera.OnWheel | build/Scene.js:229-234 | the scale becomes old scale + deltaY * -0.01 clamped to [0.125, 3]; it stays positive |
| Scene.DebugCamera.AddToDebugMenu | build/Scene.js:241-243 | the line is appended to the menu |
| Scene.DebugCamera.DisplayDebugMenu | build/Scene.js:247-255 | each line's current text, line i at (30, 30 + 30 i) (see MenuLayoutAt) |
| ServerUtils.ServerUpdateManager.constructor | build/ServerUtils.js:40-45 | a fresh manager has no update and holds an empty snapshot with no players and no bullets |
| ServerUtils.ServerUpdateManager.HasUpdate | build/ServerUtils.js:17 | returns the flag and changes nothing |
| ServerUtils.ServerUpdateManager.GetUpdate | build/ServerUtils.js:21-24 | clears the flag and returns the held snapshot, which stays held |
| ServerUtils.ServerUpdateManager.AcceptUpdate | build/ServerUtils.js:28-31 | raises the flag and holds the update, forgetting the previous one |
| ServerUtils.LatestWins | build/ServerUtils.js:21-31 | after accepting A then B, a take returns B and is indistinguishable from having accepted only B |
| ServerUtils.AcceptAllKeepsLast | build/ServerUtils.js:21-31 | whatever number of updates arrive between takes, the next take returns only the last |
| ServerUtils.TakeTwice | build/ServerUtils.js:21-24 | a take clears the flag and keeps the snapshot; a second take returns the same snapshot with the flag still down |
| ServerUtils.ServerUpdateManager.BeginRequestingUpdates | build/ServerUtils.js:36-39 | the provider gains exactly this manager as a listener, then starts exactly one sine timer |
| ServerUtils.ServerMock.constructor | build/ServerUtils.js:160 | no observers and no timers |
| ServerUtils.ServerMock.StartProvidingUpdates | build/ServerUtils.js:59-61 | starts one sine timer with its flag true |
| ServerUtils.ServerMock.AddUpdateListener | build/ServerUtils.js:65-67 | appends the listener |
| ServerUtils.ServerMock.BroadcastUpdate | build/ServerUtils.js:71-73 | every observer, in registration order, ends holding the same update with its flag raised |
| ServerUtils.ServerMock.OneSecIntervalUpdates | build/ServerUtils.js:77-117 | starts one interval timer with its counter at 0 |
| ServerUtils.ServerMock.IntervalTick | build/ServerUtils.js:118-123 | while i < 3 every observer receives `mockData[i]` and i grows by one; afterwards a tick changes nothing |
| ServerUtils.IntervalBroadcastsScript | build/ServerUtils.js:117-123 | n ticks from counter i broadcast `mockData[i..min(i + n, 3)]`, in order |
| ServerUtils.MockData | build/ServerUtils.js:78-116 | the three scripted snapshots of `oneSecIntervalUpdates` |
| ServerUtils.ServerMock.OneSecondSineMotion | build/ServerUtils.js:125-126 | starts one sine timer with its flag true |
| ServerUtils.ServerMock.SineTick | build/ServerUtils.js:155-158 | every observer receives the snapshot for the timer's flag, then the flag flips |
| ServerUtils.SineBroadcastsAlternate | build/ServerUtils.js:126-158 | tick k of a fresh sine timer broadcasts the (0,0)/(300,300) snapshot for even k and the (300,300)/(-300,-300) one for odd k |
| ServerUtils.SineMotionIsConsistent | build/ServerUtils.js:127-153 | an agent given either sine snapshot and integrated for one second lands on the other snapshot's position |
| ServerUtils.SineMotion | build/ServerUtils.js:127-153 | the two snapshots of `oneSecondSineMotion`, chosen by the flag; SineMotionIsConsistent relates them |
| Game.OverwriteSpec | build/GameWorld.js:41-77 | applying entries by id never loses a key and adds every id carried; each id ends with its last entry's value; untouched keys keep their values |
| Game.NewIdsSpec | build/GameWorld.js:43-51 | exactly the unseen ids of a snapshot are created, each once |
| Game.FrameKeepsIdsAndLastStateWins | build/GameWorld.js:38-92 | after applying and integrating, the tracked ids are the old ones plus the snapshot's, and each snapshot id holds its last entry's state stepped once |
| Game.KnownPlayerApplied | build/GameWorld.js:59 | an entry for a tracked id only overwrites its state: scene, menu and camera unchanged |
| Game.NewPlayerApplied | build/GameWorld.js:43-59 | an entry for an unseen id creates one agent, appends it to the scene once, adds its two menu lines and makes the camera follow it |
| Game.KnownBulletApplied | build/GameWorld.js:76 | an entry for a tracked bullet only overwrites its motion |
| Game.NewBulletApplied | build/GameWorld.js:70-76 | an entry for an unseen id creates one bullet and appends it to the scene once |
| Game.GameWorld.constructor | build/GameWorld.js:123-132 | no players or bullets, not requesting updates, `before` is now, an empty accumulator, an empty scene shared with a new debug camera in debug mode, with no keys held, the three fixed menu lines, scale 1 and both positions at the fixed origin target |
| Game.GameWorld.AddPlayer | build/GameWorld.js:110-113 | the player is tracked under id and appended to the scene |
| Game.GameWorld.AddBullet | build/GameWorld.js:119-122 | the bullet is tracked under id and appended to the scene |
| Game.GameWorld.ApplyPlayers | build/GameWorld.js:41-65 | players' states are overwritten by the entries in order. No tracked player is lost or rebound. Exactly the unseen ids get a fresh agent each, and the scene and the menu grow by exactly those. The camera follows the last one created |
| Game.GameWorld.ApplyPlayerStep | build/GameWorld.js:41-60 | one iteration of the player loop keeps the loop invariant `PlayersAppliedTo` |
| Game.GameWorld.ApplyKnownPlayer | build/GameWorld.js:59 | the known-id iteration keeps the loop invariant |
| Game.GameWorld.ApplyNewPlayer | build/GameWorld.js:43-59 | the unseen-id iteration keeps the loop invariant with the new agent recorded |
| Game.GameWorld.CreatePlayer | build/GameWorld.js:44-57 | a fresh agent of size 100x150 with the entry's state is tracked, added to the scene, followed by the camera and given two menu lines |
| Game.GameWorld.ShowPlayer | build/GameWorld.js:51-57 | a new player is appended to the scene, followed by the camera and given its two menu lines |
| Game.GameWorld.SnapPlayer | build/GameWorld.js:59 | only that id's kinematic state changes, to the entry's state |
| Game.GameWorld.ApplyBullets | build/GameWorld.js:67-77 | bullets' motions are overwritten by the entries in order. No tracked bullet is lost or rebound. Exactly the unseen ids get a fresh bullet each, and the scene grows by exactly those |
| Game.GameWorld.ApplyBulletStep | build/GameWorld.js:67-77 | one iteration of the bullet loop keeps the loop invariant `BulletsAppliedTo` |
| Game.GameWorld.ApplyKnownBullet | build/GameWorld.js:76 | the known-id iteration keeps the loop invariant |
| Game.GameWorld.ApplyNewBullet | build/GameWorld.js:70-76 | the unseen-id iteration keeps the loop invariant with the new bullet recorded |
| Game.GameWorld.CreateBullet | build/GameWorld.js:71-75 | a fresh bullet with the entry's motion is tracked and added to the scene |
| Game.GameWorld.SnapBullet | build/GameWorld.js:76 | only that id's motion changes, to the entry's |
| Game.GameWorld.ApplyServerUpdate | build/GameWorld.js:38-78 | a snapshot is taken, and the flag cleared, only when there is one. Its entries land in the views with the last entry per id winning, and no id is lost. The ids the world had not seen get fresh entities; the scene grows by exactly those players then those bullets, the menu by two lines per new player, and the camera follows the last new player |
| Game.GameWorld.ApplyUpdate | build/GameWorld.js:40-77 | the player loop, then the bullet loop, of one snapshot: the views are overwritten by the entries; the new ids get fresh agents and bullets; the scene grows by the new players then the new bullets; the menu gains each new player's two lines; the camera follows the last new player or keeps its target |
| Game.GameWorld.ApplyAndShow | build/GameWorld.js:38-78 | the snapshot step of a frame: what ApplyServerUpdate states, with the scene, menu and target growth stated on world snapshots (`Shown`) |
| Game.GameWorld.IntegratePlayers | build/GameWorld.js:80-85 | every tracked player takes exactly one Euler step of dt |
| Game.GameWorld.IntegrateBullets | build/GameWorld.js:86-92 | every tracked bullet advances exactly once by dt |
| Game.GameWorld.IntegrateEntities | build/GameWorld.js:80-92 | every player takes one Euler step and every bullet one advance of dt; nothing else of the world changes except the position the camera target reads |
| Game.GameWorld.AdvanceWorld | build/GameWorld.js:37-92 | the entity half of a frame (`Advanced`): the pending snapshot is applied with its new entities shown (`Shown`: scene, menu and camera target), then everything is integrated once; new entities are fresh; the camera state is untouched |
| Game.GameWorld.Frame | build/GameWorld.js:35-99 | a paced frame (`Framed`): clear, apply with the new entities shown, integrate, one camera step towards the position of the target `Shown` fixes (`Following`), then draw the picture of that scene and the menu |
| Game.GameWorld.DrawFrame | build/GameWorld.js:94-99 | one debug-camera step, then the drawing; nothing else of the world changes |
| Game.GameWorld.MoveCamera | build/GameWorld.js:94 | `camera.update` moves only the camera |
| Game.GameWorld.DrawScene | build/GameWorld.js:95-99 | the rendered scene followed by the debug menu |
| Game.GameWorld.GameLoop | build/GameWorld.js:25-104 | afterwards updates are being requested, and the clock and world moved as `Paced` says: nothing changes below 1000 / FPS, otherwise a whole frame runs, so the scene only grows by the snapshot's new entities and the camera target changes only to a new player |
| Game.GameWorld.StartRequestingUpdates | build/GameWorld.js:27-30 | only the first call registers the manager and starts a timer; later calls change nothing; the clock and world are untouched |
| Game.GameWorld.Tick | build/GameWorld.js:31-102 | the milliseconds since `before` accumulate and `before` becomes now. Below 1000 / FPS nothing else changes (entities, views, scene, menu, target, camera) and nothing is drawn. Otherwise a frame of accumulated / 1000 seconds runs and the accumulator empties; new entities are fresh |
| Game.GameWorld.FrameIfDue | build/GameWorld.js:34-99 | below 1000 / FPS milliseconds nothing changes and nothing is drawn; otherwise one whole frame (`Framed`) of elapsed / 1000 seconds runs and draws the cleared screen, the picture and the menu |
| Game.GameWorld.SetClock | build/GameWorld.js:100-102 | setting the clock fields leaves the world as it was |

## Left out

- `build/index.js` (canvas and image setup, constants) is not part of this model. `constants.FPS` (30) and `constants.DEBUG_MODE` (true) are copied in as constants. Because `DEBUG_MODE` is true, the debug menu lines are always added and the menu is always drawn.
- `build/Dogfighter.js` is not part of this model. It is a superseded game world that `index.js` does not import.
- `LiveServer` is left out: it is WebSocket and DOM I/O.
- `randInt` is left out: it depends on `Math.random`.
- `CloudySkyBackground` is left out: it is an empty stub.
- IEEE-754 doubles are modelled as exact reals, so no rounding is modelled.
- `Math.sin` in the shake offset is the uninterpreted parameter `sine`.
- `Math.PI` is its double value written as a real.
- `Date.now`, `requestAnimationFrame` and `setInterval` are left out as scheduling:
  - the current time is the parameter `now`;
  - the re-scheduling of `gameLoop` is not modelled;
  - each timer callback is an explicit tick method (`ServerMock.SineTick`, `ServerMock.IntervalTick`).
- Concurrency between timer callbacks and frames is not modelled.
- The canvas is not modelled beyond the emitted trace. Font setting, fill style, `beginPath`/`stroke` and image loading are folded into one `CanvasOp` per drawing call.
- `addEventListener` and `preventDefault` are not modelled. The three listeners are the methods `OnKeyDown`, `OnKeyUp` and `OnWheel`.
- The first `Camera` the `GameWorld` constructor builds is not modelled. It is immediately replaced by the `DebugCamera`.
- Only `DebugCamera` is used by the game, and it has no separate `shake`/`renderAll`. Those are `Camera`'s.
- Callbacks are narrowed to the ones the source passes:
  - the observers of `ServerMock` are managers, since only `acceptUpdate` is ever registered;
  - a camera target is the origin or an agent's `getPosition`;
  - an agent's sprite callback is the one `drawImage` call of the game world.
- Snapshot aliasing is not modelled. A snapshot is a value, so a bullet's `getServerUpdate` gets a fresh point object for the state's position. In the source the bullet shares the snapshot's object, which is never read again.
- `Object.keys` order in the integration loops is not modelled: each entity's step is independent of the others, so the loops are specified as unordered sweeps over the ids.
- Game.GameWorld.AddPlayer: requires that the agent is not already tracked under another id. The source does not check this. It keeps two ids from moving one agent twice per frame.
- Game.GameWorld.AddBullet: requires that neither the bullet nor its point object is already tracked under another id. The source does not check this either, for the same reason.
- Game.GameWorld.Tick: sets `before` and resets the accumulator before running the frame, where the source sets them after. The source frame reads the accumulator as its time step (build/GameWorld.js:84, 91, 94) and only then resets it (line 100); the model reaches the same outcome by passing the accumulated value from before the reset to the frame as `Seconds(elapsed)`. The frame does not read `before`.
- Game.GameWorld.ApplyUpdate: models the `players` and `bullets` id tables as `map<string, _>`, where every string is an ordinary key. The source uses plain JS objects, tested with `hasOwnProperty` (build/GameWorld.js:43, 70) and walked with `Object.keys` (lines 79, 86). There an id `"__proto__"` never becomes an own key, so every snapshot creates a new agent for it and that agent is never integrated; an id `"hasOwnProperty"` shadows the method, so the next lookup throws. The model does not capture either case.
- Game.GameWorld.GameLoop: does not restate how the first call changes the update source's observers and timers. `Game.GameWorld.StartRequestingUpdates` states that. It also does not restate that new entities are fresh objects; `Game.GameWorld.Tick` and `Game.GameWorld.Frame` state that.
- GridBackground.GridOrigin: its lines fall on multiples of the world cell size only at scale 1. The camera passes the world top-left with a cell size already scaled to the screen, so at other scales the grid is not aligned to the world.
- `finishedCreatingDebugMenu` and the destination fields of `Agent` are set and never read. They are kept as fields with no behaviour.
- The sprite sizes are modelled, but the drawn images are not.
