# First-person controller of griffinipple.github.io, in Dafny

This project models the single-player controller in `script.js`, the
`GameController` class of a browser first-person game built on three.js.
The model covers:

- the keyboard state machine: `onKeyDown` and `onKeyUp` with the arrow/WASD
  bindings and the one-shot jump;
- the two contact classifiers: `checkCollision` and `checkGround`;
- the per-tick `updateMovement`: ground snap, landing and gravity, then a
  horizontal step of `SPEED * delta` turned to the camera's yaw and gated
  by a collision test;
- the projectile list: `launchProjectile` appends, and `handleProjectiles`
  walks the list backwards and splices;
- `animate`, which runs one tick with the fixed step 0.016 only while the
  pointer is locked.

The controller is a Dafny `class` (`Controller.GameController`). Its fields
are the `moveState` flags, `camera.position` and `ballProjectiles`. Each
method's postcondition ties the new state to a function of the old state:

- `Input.KeyDown` and `Input.KeyUp`;
- `Movement.Tick`, built from `Vertical` and `Horizontal`;
- `Projectiles.Launch` and `Projectiles.Survivors`.

The properties of the game are proved about those functions as lemmas.

Library code enters as parameters:

- The ray caster is a `Scene`: a function from a ray to its hits, nearest
  first.
- `Math.sqrt` is a parameter `sqrt`. Lemmas that need it require `IsSqrt`,
  the defining property of the non-negative square root.
- The camera's yaw, which `getWorldDirection` and `Matrix4.lookAt` produce,
  is a `Rotation`: a pair (c, s) with c² + s² = 1.
- The look direction for a shot comes in as a plain vector.
- The pointer-lock state is a boolean.

Arithmetic is over exact reals.

The slope test `acos(normal . up) <= 60` degrees is modelled as
`1/2 <= normal.y <= 1` (`Raycast.Walkable`). On [-1, 1], `acos` is
decreasing and `cos 60° = 1/2`. Outside [-1, 1], `acos` yields NaN and the
comparison is false. Over doubles the boundary `normal.y = 1/2` itself is
not walkable; see "Left out".

`checkCollision` blocks when the *walkable* nearest hit is closer than
1.5 * RADIUS, and when any nearest hit is closer than RADIUS. So a walkable
surface stops the player further out (1.5 * RADIUS) than a steep one
(RADIUS).

## Model

| member | source | states |
|---|---|---|
| Contact.CheckCollision | script.js:254-271 | blocked exactly when there is a nearest hit that is closer than RADIUS, or is walkable and closer than 1.5 * RADIUS; no hits never block |
| Contact.GroundSupport | script.js:273-292 | a support exists exactly when there is a nearest hit closer than HEIGHT + 0.1 with a walkable normal; the eye then snaps to that hit's height plus HEIGHT |
| Contact.CloseHitBlocks | script.js:257-268 | any hit anywhere on the ray closer than RADIUS blocks, since the nearest hit is at most as far |
| Contact.FarHitsNeverBlock | script.js:265-268 | nothing at or beyond 1.5 * RADIUS ever blocks |
| Contact.OnlyNearestHitCounts | script.js:259-260 | two hit lists with the same nearest hit block alike and ground alike; later hits are never consulted |
| Contact.WalkableBlocksSooner | script.js:265-268 | at equal distance a walkable surface blocks whenever a steep one does; between RADIUS and 1.5 * RADIUS only the walkable one blocks |
| Raycast.Walkable | script.js:260-265 | a normal is walkable when its vertical component lies in [1/2, 1], which is the 60-degree test over exact reals; its consequences are stated by CheckCollision, GroundSupport and WalkableBlocksSooner |
| Input.Binding | script.js:119-134 | ArrowUp/KeyW map to forward, ArrowDown/KeyS to backward, ArrowLeft/KeyA to left, ArrowRight/KeyD to right, in both directions of each equivalence |
| Input.KeyDown | script.js:118-143 | every flag is its old value or-ed with "this key is bound to it"; non-Space codes keep the jump state; Space with a jump available sets the vertical velocity to JUMP_FORCE and uses the jump up; Space without one changes nothing |
| Input.KeyUp | script.js:145-164 | every flag is its old value and-ed with "this key is not bound to it"; the jump state and velocity never change |
| Input.UnboundKeysChangeNothing | script.js:118-164 | an unbound code changes nothing on key-down (unless it is Space) and nothing on key-up, Space included |
| Input.KeyTouchesOnlyItsFlag | script.js:118-164 | a bound key sets (down) or clears (up) its own flag and leaves every other flag as it was |
| Input.PressThenRelease | script.js:118-164 | pressing then releasing a bound key leaves its flag false and the rest of the state as before |
| Input.SecondSpaceIgnored | script.js:136-141 | a second Space before any tick is a no-op |
| Input.KeysNeverRestoreJump | script.js:118-164 | once the jump is used, no sequence of key events restores it or changes the vertical velocity |
| Input.AtMostOneJump | script.js:136-141 | after the first Space that jumps, any further key events leave the velocity at JUMP_FORCE and the jump used |
| Input.OnKey | script.js:112-116 | dispatching one event never makes a jump available, and a key-up never touches the jump or the vertical velocity |
| Input.Replay | script.js:112-116 | handling a sequence of events in order never makes a jump available; further properties in KeysNeverRestoreJump, AtMostOneJump and ReplayAppend |
| Input.ReplayAppend | script.js:112-116 | replaying two event sequences one after the other equals replaying their concatenation |
| Movement.Vertical | script.js:295-304 | the vertical half never moves the player horizontally nor changes a held flag |
| Movement.NetInput | script.js:307-311 | the key-derived velocity has no vertical component |
| Movement.NetInputSize | script.js:307-314 | the net input is zero exactly when opposite keys cancel; otherwise its squared length is 625 or 1250 |
| Movement.Horizontal | script.js:314-338 | the horizontal half keeps the move state and either leaves the position or adds exactly the move vector |
| Movement.MoveVector | script.js:314-333 | the attempted displacement is horizontal; its length is SPEED * delta by StepLength and its direction the heading by ForwardFollowsHeading |
| Movement.Tick | script.js:294-339 | a tick never changes a held flag, and leaves the jump available exactly when it was before or the ground check found a support; the vertical and horizontal rules are GroundedRule, AirborneRule, StepLength and their neighbours |
| Movement.GroundedRule | script.js:295-304 | on a support: jump available, vertical velocity is the old one clamped at 0 from below, height is support height plus velocity * delta |
| Movement.AirborneRule | script.js:295-304 | in the air: vertical velocity drops by exactly GRAVITY * delta, jump state unchanged, height moves by the new velocity * delta |
| Movement.RestingIsStable | script.js:280-304 | a player at rest on its support stays at the same height with zero vertical velocity and the jump available |
| Movement.JumpRestoredOnlyByLanding | script.js:295-299 | a player without a jump has one after the tick exactly when the ground check found a support |
| Movement.CancelledInputStaysPut | script.js:307-314 | with opposite keys cancelling, the horizontal half does nothing |
| Movement.BlockedStaysPut | script.js:335-337 | a blocked move is not taken |
| Movement.StepLength | script.js:314-337 | a move that happens keeps the height and has length SPEED * delta, whatever keys are held and whatever the yaw |
| Movement.ForwardFollowsHeading | script.js:308-336 | with only forward held, the player moves SPEED * delta along the camera's horizontal heading |
| Vectors.NormalizeIsUnit | script.js:316 | normalising a vector of positive length gives a unit vector in the same direction |
| Vectors.RotatePreservesLength | script.js:319-333 | the yaw rotation keeps the height and the length of the move vector |
| Vectors.Normalize | script.js:316 | a vector of length 0 is returned unchanged; for any other one NormalizeIsUnit gives the unit vector v / length |
| Vectors.Rotate | script.js:324-333 | the rotation keeps the height, and the identity yaw (1, 0) leaves a vector as it is; RotatePreservesLength gives the length |
| Projectiles.LaunchGeometry | script.js:341-354 | for a unit look direction the ball starts 0.6 = RADIUS + PROJECTILE_RADIUS from the eye, flies at speed 50 and has travelled 0 |
| Projectiles.Launch | script.js:341-354 | a new ball has travelled 0 and starts ahead of the eye along its own velocity, at (RADIUS + PROJECTILE_RADIUS) / PROJECTILE_SPEED of it; LaunchGeometry gives the distances |
| Projectiles.Advance | script.js:362-365 | a step keeps the velocity; AdvanceTravels shows it adds to the distance travelled exactly the length of the displacement it makes |
| Projectiles.Retired | script.js:367-368 | a ball is removed when it has travelled more than DISTANCE_LIMIT or checkCollision from its new position along its velocity blocks; KeptIffNotRetired ties it to the list |
| Projectiles.Survivors | script.js:360-373 | one tick never lengthens the list |
| Projectiles.Kept | script.js:360-373 | one kept position per survivor, each a valid old index, strictly increasing (the order is kept) |
| Projectiles.SurvivorsAreKept | script.js:362-365 | the k-th survivor is the advanced ball from old position Kept[k] |
| Projectiles.KeptIffNotRetired | script.js:367-371 | a ball stays exactly when, after its step, it has flown at most 115 and does not collide |
| Projectiles.AdvanceTravels | script.js:363-365 | a step adds to the distance travelled exactly the length of the displacement it makes, so never shortens it |
| Projectiles.SurvivorsTravelFurther | script.js:360-373 | every survivor has travelled at least as far as the ball it came from |
| Projectiles.SurvivorsAppend | script.js:360-373 | balls do not interact: updating a list equals updating its two halves |
| Projectiles.StepAtLaunchSpeed | script.js:363-365 | at speed 50 and step 0.016 each step covers exactly 0.8 |
| Projectiles.FlightAtLaunchSpeed | script.js:363-365 | after n such steps the ball has covered 0.8 * n more, velocity unchanged |
| Projectiles.LoneBallLifetime | script.js:360-373 | a fresh launch-speed ball that never collides survives ticks 1 to 143 and is gone from tick 144 on |
| Projectiles.LaunchedBallLifetime | script.js:341-373 | a ball launched along a unit direction into open space is removed on exactly its 144th tick |
| Controller.GameController.constructor | script.js:24-47 | no flags held, jump available, zero vertical velocity, eye at (0, HEIGHT, 0), no projectiles |
| Controller.GameController.OnKeyDown | script.js:118-143 | the new move state is KeyDown of the old; position and projectiles unchanged |
| Controller.GameController.OnKeyUp | script.js:145-164 | the new move state is KeyUp of the old; position and projectiles unchanged |
| Controller.GameController.OnMouseDown | script.js:166-170 | button 0 appends exactly Launch(eye, look); any other button changes nothing |
| Controller.GameController.LaunchProjectile | script.js:341-358 | appends exactly one ball, Launch(eye, look), after the untouched existing ones; nothing else changes |
| Controller.GameController.CheckGround | script.js:273-292 | returns whether GroundSupport finds a support; on true only the eye height changes, to the support's; on false nothing changes |
| Controller.GameController.UpdateMovement | script.js:294-339 | the new player state is Tick of the old; projectiles unchanged |
| Controller.GameController.HandleProjectiles | script.js:360-373 | the reverse loop with splice leaves exactly Survivors of the old list; player unchanged |
| Controller.GameController.Animate | script.js:375-385 | while locked: one movement tick and one projectile tick with delta 0.016; unlocked: nothing changes |

## Left out

- `main.js` is not part of this model. It is a separate, unfinished WebGL entry point: context setup, pointer-lock listeners, a mouse-look with a pitch clamp, an empty `update()` and placeholder draw routines. `GameController` never uses it.
- Scene, renderer, light, crosshair, menu and level construction (`setupRenderer`, `createCrosshair`, `createEnvironment`, `createSpawnArea`, `createBridge`) are left out: they build the world that the `Scene` parameter stands for.
- `setupControls`, `setupEventListeners` and pointer-lock event wiring are left out; the pointer-lock state is a parameter of `Animate`. The constructor does include the eye-height lift from `setupControls`.
- `Raycaster.intersectObjects`, `getWorldDirection`, `Matrix4.lookAt` and `Quaternion.setFromRotationMatrix` are library code. They appear only as the `Scene`, the look vector and the `Rotation` parameters. The `Rotation` parameter ranges over every yaw, the identity `Yaw(1, 0)` included, so the lemmas quantified over it hold for whatever yaw the library produces, also when the camera looks straight up or down.
- `Math.sqrt` is a parameter. Its correctness (`IsSqrt`) is assumed only by the lemmas that need it.
- Walkable: floating-point rounding is not modelled; all arithmetic is exact. In doubles, `radToDeg(acos(0.5))` is `60.00000000000001`, so a normal with y exactly 0.5 is not walkable in the program but is walkable in the model.
- The `grounded`, `sliding` and `velocity` fields of `moveState` are declared but never used. `ACCELERATION`, `FRICTION` and `AIR_CONTROL` are never read. None of them is modelled. The projectile colour only feeds the ball's material, and rendering is left out.
- There is no speed cap, friction, air control or floor clamp in the code, so none is modelled.
- Projectile meshes, `scene.remove` and rendering are left out. A ball is a value in a sequence, written back after each step rather than updated in place through an aliased object.
- `checkGround` and `checkCollision` take a position argument. The controller always passes `camera.position` to `checkGround`, so `CheckGround` reads the eye position directly.
- `requestAnimationFrame` scheduling and frame timing are left out; `Animate` is one frame.
