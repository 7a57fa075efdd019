# PixelMan Adventures gameplay scripts, modelled in Dafny

This project models the gameplay scripts of PixelMan Adventures, a 2D platformer built on the Godot engine with C# scripts. Nearly every script is a small per-tick state machine made of timers, flags, counters and clamps, driven by the engine's `_PhysicsProcess`, `_Process` and signal handlers. The model keeps that logic and abstracts the engine's own work (see below):

- the shared kinematics of dynamic bodies: friction with a snap to rest, the quadratic acceleration ramp, signed gravity and the speed clamp;
- both generations of the player controller: edge-triggered input, the jump buffer, coyote time, the jump cut, death and reset, the animation state, and save/restore;
- the projectile pool shared by the guns and the search for the nearest visible player;
- the bullet's and the rocket's active/inactive machines;
- the wall gun, turret, rocket launcher and laser gun timers and cycles;
- the path-following saw (with its in-place path reversal) and both rolling saws;
- the moving platform and the gravity switch;
- the checkpoint's attempts counter and resurrection countdown;
- the player death particle's deferred visibility and one-shot teleport;
- both player cameras: the bit-flag fold over overlapping camera areas, the zoom, look-ahead and deadzone rules, the easing, and the reset delay;
- the `RSMath` helpers and the `Globals` avatar selection.

Each stateful script is a Dafny `class` with the script's fields. Its handlers are methods with `modifies` clauses, and each method's `ensures` gives the new value of every field it may change, except where a line under "## Left out" says otherwise. Where a tick is long, the method is tied to a pure function on a state record, and the lemmas are stated about that function. Pure helpers are functions. Subclassing is modelled by composition: a subclass holds its base object as a `const`. Floats are `real`. Null references and thrown exceptions are `Option` and `Result` values.

The engine does some work the scripts only call. The model abstracts it as follows:

- `MoveAndSlide` is a function parameter of type `Slider`. It maps the velocity a tick hands to the engine to a `Slide`: the position, velocity, wall and floor contacts and floor normal the slide leaves. Each tick feeds it exactly the velocity the script wrote, and then takes the position and velocity it returns. What the tick does next reads the slide's contacts.
- the contacts a tick reads before it moves (a `Contact`);
- raycast hits, and whether a line of sight is blocked;
- the block under the body;
- the position `MoveToward` computes.

Trigonometry comes in as a `Trig` record of functions. Random draws and the screen shake come in as plain values.

Modules: `Wrappers`, `Vectors`, `RSMath`, `Globals`, `GameObject`, `DynamicBodies`, `PlayerMechanics`, `Players`, `LegacyPlayers`, `Bullets`, `Rockets`, `GunBases`, `WallGuns`, `Guns`, `RocketLaunchers`, `LaserGuns`, `Saws`, `MobileSaws`, `LegacyMobileSaws`, `Platforms`, `GravitySwitches`, `Checkpoints`, `DeathParticles`, `CameraAreas`, `PlayerCameras`, `LegacyPlayerCameras`.

## Model

| member | source | states |
|---|---|---|
| Bullets.Bullet.constructor | objects/bullet/Bullet.cs:34-37 | a new bullet is at rest, inactive and was not active |
| Bullets.Bullet.PhysicsProcess | objects/bullet/Bullet.cs:54-75 | an active bullet moves by velocity times delta, an inactive one stays; the impact effect plays exactly when the bullet was active last tick and is not now; hitbox and sprite then follow the activity flag |
| Bullets.Bullet.OnResetGame | objects/bullet/Bullet.cs:77-80 | a reset deactivates the bullet |
| Bullets.Bullet.OnBodyEntered | objects/bullet/Bullet.cs:82-93 | an inactive bullet reports no death; an active one is spent and reports a player death exactly when the body is a player |
| Bullets.Bullet.OnAreaEntered | objects/bullet/Bullet.cs:95-102 | any area contact leaves the bullet inactive |
| Bullets.Bullet.ShootAt | objects/bullet/Bullet.cs:105-113 | the bullet is placed at the muzzle, turned to the direction, given speed along that angle and activated |
| Bullets.ResetThenTick | objects/bullet/Bullet.cs:54-80 | after a reset the next tick plays the impact effect exactly when the bullet had been active |
| Bullets.HitThenTicks | objects/bullet/Bullet.cs:54-93 | a hit plays the impact effect on the next tick and not on the one after |
| CameraAreas.StepOptions | scenes/objects/player/scripts/PlayerCamera.cs:132-136 | an area with OVERRIDE_OVERLAPING_AREAS_OPTIONS replaces the options gathered so far; any other area adds its flags to them |
| CameraAreas.LastOverride | scenes/objects/player/scripts/PlayerCamera.cs:129-135 | finds the last area carrying the OVERRIDE_OVERLAPING_AREAS_OPTIONS flag (1 << 7): that area has it and no later one does; None exactly when no area has it |
| CameraAreas.FoldOptions | scenes/objects/player/scripts/PlayerCamera.cs:130-153 | the folded options are the last overriding area's options together with those of every later area, or, without an overriding area, the starting options together with all the areas' options |
| CameraAreas.NoOverrideIsUnion | scenes/objects/player/scripts/PlayerCamera.cs:130-153 | with nothing gathered and no overriding area, the folded options are the union of all the areas' options |
| CameraAreas.FoldHasFoldedOptions | scenes/objects/player/scripts/PlayerCamera.cs:130-136 | the options the area loop gathers depend only on the starting options and the areas' options, not on their positions, zooms or offsets |
| CameraAreas.FoldedAfterLastOverride | scenes/objects/player/scripts/PlayerCamera.cs:130-136 | with an overriding area present, the options gathered over all areas are the last one's together with those of every later area |
| CameraAreas.FoldedFromOverride | scenes/objects/player/scripts/PlayerCamera.cs:130-136 | from an overriding area on, with no later override, the gathered options are that area's together with those of every area after it |
| CameraAreas.FoldedWithoutOverride | scenes/objects/player/scripts/PlayerCamera.cs:130-136 | when no area overrides, every area adds its options to the starting ones |
| CameraAreas.FoldAreas | scenes/objects/player/scripts/PlayerCamera.cs:130-153 | the loop over the areas computes the fold of the areas in order |
| Checkpoints.CheckpointPlayer.constructor | scenes/objects/checkpoint/Checkpoint.cs:48 | a player's checkpoint attempts start at 0 until a checkpoint sets them |
| Checkpoints.ResurrectionPoint | scenes/objects/checkpoint/Checkpoint.cs:72 | a resurrected player reappears 32 units above the checkpoint |
| Checkpoints.SignRotation | scenes/objects/checkpoint/Checkpoint.cs:81-86 | from 359 degrees on the sign snaps to 360; below it moves 15% of the way to 360; it never overshoots |
| Checkpoints.Checkpoint.constructor | scenes/objects/checkpoint/Checkpoint.cs:38-61 | a ready checkpoint is unclaimed, with no countdown, the number hidden and the sign shown at 360 degrees |
| Checkpoints.Checkpoint.SetNumber | scenes/objects/checkpoint/Checkpoint.cs:89-103 | no attempts hide the sign; a positive count shows the number, with the count's texture when there is one, and turns the sign to 0; a negative count is an index-out-of-range fault, exactly then, that changes nothing |
| Checkpoints.Checkpoint.OnHitboxEntered | scenes/objects/checkpoint/Checkpoint.cs:45-53 | the first player to touch an unclaimed checkpoint claims it with the available attempts and has the number drawn exactly as SetNumber draws it for that count; any other contact changes nothing |
| Checkpoints.Checkpoint.OnPlayerDeath | scenes/objects/checkpoint/Checkpoint.cs:105-114 | the countdown starts at 1 second exactly when the claimant dies with attempts left |
| Checkpoints.Checkpoint.PhysicsProcess | scenes/objects/checkpoint/Checkpoint.cs:63-87 | while the countdown runs it goes down by delta and a resurrection is pending; once it has run out a pending resurrection uses one attempt, returns the resurrection point and redraws the number as SetNumber does; a negative count stops the tick with the resurrection still pending and the sign's rotation unchanged; an unclaimed checkpoint or one with nothing pending changes nothing, its sign and number flags included; the sign eases round |
| Checkpoints.Checkpoint.OnResetGame | scenes/objects/checkpoint/Checkpoint.cs:116-124 | the claim is released, the countdown cleared, the number hidden and the sign shown |
| Checkpoints.DeathThenResurrection | scenes/objects/checkpoint/Checkpoint.cs:63-114 | a claimant that dies with attempts left and waits out the one-second countdown comes back exactly once, ending with one attempt fewer |
| Checkpoints.ResetDuringCountdown | scenes/objects/checkpoint/Checkpoint.cs:63-124 | a reset during the countdown keeps the pending flag, so a player who claims the checkpoint again is resurrected on the next tick without having died, using an attempt |
| DeathParticles.PlayerDeathParticle.constructor | objects/player/PlayerDeathParticle.cs:27-32 | a new particle has no teleport armed, nothing waiting and no delay running |
| DeathParticles.PlayerDeathParticle.SetLateVisible | objects/player/PlayerDeathParticle.cs:35-42 | the value waits and the 0.05 s delay restarts; the reported visibility is unchanged |
| DeathParticles.PlayerDeathParticle.Reset | objects/player/PlayerDeathParticle.cs:45-49 | a teleport to the position is armed |
| DeathParticles.PlayerDeathParticle.PhysicsProcess | objects/player/PlayerDeathParticle.cs:51-60 | a running delay goes down by delta and the waiting visibility is applied on the tick it runs out; otherwise nothing changes |
| DeathParticles.PlayerDeathParticle.IntegrateForces | objects/player/PlayerDeathParticle.cs:64-75 | an armed teleport moves the body's origin to the reset position and disarms; otherwise the origin stays |
| DeathParticles.SetThenTick | objects/player/PlayerDeathParticle.cs:35-60 | setting the late visibility takes effect after one tick of the full delay |
| DeathParticles.TeleportOnce | objects/player/PlayerDeathParticle.cs:45-75 | the teleport is one-shot: a second integration step leaves the body where physics moved it, with its rotation kept |
| DynamicBodies.Gravity | scripts/gameobjects/bases/DynamicBody.cs:56-66 | the gravity has the project gravity's magnitude and, for a positive project gravity, points up exactly when inverted |
| DynamicBodies.GravityFlipNegates | scripts/gameobjects/bases/DynamicBody.cs:56-66 | inverting the flag negates the gravity |
| DynamicBodies.SurfaceFor | scripts/gameobjects/bases/DynamicBody.cs:93-111 | standing only on a Block takes its acceleration factor and air override, and its friction, halved while there is input; otherwise speed and override are kept; in the air without override the friction is 2; off a lone Block the friction is kept on the floor and in the air with the override |
| DynamicBodies.ApplyFriction | scripts/gameobjects/bases/DynamicBody.cs:114-118 | at or below 16 units/s the horizontal velocity snaps to 0 |
| DynamicBodies.FrictionAboveSnap | scripts/gameobjects/bases/DynamicBody.cs:114-115 | above 16 units/s friction takes sign(vx) * friction * speed * delta off |
| DynamicBodies.FrictionOnlySlows | scripts/gameobjects/bases/DynamicBody.cs:114-118 | friction that does not overshoot only slows the body and never reverses it |
| DynamicBodies.Accelerate | scripts/gameobjects/bases/DynamicBody.cs:120-123 | without input, or at or above the top speed, the velocity is unchanged |
| DynamicBodies.AccelerationBelowTopSpeed | scripts/gameobjects/bases/DynamicBody.cs:121-122 | below the top speed with input, the added term is (horizontalSpeed * delta) squared, signed by the input, times 3 |
| DynamicBodies.AccelerationFollowsInput | scripts/gameobjects/bases/DynamicBody.cs:120-123 | the acceleration never pushes against the input |
| DynamicBodies.NoInputSnapsToRest | scripts/gameobjects/bases/DynamicBody.cs:114-123 | a body slower than 16 units/s with no input ends the step at rest horizontally |
| DynamicBodies.ClampSpeed | scripts/gameobjects/bases/DynamicBody.cs:137-138 | the speed lies in [-maxSpeed, maxSpeed] and is unchanged when already inside |
| DynamicBodies.ClampVelocity | scripts/gameobjects/bases/DynamicBody.cs:136-139 | both components end within the speed limit, and a velocity inside it is unchanged |
| DynamicBodies.ImpulseByVectors | scripts/gameobjects/bases/DynamicBody.cs:152-153 | the impulse formula equals the source's vector arithmetic: multiply by One - abs(direction), add direction * force |
| DynamicBodies.ImpulseAlongX | scripts/gameobjects/bases/DynamicBody.cs:148-154 | a horizontal impulse replaces the horizontal velocity by the signed force and keeps the vertical one |
| DynamicBodies.ImpulseAlongY | scripts/gameobjects/bases/DynamicBody.cs:148-154 | a vertical impulse replaces the vertical velocity by the signed force and keeps the horizontal one |
| DynamicBodies.DynamicBody.constructor | scripts/gameobjects/bases/DynamicBody.cs:35-50 | a new body is at rest with normal gravity, speed (144, 304), friction 2 and no air override |
| DynamicBodies.DynamicBody.ProcessVelocity | scripts/gameobjects/bases/DynamicBody.cs:83-129 | the up direction is opposite to gravity; the stored friction and override become SurfaceFor's; the returned velocity is friction then acceleration horizontally and velocity plus gravity times delta vertically |
| DynamicBodies.DynamicBody.UpdateSurface | scripts/gameobjects/bases/DynamicBody.cs:93-111 | the stored friction and override become SurfaceFor's, and the returned horizontal speed is SurfaceFor's, scaled by a block stood on alone |
| DynamicBodies.DynamicBody.ApplyVelocity | scripts/gameobjects/bases/DynamicBody.cs:134-140 | the stored velocity is the clamped one, within the speed limit |
| DynamicBodies.DynamicBody.AddVelocity | scripts/gameobjects/bases/DynamicBody.cs:143-146 | the velocity grows by the given vector |
| DynamicBodies.DynamicBody.Impulse | scripts/gameobjects/bases/DynamicBody.cs:148-154 | the velocity becomes ImpulseVelocity of the old velocity |
| DynamicBodies.DynamicBody.SwitchGravity | scripts/gameobjects/bases/DynamicBody.cs:156-159 | the gravity flag is inverted |
| DynamicBodies.SwitchGravityTwice | scripts/gameobjects/bases/DynamicBody.cs:156-159 | switching twice restores the flag and changes nothing else |
| Guns.Gun.constructor | objects/gun/Gun.cs:27-29 | a new turret's timer is 0 |
| Guns.Gun.PhysicsProcess | objects/gun/Gun.cs:32-52 | no raycast is an error that changes nothing; the target is the nearest visible player; with none the timer becomes half a second and nothing turns or shoots; with one the turret turns toward it with factor 10, then fires from one and a half cells ahead along its rotation and rearms for a second, or runs the timer down by delta; a shot reuses the pool's first projectile not in flight, or appends one when all fly, and changes no other projectile; a tick without a shot, or a failed shot, leaves the pool and the timer as they were; the timer stays at most one second |
| Guns.Gun.Track | objects/gun/Gun.cs:36-48 | the turret turns toward the aimed-at point by the sine rule with factor 10; then the tick is FireOrWait's |
| Guns.Gun.FireOrWait | objects/gun/Gun.cs:39-48 | a running timer goes down by delta and the pool is untouched; a run-out timer fires one projectile from the muzzle as the pool's shot rule says and rearms for a second; a failed shot leaves the timer and the pool |
| GunBases.ShootProjectile | scripts/gameobjects/bases/GunBase.cs:49-65 | the chosen projectile is fired from the muzzle along the direction at the speed; a rocket that has a target aims at that player instead |
| GunBases.GunBase.constructor | scripts/gameobjects/bases/GunBase.cs:30-34 | a new gun has an empty pool and angle 0 |
| GunBases.GunBase.FirstInactive | scripts/gameobjects/bases/GunBase.cs:47-52 | the index found is the first projectile of the pool not in flight, or the pool's length when all are in flight |
| GunBases.GunBase.Shoot | scripts/gameobjects/bases/GunBase.cs:40-71 | a missing scene is an error; otherwise the first pooled projectile not in flight is fired and the pool is unchanged; only when all are in flight is a new projectile of the scene's kind appended and fired; a scene that is not a projectile is then an error; an error changes nothing; no other pooled projectile is touched |
| GunBases.GunBase.GetNearestPlayer | scripts/gameobjects/bases/GunBase.cs:77-106 | no raycast is an error; otherwise the answer is a player not blocked by a wall, nearer than the starting bound, no farther than any other visible player and strictly nearer than every visible player before it; no answer means no visible player is within the bound |
| GunBases.GunBase.LookAt | scripts/gameobjects/bases/GunBase.cs:113-118 | the angle turns by sin(direction - angle) times delta and the rotation shows it |
| GunBases.NearestIsUnique | scripts/gameobjects/bases/GunBase.cs:84-105 | the nearest-player search has at most one answer |
| LaserGuns.Clamp | scenes/objects/obstacles/laser_gun/LaserGun.cs:139 | the result lies between the bounds and is the value itself when that already does |
| LaserGuns.Lerp | scenes/objects/obstacles/laser_gun/LaserGun.cs:181 | weight 0 gives the start and weight 1 the end |
| LaserGuns.RendererSpriteIndex | scenes/objects/obstacles/laser_gun/LaserGun.cs:139-141 | the reload sprite index is the floor of the clamped progress times the sprite count, and always a valid index: the modulo never wraps |
| LaserGuns.ScaledBelowCount | scenes/objects/obstacles/laser_gun/LaserGun.cs:139-141 | a progress clamped to at most 0.99, scaled by the sprite count, stays below the count |
| LaserGuns.RendererSpriteEnds | scenes/objects/obstacles/laser_gun/LaserGun.cs:139-141 | an empty reload shows the first sprite; a full one shows sprite floor(0.99 * count) |
| LaserGuns.HitboxKills | scenes/objects/obstacles/laser_gun/LaserGun.cs:65-70 | the beam's hitbox reports a death exactly for a player body |
| LaserGuns.LaserGun.constructor | scenes/objects/obstacles/laser_gun/LaserGun.cs:49-61 | a new gun is fully reloaded, not charging, with both sprite indices 0 and a laser distance of 1600; every sprite shows at full opacity with texture 0, and the beam is armed at unit scale |
| LaserGuns.LaserGun.PhysicsProcess | scenes/objects/obstacles/laser_gun/LaserGun.cs:144-194 | the distance follows the ray when it hits; a reloading gun adds delta over the reload time; an armed gun starts a 0.4 s charge exactly when its player ray sees a player; a charging gun counts down and fires exactly when the count reaches 0, which empties the reload; a beam thicker than 0.05 shrinks by 15%, spans the distance and kills, a thinner one is hidden and harmless; the gun's invariant is kept |
| LaserGuns.LaserGun.AnimateReloading | scenes/objects/obstacles/laser_gun/LaserGun.cs:79-92 | the line shows at half opacity without outline; the laser index stays 0; an empty laser sprite list throws on a frame |
| LaserGuns.LaserGun.AnimateArmed | scenes/objects/obstacles/laser_gun/LaserGun.cs:94-108 | on a frame the dots index steps and wraps at the end of the list, and the texture shown is that index; an empty dots list throws on a frame, and then the texture and the visibility flags stay as they were; otherwise the dots show and the line and outline are hidden |
| LaserGuns.LaserGun.AnimateCharging | scenes/objects/obstacles/laser_gun/LaserGun.cs:109-125 | the dots are hidden, the blink restarting the first time; on a frame the outline and the line toggle together |
| LaserGuns.LaserGun.Process | scenes/objects/obstacles/laser_gun/LaserGun.cs:73-142 | a frame runs once more than 0.032 s have gathered; the accumulator grows by delta and restarts at 0 after a frame or when charging begins; while reloading the line is faint and the reload sprite steps to 0 on a frame; while armed the dots advance and only they show; while charging the outline flips on each frame and the line follows it; the drawn lengths follow the laser distance; the reload sprite is RendererSpriteIndex of the progress; an empty sprite list throws; a throw from the reload or dots sprite lookup stops the frame with the lengths, the accumulator and the reload sprite unchanged; an empty renderer list is a division by zero that leaves the reload sprite; each animation leaves the fields only the others set; the gun's invariant is kept |
| LaserGuns.LaserGun.EndFrame | scenes/objects/obstacles/laser_gun/LaserGun.cs:127-142 | the accumulator restarts after a frame; the dots and line lengths become the laser distance; the reload sprite is RendererSpriteIndex of the progress, and an empty renderer sprite list is a division by zero that leaves the reload sprite as it was |
| LaserGuns.LaserGun.Serialize | scenes/objects/obstacles/laser_gun/LaserGun.cs:197-200 | saving is not implemented and always fails |
| LaserGuns.LaserGun.Deserialize | scenes/objects/obstacles/laser_gun/LaserGun.cs:202-205 | restoring is not implemented and always fails |
| LaserGuns.FireThenTick | scenes/objects/obstacles/laser_gun/LaserGun.cs:150-177 | once fired, the gun neither detects nor fires on the next tick: it only reloads, from 0 |
| RocketLaunchers.RocketLauncher.constructor | objects/obstacles/rocket_launcher/RocketLauncher.cs:33-40 | a new launcher is not stopped and its angles and timer are 0 |
| RocketLaunchers.RocketLauncher.Ready | objects/obstacles/rocket_launcher/RocketLauncher.cs:43-47 | the placed rotation is remembered and aiming starts from it |
| RocketLaunchers.RocketLauncher.PhysicsProcess | objects/obstacles/rocket_launcher/RocketLauncher.cs:52-86 | while the player is dead nothing changes; no raycast is an error; with a nearest visible player the launcher turns toward it and the sweep angle follows it, then the shot FireAt describes is fired (the first free projectile of the pool, from the muzzle at the shot speed, no other projectile changed) with that player as its target and the timer rearmed to the interval, or the timer runs down by delta; with none the sweep advances one degree, the launcher turns toward it and the timer is half a second, and the pool is untouched; a tick that waits leaves the pool too; an error leaves the timer and the pool |
| RocketLaunchers.RocketLauncher.Sweep | objects/obstacles/rocket_launcher/RocketLauncher.cs:79-85 | the sweep angle moves on by one degree, the launcher turns toward it by the sine rule and the timer becomes half a second |
| RocketLaunchers.RocketLauncher.Track | objects/obstacles/rocket_launcher/RocketLauncher.cs:60-78 | the launcher turns toward the player by the sine rule and the sweep angle follows; then the tick is FireOrWait's |
| RocketLaunchers.RocketLauncher.FireOrWait | objects/obstacles/rocket_launcher/RocketLauncher.cs:64-78 | a running timer goes down by delta and nothing is shot; a run-out timer fires as FireAt does and is rearmed to the interval; a failed shot leaves the timer and the pool |
| RocketLaunchers.RocketLauncher.FireAt | objects/obstacles/rocket_launcher/RocketLauncher.cs:64-71 | the pool's first projectile not in flight is reused, or a new one appended when all fly, and no other projectile changes; the shot leaves the muzzle, 24 units ahead along the rotation, at the launcher's shot speed; a rocket flies toward the player it was aimed at before (a new rocket along the rotation) and is then aimed at the player in sight; a failed shot leaves the pool as it was |
| RocketLaunchers.RocketLauncher.OnPlayerDeath | objects/obstacles/rocket_launcher/RocketLauncher.cs:88-91 | the launcher stops |
| RocketLaunchers.RocketLauncher.OnResetGame | objects/obstacles/rocket_launcher/RocketLauncher.cs:93-101 | the launcher resumes from its placed rotation, half a second from its next shot |
| RocketLaunchers.RocketLauncher.Serialize | objects/obstacles/rocket_launcher/RocketLauncher.cs:104-112 | the record holds exactly position, rotation, shot speed and interval, each reading back as the current value |
| RocketLaunchers.RocketLauncher.Deserialize | objects/obstacles/rocket_launcher/RocketLauncher.cs:114-121 | succeeds exactly when all four keys are present; the values are read in order and a missing key stops with KeyNotFound, keeping the values read before it |
| RocketLaunchers.SaveRestore | objects/obstacles/rocket_launcher/RocketLauncher.cs:104-121 | restoring a launcher from its own record succeeds and changes nothing |
| LegacyMobileSaws.DriveSpeed | objects/obstacles/mobile_saw/MobileSaw.cs:41 | the earlier saw drives at 1.2 times its horizontal speed, signed by its direction |
| LegacyMobileSaws.MobileSaw.constructor | objects/obstacles/mobile_saw/MobileSaw.cs:31 | a placed saw heads positive, with no jitter |
| LegacyMobileSaws.MobileSaw.PhysicsProcess | objects/obstacles/mobile_saw/MobileSaw.cs:39-55 | the body's clamped velocity step, driven at DriveSpeed with input held, is handed to the slide; the body's friction and air override become SurfaceFor's and its up direction opposes gravity; the saw takes the slide's position and velocity, with the velocity's x zeroed when the slide ends on a wall; the direction flips exactly then; the sprite offset is the jitter drawn |
| LegacyMobileSaws.MobileSaw.Impulse | objects/obstacles/mobile_saw/MobileSaw.cs:57-66 | the body's impulse is applied and a clearly sideways push sets the direction |
| LegacyMobileSaws.SlowerThanLater | objects/obstacles/mobile_saw/MobileSaw.cs:41 | the earlier saw drives at 0.6 times the later saw's speed |
| LegacyPlayers.LegacyHandling | objects/player/Player.cs:449-455 | standing still on the floor gives friction 4 and acceleration 1, exactly then; anything else gives 2 and 3 |
| LegacyPlayers.InputPush | objects/player/Player.cs:464-468 | the input push has the wanted speed's sign for a non-negative acceleration factor, and is 0 with no wanted speed |
| LegacyPlayers.LegacyHorizontal | objects/player/Player.cs:457-468 | at or below 10 units/s with no input the velocity snaps to 0; above it friction is taken off; below the top speed with input the push is added; both tests look at the velocity from before the step |
| LegacyPlayers.LegacyJumpForce | objects/player/Player.cs:202-214 | the jump force is the speed times the floor normal, its vertical part negated under inverted gravity |
| LegacyPlayers.LegacyJumpVelocity | objects/player/Player.cs:474-479 | the jump adds the force's vertical part; only with no wanted speed does the horizontal velocity become 1.8 times the force's horizontal part |
| LegacyPlayers.LegacyRendererAngle | objects/player/Player.cs:515-524 | in the air the tilt is 0; on the floor it is the normal's angle plus a quarter turn, with no fold |
| LegacyPlayers.LegacyJumpAndCut | objects/player/Player.cs:474-494 | without a jump, or with a wanted speed, the horizontal velocity is kept; the cut stays armed only off trampolines after a jump or while armed before; a jump not cut at once leaves it armed |
| LegacyPlayers.VelocityStep | objects/player/Player.cs:444-472 | the handling is LegacyHandling's and the velocity is the friction, input and gravity steps from the velocity before the tick |
| LegacyPlayers.LegacyJumpStep | objects/player/Player.cs:474-486 | the jump fires exactly when both countdowns run; then the velocity becomes LegacyJumpVelocity, the buffer is spent and the cut armed; otherwise nothing changes |
| LegacyPlayers.LegacyJumpAndCutStep | objects/player/Player.cs:474-502 | the velocity and cut flag are LegacyJumpAndCut's, the buffer is spent when the jump fires, and the release flag is spent |
| LegacyPlayers.LegacyMoveStepProperties | objects/player/Player.cs:421-509 | a tick's movement stays within the speed limit, fires exactly when the countdowns do, spends the press and release flags, never leaves a cut armed on a trampoline, and leaves a slow body with no input and no jump at rest horizontally |
| LegacyPlayers.Player.constructor | objects/player/Player.cs:56-109 | a ready player stands at its start position, at rest, speed (144, 272), with no jump pending |
| LegacyPlayers.Player.Input | objects/player/Player.cs:289-302 | a dead player ignores input; otherwise a press and a release of jump each set their flag, independently |
| LegacyPlayers.Player.Process | objects/player/Player.cs:304-385 | a dead player changes nothing; otherwise the axis is taken, the animation state is AnimationState's, and it is played exactly when it differs from the previous frame's |
| LegacyPlayers.Player.PhysicsProcess | objects/player/Player.cs:388-527 | a dead player starts the death burst once and otherwise changes nothing; a live one hides the particles if shown, records whether it moved, takes LegacyMoveStep's jump state and handling, hands LegacyMoveStep's velocity to the slide, and takes the slide's velocity, position, floor normal and tilt |
| LegacyPlayers.Player.TakeSlide | objects/player/Player.cs:512-524 | after the slide the player takes its velocity and position; on the floor it takes the floor normal and the tilt of that normal, in the air both are zero |
| LegacyPlayers.Player.Move | objects/player/Player.cs:425-509 | the jump state, velocity and handling become LegacyMoveStep's, and the jump sound plays exactly when it fires |
| LegacyPlayers.Player.AddVelocity | objects/player/Player.cs:530-533 | the velocity grows by the given vector |
| LegacyPlayers.Player.Impulse | objects/player/Player.cs:535-543 | the velocity becomes ImpulseVelocity of the old one and the jump buffer is emptied |
| LegacyPlayers.Player.OnPlayerDeath | objects/player/Player.cs:545-554 | the player is dead and at rest |
| LegacyPlayers.Player.OnGameReset | objects/player/Player.cs:556-563 | the player is alive at the start position and at rest; the jump state is kept |
| LegacyPlayers.Player.Serialize | objects/player/Player.cs:566-572 | the record holds the position, which reads back as it |
| LegacyPlayers.Player.Deserialize | objects/player/Player.cs:574-577 | succeeds exactly when the record holds a position, which is then restored; a missing key is an error that changes nothing |
| PlayerMechanics.BufferedJumpTime | scenes/objects/player/scripts/Player.cs:485-491 | a pending press refills the jump buffer to 0.16 s; otherwise a running buffer goes down by exactly delta and an empty one stays; the buffer is positive only after a press or while it was already |
| PlayerMechanics.HangCountAfter | scenes/objects/player/scripts/Player.cs:494-500 | on the floor the coyote counter is full (0.1 s); off it a running counter goes down by exactly delta and a spent one stays; it is positive only on the floor or while it was already |
| PlayerMechanics.StepTimers | scenes/objects/player/scripts/Player.cs:485-518 | a jump fires exactly when both countdowns are still running after the count; firing empties the buffer, and a tick that does not fire leaves the counted-down buffer; the coyote counter is always the counted-down one |
| PlayerMechanics.AtMostOneJumpPerPress | scenes/objects/player/scripts/Player.cs:485-518 | over any run of ticks the jumps fired are at most the presses seen, plus one for a press already buffered |
| PlayerMechanics.NoPressNoJump | scenes/objects/player/scripts/Player.cs:485-518 | with an empty buffer and no press no run of ticks jumps |
| PlayerMechanics.PressOnFloorJumps | scenes/objects/player/scripts/Player.cs:485-507 | a press on the floor jumps on that tick |
| PlayerMechanics.CoyoteJump | scenes/objects/player/scripts/Player.cs:494-507 | a press on the first airborne tick, within 0.1 s of leaving the floor, still jumps |
| PlayerMechanics.BufferedJumpOnLanding | scenes/objects/player/scripts/Player.cs:485-507 | a press still in the buffer when the player lands jumps on the landing tick |
| PlayerMechanics.NoJumpAfterHangExpires | scenes/objects/player/scripts/Player.cs:494-507 | off the floor with the coyote counter spent nothing jumps and the counter stays |
| PlayerMechanics.CountDownStep | scenes/objects/player/scripts/Player.cs:485-500 | the buffer and the coyote counter become BufferedJumpTime and HangCountAfter, and the press is spent |
| PlayerMechanics.WantedHorizontalSpeed | scenes/objects/player/scripts/Player.cs:215-221 | no axis input means no wanted speed; for a positive speed the wanted speed has the axis' sign |
| PlayerMechanics.JumpForce | scenes/objects/player/scripts/Player.cs:193-199 | with no floor normal the jump force is zero |
| PlayerMechanics.JumpCut | scenes/objects/player/scripts/Player.cs:525-531 | a trampoline clears the cut flag; otherwise going up with the button released and the flag set halves the vertical velocity and clears the flag; the velocity changes only then |
| PlayerMechanics.JumpCutOnce | scenes/objects/player/scripts/Player.cs:525-531 | a cut spends its flag: cutting again without a new jump changes nothing |
| PlayerMechanics.CutStep | scenes/objects/player/scripts/Player.cs:525-539 | the velocity and cut flag become JumpCut's, and the release flag is spent |
| PlayerMechanics.AnimationState | scenes/objects/player/scripts/Player.cs:402-417 | running exactly on the floor with input while moving, jumping exactly in the air going up, falling exactly in the air not going up, idle otherwise |
| MobileSaws.DriveSpeed | scenes/objects/obstacles/mobile_saw/MobileSaw.cs:72 | the saw drives at twice its horizontal speed, positive or negative by its direction |
| MobileSaws.DriveSpeedFlips | scenes/objects/obstacles/mobile_saw/MobileSaw.cs:72-83 | turning around negates the drive |
| MobileSaws.DirectionAfterImpulse | scenes/objects/obstacles/mobile_saw/MobileSaw.cs:110-114 | a push sideways by more than 0.1 sets the direction to the push's side; a steeper one keeps it |
| MobileSaws.MobileSaw.constructor | scenes/objects/obstacles/mobile_saw/MobileSaw.cs:37-52 | a new saw heads positive, upright, with no floor normal and no jitter |
| MobileSaws.MobileSaw.Ready | scenes/objects/obstacles/mobile_saw/MobileSaw.cs:55-62 | the starting direction is the coin toss and the placed position is remembered |
| MobileSaws.MobileSaw.Process | scenes/objects/obstacles/mobile_saw/MobileSaw.cs:64-67 | the sprite is flipped exactly under inverted gravity |
| MobileSaws.MobileSaw.PhysicsProcess | scenes/objects/obstacles/mobile_saw/MobileSaw.cs:69-101 | the body's clamped velocity step, driven at DriveSpeed with input held, is handed to the slide; the body's friction and air override become SurfaceFor's and its up direction opposes gravity; the saw then does what TakeSlide states with the slide's outcome; the sprite offset is the jitter drawn |
| MobileSaws.MobileSaw.TakeSlide | scenes/objects/obstacles/mobile_saw/MobileSaw.cs:76-101 | the saw takes the slide's position and velocity; when the slide ends on a wall the velocity's x is zeroed and the direction flips, and only then; on the floor the normal is taken and the lean computed, in the air both are zero |
| MobileSaws.MobileSaw.Impulse | scenes/objects/obstacles/mobile_saw/MobileSaw.cs:106-115 | the body's impulse is applied and the direction follows DirectionAfterImpulse |
| MobileSaws.MobileSaw.OnGameReset | scenes/objects/obstacles/mobile_saw/MobileSaw.cs:118-125 | back at the placed position, at rest, with normal gravity and the coin's direction |
| MobileSaws.TwoWalls | scenes/objects/obstacles/mobile_saw/MobileSaw.cs:69-84 | when every slide ends on a wall, two ticks in a row turn the saw around and back, with no horizontal speed |
| PlayerCameras.RawZoom | scenes/objects/player/scripts/PlayerCamera.cs:176-182 | the raw zoom is 1 at rest and grows by 4 at the maximum speed, one more for a split-screen player, so a first player moving no faster than the maximum speed stays within 1 to 5 |
| PlayerCameras.TargetZoom | scenes/objects/player/scripts/PlayerCamera.cs:219 | both axes of the zoom the camera eases toward are 5 minus the raw zoom |
| PlayerCameras.FollowY | scenes/objects/player/scripts/PlayerCamera.cs:192-199 | the vertical target moves to the deadzone's edge on the player's side when the player is more than 16 pixels above or below the camera, and stays put otherwise |
| PlayerCameras.FollowYOnEdge | scenes/objects/player/scripts/PlayerCamera.cs:192-199 | once the camera follows, the player is exactly 16 pixels from the new target, which is closer to the player than the camera was |
| PlayerCameras.Facing | scenes/objects/player/scripts/PlayerCamera.cs:249-251 | the facing direction is the sign of a non-zero wanted speed, plus or minus one and matching its direction, and is kept when the wanted speed is zero |
| PlayerCameras.Approach | scenes/objects/player/scripts/PlayerCamera.cs:229-235 | eases by a rate: a rate of 0 or being at the target changes nothing, a rate of 1 reaches the target, and the distance left shrinks by the factor 1 minus the rate |
| PlayerCameras.Gather | scenes/objects/player/scripts/PlayerCamera.cs:124-172 | the areas' folded options, zoom and offset become the raw framing; the centring options pin the raw target to the areas' centre on their axes; the area count is remembered; the camera jumps onto the raw framing exactly when the count changed and the options ask for an instant transition; nothing else changes |
| PlayerCameras.Rules | scenes/objects/player/scripts/PlayerCamera.cs:175-203 | without an overriding area the zoom comes from the speed, the offset looks 48 pixels ahead in the facing direction and the raw target follows the player (vertically through the deadzone); an overridden offset is cleared; nothing else changes |
| PlayerCameras.Frame | scenes/objects/player/scripts/PlayerCamera.cs:124-203 | a frame with a target uses the options the areas gave |
| PlayerCameras.FrameFollows | scenes/objects/player/scripts/PlayerCamera.cs:124-203 | in a whole frame an axis no area centres follows the player's x, an overridden offset is cleared, the zoom comes from the speed unless overridden, the area count is remembered and the player data is untouched |
| PlayerCameras.FrameWithoutEntering | scenes/objects/player/scripts/PlayerCamera.cs:164-172 | while the number of areas is unchanged the camera's position, zoom and eased offset are untouched by the raw framing |
| PlayerCameras.FrameOptions | scenes/objects/player/scripts/PlayerCamera.cs:130-153 | a frame's options are the last overriding area's together with all later areas', or the union of all areas' when none overrides |
| PlayerCameras.Untargeted | scenes/objects/player/scripts/PlayerCamera.cs:204-209 | with no target the player data and the raw offset and zoom go back to rest, no options apply and the raw target and the camera stay |
| PlayerCameras.Smooth | scenes/objects/player/scripts/PlayerCamera.cs:212-235 | the zoom lerps toward the target zoom at 0.1 per step when an area overrides it and 0.01 otherwise; the eased offset moves a 25th of the way toward the raw offset and the shake is added on top; the camera moves an 8th of the way toward the raw target; all scaled to a 60 frames-per-second step; nothing else changes |
| PlayerCameras.Reset | scenes/objects/player/scripts/PlayerCamera.cs:263-276 | the offsets are cleared, the raw target and the camera go to the initial position, the player data rests and the raw zoom is 1; the area count and the zoom are kept |
| PlayerCameras.ResetIdempotent | scenes/objects/player/scripts/PlayerCamera.cs:263-276 | resetting twice is resetting once |
| PlayerCameras.PlayerCamera.constructor | scenes/objects/player/scripts/PlayerCamera.cs:101-113 | a ready camera is reset to the origin, without a target and with no reset delay |
| PlayerCameras.PlayerCamera.SetTargetPlayer | scenes/objects/player/scripts/PlayerCamera.cs:77-85 | a player becomes the target and its position the reset position; a null player clears the target and is a null-reference fault, exactly then |
| PlayerCameras.PlayerCamera.ResetToInitialPosition | scenes/objects/player/scripts/PlayerCamera.cs:263-276 | the camera state becomes Reset of the old state |
| PlayerCameras.PlayerCamera.OnResetGame | scenes/objects/player/scripts/PlayerCamera.cs:106-110 | the camera state is reset and the next physics tick is skipped; the target and reset position are kept |
| PlayerCameras.PlayerCamera.GatherAreas | scenes/objects/player/scripts/PlayerCamera.cs:124-172 | the camera state and options after the area loop are exactly Gather of the old state |
| PlayerCameras.PlayerCamera.ApplyRules | scenes/objects/player/scripts/PlayerCamera.cs:175-203 | the camera state after the zoom, offset and position rules is exactly Rules of the old state |
| PlayerCameras.PlayerCamera.ApplySmoothing | scenes/objects/player/scripts/PlayerCamera.cs:212-235 | the camera state after easing is exactly Smooth of the old state |
| PlayerCameras.PlayerCamera.Process | scenes/objects/player/scripts/PlayerCamera.cs:115-236 | during the reset delay the camera is only reset; otherwise the state is Smooth of Frame, or of Untargeted without a target |
| PlayerCameras.PlayerCamera.PhysicsProcess | scenes/objects/player/scripts/PlayerCamera.cs:238-256 | during the reset delay one tick of it is used up and the player data is kept; otherwise the speed and Facing are sampled from the target, or cleared without one |
| PlayerCameras.ResetHoldsOneTick | scenes/objects/player/scripts/PlayerCamera.cs:106-121 | after a reset the camera stays at its start for a frame, the first physics tick is skipped, and the second samples the player's speed again |
| PlayerCameras.NoJumpInsideSameAreas | scenes/objects/player/scripts/PlayerCamera.cs:164-235 | inside the same number of areas as before, a frame only eases the camera an 8th of the step toward the raw target from where it was |
| LegacyPlayerCameras.PlayerCamera.constructor | objects/player/scripts/PlayerCamera.cs:80-87 | a new camera is at rest at the origin, without a target |
| LegacyPlayerCameras.PlayerCamera.RestoreToTarget | objects/player/scripts/PlayerCamera.cs:167-180 | the raw offset, player data and raw zoom go back to rest; with a target the raw target and the camera go onto it, without one they stay |
| LegacyPlayerCameras.PlayerCamera.FollowTarget | objects/player/scripts/PlayerCamera.cs:91-119 | the raw framing is the later camera's Rules with no area options, with the split-screen player's extra zoom |
| LegacyPlayerCameras.PlayerCamera.ApplySmoothing | objects/player/scripts/PlayerCamera.cs:128-145 | the easing is the later camera's Smooth with no area options |
| LegacyPlayerCameras.PlayerCamera.Process | objects/player/scripts/PlayerCamera.cs:89-146 | one frame is Smooth of Rules with a target, or of Untargeted without one |
| LegacyPlayerCameras.PlayerCamera.PhysicsProcess | objects/player/scripts/PlayerCamera.cs:148-160 | the speed and Facing are sampled from the target, or cleared without one |
| LegacyPlayerCameras.SameAsLaterOutsideAreas | objects/player/scripts/PlayerCamera.cs:89-146 | the earlier camera frames a player as the later one does for a player inside no camera area that counted none before |
| Platforms.AxisDirection | objects/platform/Platform.cs:59-63 | the unit vector along the platform's axis: down or up when vertical, right or left otherwise, by the direction |
| Platforms.AxisDirectionFlips | objects/platform/Platform.cs:59-67 | turning around reverses the direction of travel |
| Platforms.Pinned | objects/platform/Platform.cs:77-82 | the off-axis coordinate is the start position's, the other the slide's |
| Platforms.Platform.constructor | objects/platform/Platform.cs:27-37 | a new platform heads positive, with no pause pending and its previous position at the origin |
| Platforms.Platform.Ready | objects/platform/Platform.cs:45-49 | the placed position is remembered and the configured starting direction taken |
| Platforms.Platform.PhysicsProcess | objects/platform/Platform.cs:51-83 | while pausing the delay runs down by delta and the previous position goes to infinity; otherwise the platform turns around and pauses 0.25 s exactly when it moved less than sqrt(0.1) since the last tick, and records its position; the velocity HandedVelocity gives is handed to the slide, and the platform takes the slide's velocity and its position pinned to the axis |
| Platforms.Platform.HandedVelocity | objects/platform/Platform.cs:53-63 | the velocity a tick hands to the slide: zero while pausing, otherwise of magnitude speed along the axis |
| Platforms.PauseThenMove | objects/platform/Platform.cs:53-75 | the first moving tick after a pause never turns around, however little the platform moved, and hands the slide the full speed in the unchanged direction |
| GravitySwitches.GravitySwitch.constructor | objects/power_ups/gravity_switch/GravitySwitch.cs:35-39 | a placed switch starts charged |
| GravitySwitches.GravitySwitch.Ready | objects/power_ups/gravity_switch/GravitySwitch.cs:42-47 | the random spin is taken |
| GravitySwitches.GravitySwitch.Process | objects/power_ups/gravity_switch/GravitySwitch.cs:50-65 | a visible switch on screen shows particles exactly when charged, spins them only then, and shows its progress on the bar; otherwise nothing changes |
| GravitySwitches.GravitySwitch.PhysicsProcess | objects/power_ups/gravity_switch/GravitySwitch.cs:67-77 | the progress advances by delta over the reload time, clamped to [0, 1], never down for a non-negative delta; the switch detects and is detectable exactly when charged |
| GravitySwitches.GravitySwitch.OnBodyEntered | objects/power_ups/gravity_switch/GravitySwitch.cs:80-92 | the gravity is switched exactly when the switch was charged and the body is a dynamic body; then the body's gravity is inverted and the switch emptied; otherwise nothing changes; the body's velocity and speed are kept |
| GravitySwitches.TwoEnterTogether | objects/power_ups/gravity_switch/GravitySwitch.cs:80-92 | of two bodies entering together only the first is switched |
| GravitySwitches.TwoTicks | objects/power_ups/gravity_switch/GravitySwitch.cs:67-77 | ticks never lower the progress, so an emptied switch recharges monotonically |
| RSMath.Abs | scripts/utils/RSMath.cs:40-43 | both components are the non-negative absolute values |
| RSMath.AbsIdempotent | scripts/utils/RSMath.cs:40-43 | taking the absolute value twice changes nothing more |
| RSMath.Lerp | scripts/utils/RSMath.cs:45-48 | amount 0 gives the start and amount 1 the end |
| RSMath.Clamp01 | scripts/utils/RSMath.cs:51-62 | the value is clamped into [0, 1]: below 0 gives 0, above 1 gives 1, otherwise unchanged |
| RSMath.Clamp01Idempotent | scripts/utils/RSMath.cs:51-62 | clamping twice is clamping once |
| RSMath.FixedDelta | scripts/utils/RSMath.cs:65-68 | the delta in sixtieths of a second: delta times 60, so 1/60 s gives 1 |
| RSMath.FixedDeltaLinear | scripts/utils/RSMath.cs:65-68 | the conversion is linear |
| Globals.ClampAvatarIndex | scripts/Globals.cs:74-82 | a negative value stores 0, one past the end stores the last index, an in-range value is stored as is; with a non-empty list the index is always valid |
| Globals.AvatarSelection.constructor | scripts/Globals.cs:48-49 | the avatar index starts at 0 |
| Globals.AvatarSelection.SetAvatarIndex | scripts/Globals.cs:71-83 | the stored index is ClampAvatarIndex of the value, inside the list when it is non-empty |
| Globals.AvatarSelection.Avatar | scripts/Globals.cs:85-88 | the avatar at the stored index, and a fault exactly when the index is outside the list |
| Globals.AvatarAfterSetInBounds | scripts/Globals.cs:71-88 | once the setter has run on a non-empty list the getter never faults |
| Vectors.Sign | scenes/objects/player/scripts/PlayerCamera.cs:250 | the sign is -1, 0 or 1, positive or negative exactly with the value |
| Players.JumpAction | scenes/objects/player/scripts/Player.cs:310-322 | player 1 listens to jump_p1, player 2 to jump_p2 and any other index to jump, each exactly then |
| Players.RawAngle | scenes/objects/player/scripts/Player.cs:548-563 | in the air the lean is 0; on the floor, for a normal angle in (-pi, pi], the lean lies in (-pi/2, pi/2], and a flat floor gives 0 |
| Players.JumpVelocity | scenes/objects/player/scripts/Player.cs:507-516 | the jump adds the force's vertical part; the horizontal velocity becomes 1.8 times the force's horizontal part when no speed is wanted or the body is slower than that part in the wanted direction, and is kept when the body already meets it |
| Players.AirborneJumpAddsNoLift | scenes/objects/player/scripts/Player.cs:193-199 | with no floor normal a jump adds no vertical impulse, and with no input leaves no horizontal speed |
| Players.JumpAndCut | scenes/objects/player/scripts/Player.cs:507-531 | without a jump the horizontal velocity is kept; the cut stays armed only off trampolines after a jump or while armed before; a jump not cut at once leaves it armed; an armed cut that fires halves the vertical velocity |
| Players.JumpStep | scenes/objects/player/scripts/Player.cs:507-519 | the jump fires exactly when both countdowns run; then the velocity becomes JumpVelocity, the buffer is spent and the cut armed; otherwise nothing changes |
| Players.JumpAndCutStep | scenes/objects/player/scripts/Player.cs:507-539 | the velocity and cut flag are JumpAndCut's, the buffer is spent when the jump fires, and the release flag is spent |
| Players.MoveStepProperties | scenes/objects/player/scripts/Player.cs:485-542 | a live tick's movement stays within the speed limit, fires exactly when the countdowns do and then spends the buffer, always spends the press and release flags, never leaves a cut armed on a trampoline, and points up opposite to gravity |
| Players.Player.constructor | scenes/objects/player/scripts/Player.cs:251-254 | a ready player stands alive at its start position, at rest, with normal gravity and no jump pending |
| Players.Player.Input | scenes/objects/player/scripts/Player.cs:303-331 | a dead player ignores input; otherwise a press of its own jump action sets the press flag, and only a non-press release sets the release flag |
| Players.Player.Process | scenes/objects/player/scripts/Player.cs:333-345 | a dead player changes nothing; otherwise the axis is taken, the animation state is AnimationState's, and it is played exactly when it differs from the previous frame's |
| Players.Player.ResetToInitialPosition | scenes/objects/player/scripts/Player.cs:576-595 | the player is alive at the start position, at rest, with normal gravity, no jump pending, no input and no lean |
| Players.Player.PhysicsProcess | scenes/objects/player/scripts/Player.cs:440-566 | the tick right after a reset only re-resets and counts the delay down; a dead player starts the death burst once and otherwise changes nothing; a live player hides the death particles if shown, records whether it moved, takes MoveStep's jump state and friction, hands MoveStep's velocity to the slide, and takes the slide's velocity, position, floor normal and lean |
| Players.Player.DeadTick | scenes/objects/player/scripts/Player.cs:455-470 | a dead player's tick reports the burst exactly when it has not started yet, and leaves it started |
| Players.Player.LiveTick | scenes/objects/player/scripts/Player.cs:471-563 | the live part of the tick: particles hidden, moved flag and previous position updated, MoveStep applied, its velocity handed to the slide, and the slide's outcome taken as TakeSlide states |
| Players.Player.TakeSlide | scenes/objects/player/scripts/Player.cs:545-563 | after the slide the player takes its velocity and position; on the floor it takes the floor normal and the lean RawAngle computes from it, in the air both are zero |
| Players.Player.Move | scenes/objects/player/scripts/Player.cs:485-542 | the jump state, the body's velocity, friction, override and up direction become MoveStep's, and the jump sound plays exactly when it fires |
| Players.Player.Impulse | scenes/objects/player/scripts/Player.cs:569-574 | the body's impulse is applied and the jump buffer emptied |
| Players.Player.OnPlayerDeath | scenes/objects/player/scripts/Player.cs:599-608 | the player is dead and at rest |
| Players.Player.OnGameReset | scenes/objects/player/scripts/Player.cs:610-615 | the player is reset and the next physics tick is held back |
| Players.Player.Serialize | scenes/objects/player/scripts/Player.cs:619-625 | the record holds the position, which reads back as it |
| Players.Player.Deserialize | scenes/objects/player/scripts/Player.cs:627-630 | succeeds exactly when the record holds a position, which is then restored; a missing key is a KeyNotFound error that changes nothing |
| Players.ResetThenTick | scenes/objects/player/scripts/Player.cs:440-448 | after a game reset the next tick leaves the player reset, with the delay used up |
| Players.SaveRestore | scenes/objects/player/scripts/Player.cs:619-630 | saving and restoring a player brings back its position |
| GameObject.AsVector2 | scenes/objects/player/scripts/Player.cs:627-630 | a Vector2 variant gives its value, any other gives zero |
| GameObject.AsSingle | objects/obstacles/rocket_launcher/RocketLauncher.cs:117-120 | a float variant gives its value, any other gives zero |
| GameObject.Lookup | objects/obstacles/rocket_launcher/RocketLauncher.cs:116-120 | a key lookup succeeds exactly when the key is present, giving its value |
| GameObject.PositionOf | scenes/objects/player/scripts/Player.cs:627-630 | reading a position succeeds exactly when the key is present; a missing key is KeyNotFound("position") |
| GameObject.PositionRecord | scenes/objects/player/scripts/Player.cs:619-625 | a position-only record has exactly one key and reads back as the position |
| Rockets.SteeredAngle | scenes/objects/obstacles/rocket_launcher/Rocket.cs:170-174 | an unsmoothed step points the heading along the direction at once; a smooth step with zero factor keeps the heading |
| Rockets.Rocket.constructor | scenes/objects/obstacles/rocket_launcher/Rocket.cs:41-49 | a new rocket is at rest, inactive, was not active and has no target; its angles and speed are 0 |
| Rockets.Rocket.UpdateDirection | scenes/objects/obstacles/rocket_launcher/Rocket.cs:164-179 | with a target the direction becomes the bearing to it, without one it is kept; the heading is the steered angle, the rotation follows it and the velocity is speed along the heading |
| Rockets.Rocket.PhysicsProcess | scenes/objects/obstacles/rocket_launcher/Rocket.cs:88-113 | an active rocket with a target turns its direction to the bearing from its position to the target; an active rocket steers smoothly toward the direction, shows that heading as its rotation and then moves by velocity times delta; an inactive one stays put with its rotation; the explosion plays exactly when the rocket was active last tick and is not now; hitbox and sprite follow the activity flag |
| Rockets.Rocket.OnResetGame | scenes/objects/obstacles/rocket_launcher/Rocket.cs:115-129 | a reset clears both activity flags, so no explosion is due |
| Rockets.Rocket.OnBodyEntered | scenes/objects/obstacles/rocket_launcher/Rocket.cs:131-138 | any body contact destroys the rocket, and a player body is killed, exactly that one |
| Rockets.Rocket.OnAreaEntered | scenes/objects/obstacles/rocket_launcher/Rocket.cs:140-143 | any area contact destroys the rocket |
| Rockets.Rocket.ShootAt | scenes/objects/obstacles/rocket_launcher/Rocket.cs:146-157 | the rocket is placed and activated with the given speed; it heads along the given direction, or at once toward a target it already has; the velocity is speed along that direction |
| Rockets.Rocket.SetTarget | scenes/objects/obstacles/rocket_launcher/Rocket.cs:159-162 | the target is stored |
| Rockets.Rocket.Destroy | scenes/objects/obstacles/rocket_launcher/Rocket.cs:181-188 | the rocket is inactive afterwards |
| Rockets.DestroyThenTicks | scenes/objects/obstacles/rocket_launcher/Rocket.cs:88-113 | a destroyed rocket explodes on the next tick and not on the one after |
| Rockets.ResetThenTick | scenes/objects/obstacles/rocket_launcher/Rocket.cs:88-129 | no explosion follows a reset |
| Vectors.DegToRad | scenes/objects/obstacles/rocket_launcher/Rocket.cs:171-178 | 180 degrees is pi |
| Vectors.RadToDeg | scenes/objects/obstacles/rocket_launcher/Rocket.cs:173 | pi is 180 degrees |
| Vectors.DegreesRoundTrip | scenes/objects/obstacles/rocket_launcher/Rocket.cs:171-178 | degrees and radians convert back and forth exactly |
| Saws.Reversed | objects/obstacles/saw/Saw.cs:103 | the reversed path has the same length |
| Saws.ReversedIndex | objects/obstacles/saw/Saw.cs:103 | element k of the reversed path is element length-1-k of the path |
| Saws.ReversedMultiset | objects/obstacles/saw/Saw.cs:103 | reversing keeps exactly the same waypoints, as a multiset |
| Saws.ReversedInvolution | objects/obstacles/saw/Saw.cs:99-105 | reversing twice restores the path, so a reversing saw walks its path alternately forward and back |
| Saws.ReverseInPlace | objects/obstacles/saw/Saw.cs:103 | the array afterwards holds the reverse of what it held |
| Saws.LinePoints | objects/obstacles/saw/Saw.cs:69-75 | the drawn line is the path, closed back to the first waypoint exactly when the saw returns to the start |
| Saws.Saw.constructor | objects/obstacles/saw/Saw.cs:37-61 | a new saw starts at waypoint 0, enabled, with no spin and no line |
| Saws.Saw.Ready | objects/obstacles/saw/Saw.cs:64-76 | the spin is taken and the placed position remembered; a path of two or more waypoints is drawn as LinePoints, a shorter one draws nothing |
| Saws.Saw.Process | objects/obstacles/saw/Saw.cs:78-84 | a visible enabled saw spins by its speed times delta and jitters to the given point; otherwise the sprite stays |
| Saws.Saw.PhysicsProcess | objects/obstacles/saw/Saw.cs:86-108 | a disabled saw, or one without two waypoints, stays, with its line and path; otherwise it steps toward its current waypoint, and within 1 of it moves to the next; after the last it restarts at 0, with the path reversed in place unless it returns to the start; the index stays inside the path |
| WallGuns.WallGun.constructor | scenes/objects/obstacles/wall_gun/WallGun.cs:40-44 | a ready gun waits the start delay before its first shot |
| WallGuns.WallGun.PhysicsProcess | scenes/objects/obstacles/wall_gun/WallGun.cs:46-57 | while the timer runs it goes down by delta and nothing is shot; once it has run out one projectile is fired straight ahead from the gun and the timer is rearmed to the interval; the shot reuses the pool's first projectile not in flight, or appends one when all fly, and changes no other projectile; a tick that waits leaves the pool as it was; a failed shot is the base's error and leaves the timer and the pool; with non-negative deltas the timer never exceeds the longer of the two waits |
| WallGuns.WallGun.OnResetGame | scenes/objects/obstacles/wall_gun/WallGun.cs:59-62 | a reset brings the timer back to the start delay |
| WallGuns.WallGun.Serialize | scenes/objects/obstacles/wall_gun/WallGun.cs:69-72 | saving is not implemented and always fails |
| WallGuns.WallGun.Deserialize | scenes/objects/obstacles/wall_gun/WallGun.cs:64-67 | restoring is not implemented and always fails |

## Left out

- objects/camera/Camera.cs is not part of this model. It is a camera driven by asynchronous tween chains that wait on engine signals.
- The cameras' `MakeCurrent`, `SetTextureRect` and the death shake trigger (`Globals.Shake`) are engine calls and are not modelled. The shake displacement, which `RSRandom.Circle2D` and `Globals.ShakeStrength` produce, is an input to each frame.
- scripts/utils/RSRandom.cs is not part of this model. Its draws are inputs: the rolling saw's starting direction, the spin and jitter values.
- Trigonometry is not computed. `Sin`, `Rotated`, angle-to-vector and vector-to-angle come in as the functions of a `Trig` record, so the rocket's homing law and the guns' aiming hold for any such functions.
- `MoveToward`, `MoveAndSlide`, `IsOnFloor`, `IsOnWall`, `GetFloorNormal`, `GetLastSlideCollision` and the raycasts are engine services, and their physics is not modelled. `MoveAndSlide` is an arbitrary function from the handed velocity to the slide's outcome, so every property about a tick holds whatever the engine's collision response is. The other queries come in as per-tick inputs, and so does the length of `Velocity`, which the camera samples.
- Distances are compared squared (`DistanceTo(t) < 1` becomes a squared distance below 1), because the reals have no square root. For non-negative values the two comparisons agree.
- Float rounding is not modelled: all arithmetic is exact on `real`. The guards against float division by zero are preconditions. `reloadTime > 0` is required by the gravity switch and the laser gun. The laser gun's integer sprite arithmetic does model its faults, as errors: an empty sprite list gives an index-out-of-range error or a division by zero.
- `GlobalPosition` is taken to be `Position`, because every modelled node sits directly in the world.
- Audio, particles, sprite frames, animation playback and the dust timer are not modelled, apart from visibility and monitoring flags that the scripts derive from their state. A texture is modelled only as the index of the sprite shown: the laser gun's body, dots and renderer textures, and the checkpoint's number texture. No other texture is modelled. Where a script triggers an effect, the method returns it as an event flag, for example an impact, an explosion or a jump.
- Rocket._Process (scenes/objects/obstacles/rocket_launcher/Rocket.cs:66-86) is not modelled: it only drives the rocket's audio and trail.
- The rotation lerps are not modelled. These are the player's lean to the floor (scenes/objects/player/scripts/Player.cs:565), the rolling saw's lean (scenes/objects/obstacles/mobile_saw/MobileSaw.cs:103) and the earlier player's renderer rotation (objects/player/Player.cs:526). They are float smoothing of a visual angle.
- Glue scripts with no logic of their own are not part of this model: scripts/events/GameEvents.cs, the viewport scripts, scripts/Main.cs, scripts/Director.cs, scripts/Playground.cs, SawBase.cs and Trampoline.cs. Event subscriptions become the handler methods themselves.
- `Globals.PlayerDied`, `KillPlayers`, `GetPlayers`, `RegisterPlayer` and `World.AddChild` are not part of this model. A kill or death is a returned event, the players are a sequence of positions, and spawning a projectile is appending it to the pool. The z-index given to new projectiles is not modelled.
- `Player.CheckpointAttempts` and `Player.Resurrect` are not part of this model. The checkpoint sees a player as a `CheckpointPlayer` holding only its attempts counter, and a resurrection is returned as the position to reappear at.
- Checkpoints.Checkpoint.SetNumber: a null `numbersTextures` array is not modelled. The textures are a sequence that is always present.
- The new player's killzone hitboxes, its camera-area list management in `_Ready`, and its instantiation of death particles are not modelled. The camera instead receives the list of areas the player is inside, in order, as part of its `TargetView`.
- PlayerCameras.PlayerCamera.Process: the camera reads the target player's position, areas, index, speed and wanted speed through a `TargetView` snapshot taken for that call, not through a live reference.
- Godot `Variant` conversions of a value of the wrong type give the type's default value, zero. That is how `GameObject.AsVector2` and `GameObject.AsSingle` read a mismatched entry.
- The jump fields of both players are grouped into one `JumpState` record. `DynamicBody.Impulse` takes its direction as a vector, not as an angle.
