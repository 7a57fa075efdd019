/** The shared kinematics of scripts/gameobjects/bases/DynamicBody.cs:
    friction with a snap to rest, a quadratic acceleration ramp, signed
    gravity and the speed clamp. */
module DynamicBodies {
  import opened Wrappers
  import opened Vectors
  import RSMath
  import Globals

  /** The properties of a Block the body can stand on. */
  datatype Block = Block(friction: real, acceleration: real, overrideFrictionOnAir: bool)

  /** What the engine reports at the start of a tick: IsOnFloor,
      IsOnFloorOnly and the Block hit by the last slide, if it was one. */
  datatype Contact = Contact(onFloor: bool, onFloorOnly: bool, lastCollisionBlock: Option<Block>)

  /** What the engine's MoveAndSlide leaves: the new position, the velocity
      left after the collisions (a blocked component is gone), whether the
      body now touches a floor or a wall, the floor normal and that
      normal's angle. */
  datatype Slide = Slide(position: Vec2, velocity: Vec2, onFloor: bool, onWall: bool, floorNormal: Vec2,
                         floorAngle: real)

  /** MoveAndSlide during one tick, as a function of the velocity the
      script hands it; the world it collides with is fixed for the tick. */
  type Slider = Vec2 -> Slide

  const DefaultSpeed := Vec2(144.0, 304.0)
  const AirFriction: real := 2.0

  /** Below this horizontal speed the body is snapped to rest. */
  const SnapSpeed: real := 16.0

  /** The Gravity getter: the project gravity, negated when inverted. */
  function Gravity(invertedGravity: bool, g: real): (r: real)
    ensures AbsReal(r) == AbsReal(g)
    ensures g > 0.0 ==> (r < 0.0 <==> invertedGravity)
  {
    if invertedGravity then -g else g
  }

  /** Switching the gravity flag negates the gravity. */
  lemma GravityFlipNegates(invertedGravity: bool, g: real)
    ensures Gravity(!invertedGravity, g) == -Gravity(invertedGravity, g)
  {
  }

  /** Friction and horizontal speed in effect for a tick. */
  datatype Surface = Surface(friction: real, overrideFrictionOnAir: bool, speedX: real)

  /** The friction rules of ProcessVelocity: standing only on a Block takes
      its friction (halved while there is input), its air-friction override
      and its acceleration factor; in the air without override the friction
      is reset to 2. */
  function SurfaceFor(friction: real, overrideFrictionOnAir: bool, speedX: real,
                      c: Contact, hasInput: bool): (s: Surface)
    ensures c.onFloorOnly && c.lastCollisionBlock.Some? ==>
      var b := c.lastCollisionBlock.value;
      s.speedX == speedX * b.acceleration
      && s.overrideFrictionOnAir == b.overrideFrictionOnAir
      && (c.onFloor || b.overrideFrictionOnAir ==>
            s.friction == (if hasInput then b.friction / 2.0 else b.friction))
    ensures !(c.onFloorOnly && c.lastCollisionBlock.Some?) ==>
      s.speedX == speedX && s.overrideFrictionOnAir == overrideFrictionOnAir
    ensures !c.onFloor && !s.overrideFrictionOnAir ==> s.friction == AirFriction
    ensures c.onFloor && !(c.onFloorOnly && c.lastCollisionBlock.Some?) ==> s.friction == friction
    ensures !c.onFloor && overrideFrictionOnAir && !(c.onFloorOnly && c.lastCollisionBlock.Some?) ==>
      s.friction == friction
  {
    var s1 :=
      if c.onFloorOnly && c.lastCollisionBlock.Some? then
        var b := c.lastCollisionBlock.value;
        Surface(if hasInput then b.friction / 2.0 else b.friction, b.overrideFrictionOnAir, speedX * b.acceleration)
      else
        Surface(friction, overrideFrictionOnAir, speedX);
    if !c.onFloor && !s1.overrideFrictionOnAir then s1.(friction := AirFriction) else s1
  }

  /** The friction step of ProcessVelocity (lines 114-118). */
  function ApplyFriction(vx: real, friction: real, speedX: real, delta: real): (r: real)
    ensures AbsReal(vx) <= SnapSpeed ==> r == 0.0
  {
    if AbsReal(vx) > SnapSpeed then vx - Sign(vx) as real * friction * speedX * delta else 0.0
  }

  /** Above the snap speed, friction takes sign(vx) * friction * speed * delta off. */
  lemma FrictionAboveSnap(vx: real, friction: real, speedX: real, delta: real)
    requires AbsReal(vx) > SnapSpeed
    ensures ApplyFriction(vx, friction, speedX, delta) == vx - Sign(vx) as real * friction * speedX * delta
  {
  }

  /** Friction that does not overshoot only slows the body down; it never
      reverses its direction. */
  lemma FrictionOnlySlows(vx: real, friction: real, speedX: real, delta: real)
    requires 0.0 <= friction * speedX * delta <= AbsReal(vx)
    ensures var r := ApplyFriction(vx, friction, speedX, delta);
      AbsReal(r) <= AbsReal(vx) && (r == 0.0 || Sign(r) == Sign(vx))
  {
  }

  /** The acceleration step of ProcessVelocity (lines 121-123): while input
      is held below the top speed, a term quadratic in speed * delta, in
      the direction of the input, three times over. */
  function Accelerate(vx: real, speedX: real, horizontalSpeed: real, hasInput: bool, delta: real): (r: real)
    ensures !hasInput || AbsReal(vx) >= speedX ==> r == vx
  {
    if AbsReal(vx) < speedX && hasInput then
      vx + (horizontalSpeed * delta) * (horizontalSpeed * delta) * Sign(horizontalSpeed) as real * 3.0
    else
      vx
  }

  /** Below the top speed with input, the quadratic term is added. */
  lemma AccelerationBelowTopSpeed(vx: real, speedX: real, horizontalSpeed: real, delta: real)
    requires AbsReal(vx) < speedX
    ensures Accelerate(vx, speedX, horizontalSpeed, true, delta) - vx
      == (horizontalSpeed * delta) * (horizontalSpeed * delta) * Sign(horizontalSpeed) as real * 3.0
  {
  }

  /** The acceleration term always pushes in the direction of the input. */
  lemma AccelerationFollowsInput(vx: real, speedX: real, horizontalSpeed: real, hasInput: bool, delta: real)
    ensures var r := Accelerate(vx, speedX, horizontalSpeed, hasInput, delta);
      (horizontalSpeed > 0.0 ==> r >= vx) && (horizontalSpeed < 0.0 ==> r <= vx) && (horizontalSpeed == 0.0 ==> r == vx)
  {
    var step := horizontalSpeed * delta;
    assert step * step >= 0.0;
  }

  /** A body with no input at (snap) rest stays at rest horizontally. */
  lemma NoInputSnapsToRest(vx: real, s: Surface, horizontalSpeed: real, delta: real)
    requires AbsReal(vx) <= SnapSpeed
    ensures Accelerate(ApplyFriction(vx, s.friction, s.speedX, delta), s.speedX, horizontalSpeed, false, delta) == 0.0
  {
  }

  /** One axis of ApplyVelocity: Mathf.Clamp to [-maxSpeed, maxSpeed]. */
  function ClampSpeed(v: real): (r: real)
    ensures -Globals.MaxSpeed <= r <= Globals.MaxSpeed
    ensures -Globals.MaxSpeed <= v <= Globals.MaxSpeed ==> r == v
    ensures v < -Globals.MaxSpeed ==> r == -Globals.MaxSpeed
    ensures v > Globals.MaxSpeed ==> r == Globals.MaxSpeed
  {
    if v < -Globals.MaxSpeed then -Globals.MaxSpeed
    else if v > Globals.MaxSpeed then Globals.MaxSpeed
    else v
  }

  /** Both velocity components clamped. */
  function ClampVelocity(v: Vec2): (r: Vec2)
    ensures InSpeedBounds(r)
    ensures InSpeedBounds(v) ==> r == v
  {
    Vec2(ClampSpeed(v.x), ClampSpeed(v.y))
  }

  ghost predicate InSpeedBounds(v: Vec2) {
    -Globals.MaxSpeed <= v.x <= Globals.MaxSpeed && -Globals.MaxSpeed <= v.y <= Globals.MaxSpeed
  }

  /** The velocity after the base Impulse: the component along the impulse
      direction is cancelled (weighted by |direction|), then force is added. */
  function ImpulseVelocity(velocity: Vec2, direction: Vec2, force: real): Vec2
  {
    Vec2(velocity.x * (1.0 - AbsReal(direction.x)) + force * direction.x,
         velocity.y * (1.0 - AbsReal(direction.y)) + force * direction.y)
  }

  /** ImpulseVelocity is the base Impulse's vector arithmetic: multiply by
      One - |direction|, then add direction * force. */
  lemma ImpulseByVectors(velocity: Vec2, direction: Vec2, force: real)
    ensures Add(Mul(velocity, Sub(One, RSMath.Abs(direction))), Scale(force, direction))
         == ImpulseVelocity(velocity, direction, force)
  {
  }

  /** A horizontal impulse replaces the horizontal velocity by the signed
      force and keeps the vertical one. */
  lemma ImpulseAlongX(velocity: Vec2, s: real, force: real)
    requires s == 1.0 || s == -1.0
    ensures ImpulseVelocity(velocity, Vec2(s, 0.0), force) == Vec2(s * force, velocity.y)
  {
  }

  /** A vertical impulse replaces the vertical velocity by the signed force
      and keeps the horizontal one. */
  lemma ImpulseAlongY(velocity: Vec2, s: real, force: real)
    requires s == 1.0 || s == -1.0
    ensures ImpulseVelocity(velocity, Vec2(0.0, s), force) == Vec2(velocity.x, s * force)
  {
  }

  /** The velocity ProcessVelocity computes from the body's velocity, speed,
      friction state and signed gravity. */
  function DesiredVelocity(velocity: Vec2, speedX: real, friction: real, overrideFrictionOnAir: bool, gravity: real,
                           horizontalSpeed: real, hasHorizontalInput: bool, delta: real, contact: Contact): Vec2
  {
    var s := SurfaceFor(friction, overrideFrictionOnAir, speedX, contact, hasHorizontalInput);
    Vec2(Accelerate(ApplyFriction(velocity.x, s.friction, s.speedX, delta), s.speedX,
                    horizontalSpeed, hasHorizontalInput, delta),
         velocity.y + gravity * delta)
  }

  /** The state DynamicBody keeps on top of the engine's CharacterBody2D. */
  class DynamicBody {
    var velocity: Vec2
    var invertedGravity: bool
    var speed: Vec2
    var friction: real
    var overrideFrictionOnAir: bool
    /** CharacterBody2D.UpDirection, which ProcessVelocity keeps opposite to gravity. */
    var upDirection: Vec2
    /** Constants.Gravity, the project's default gravity setting. */
    const gravity: real

    constructor (gravity: real)
      ensures this.gravity == gravity
      ensures velocity == Zero && !invertedGravity && speed == DefaultSpeed
      ensures friction == AirFriction && !overrideFrictionOnAir && upDirection == Vec2(0.0, -1.0)
    {
      this.gravity := gravity;
      velocity := Zero;
      invertedGravity := false;
      speed := DefaultSpeed;
      friction := AirFriction;
      overrideFrictionOnAir := false;
      upDirection := Vec2(0.0, -1.0);
    }

    /** The velocity this tick would like, from the current velocity, the
        contact report and the horizontal input; it updates the stored
        friction and air-friction override. */
    method ProcessVelocity(horizontalSpeed: real, hasHorizontalInput: bool, delta: real, contact: Contact)
      returns (v: Vec2)
      modifies this`friction, this`overrideFrictionOnAir, this`upDirection
      ensures upDirection == Vec2(0.0, if invertedGravity then 1.0 else -1.0)
      ensures var s := SurfaceFor(old(friction), old(overrideFrictionOnAir), speed.x, contact, hasHorizontalInput);
        friction == s.friction && overrideFrictionOnAir == s.overrideFrictionOnAir
        && v.x == Accelerate(ApplyFriction(velocity.x, s.friction, s.speedX, delta), s.speedX,
                             horizontalSpeed, hasHorizontalInput, delta)
      ensures v.y == velocity.y + Gravity(invertedGravity, gravity) * delta
      ensures v == DesiredVelocity(velocity, speed.x, old(friction), old(overrideFrictionOnAir), Gravity(invertedGravity, gravity),
                                   horizontalSpeed, hasHorizontalInput, delta, contact)
    {
      upDirection := Vec2(0.0, if invertedGravity then 1.0 else -1.0);
      var vx, vy := velocity.x, velocity.y;
      var tmpSpeedX := UpdateSurface(hasHorizontalInput, contact);

      // friction, snapping to rest below 16 units/s
      vx := ApplyFriction(vx, friction, tmpSpeedX, delta);
      // horizontal input
      vx := Accelerate(vx, tmpSpeedX, horizontalSpeed, hasHorizontalInput, delta);
      // vertical movement
      vy := vy + Gravity(invertedGravity, gravity) * delta;
      v := Vec2(vx, vy);
    }

    /** The surface part of ProcessVelocity: a block stood on alone sets the
        friction, override and acceleration factor; the air resets the
        friction unless overridden. Returns the horizontal speed to use. */
    method UpdateSurface(hasHorizontalInput: bool, contact: Contact) returns (speedX: real)
      modifies this`friction, this`overrideFrictionOnAir
      ensures var s := SurfaceFor(old(friction), old(overrideFrictionOnAir), speed.x, contact, hasHorizontalInput);
        friction == s.friction && overrideFrictionOnAir == s.overrideFrictionOnAir && speedX == s.speedX
    {
      speedX := speed.x;
      if contact.onFloorOnly {
        match contact.lastCollisionBlock
        case Some(block) =>
          friction := block.friction;
          speedX := speedX * block.acceleration;
          overrideFrictionOnAir := block.overrideFrictionOnAir;
          if hasHorizontalInput {
            friction := friction / 2.0;
          }
        case None =>
      }

      if !contact.onFloor && !overrideFrictionOnAir {
        friction := AirFriction;
      }
    }

    /** Stores the desired velocity, clamped to the speed limit. */
    method ApplyVelocity(v: Vec2)
      modifies this`velocity
      ensures velocity == ClampVelocity(v)
      ensures InSpeedBounds(velocity)
    {
      velocity := Vec2(ClampSpeed(v.x), ClampSpeed(v.y));
    }

    method AddVelocity(v: Vec2)
      modifies this`velocity
      ensures velocity == Add(old(velocity), v)
    {
      velocity := Add(velocity, v);
    }

    /** Impulse with the (engine-computed) direction vector
        `Vector2.Right.Rotated(direction)` given as input. */
    method Impulse(directionVector: Vec2, force: real)
      modifies this`velocity
      ensures velocity == ImpulseVelocity(old(velocity), directionVector, force)
    {
      velocity := Mul(velocity, Sub(One, RSMath.Abs(directionVector)));
      velocity := Add(velocity, Scale(force, directionVector));
    }

    method SwitchGravity()
      modifies this`invertedGravity
      ensures invertedGravity == !old(invertedGravity)
    {
      invertedGravity := !invertedGravity;
    }
  }

  /** Switching gravity twice restores the flag and everything else. */
  method SwitchGravityTwice(body: DynamicBody)
    modifies body
    ensures body.invertedGravity == old(body.invertedGravity)
    ensures body.velocity == old(body.velocity) && body.friction == old(body.friction)
  {
    body.SwitchGravity();
    body.SwitchGravity();
  }
}
