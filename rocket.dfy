/** The homing rocket of scenes/objects/obstacles/rocket_launcher/Rocket.cs:
    it steers toward its target player while active, is destroyed by any
    contact, and explodes on the tick after it stops. */
module Rockets {
  import opened Wrappers
  import opened Vectors

  /** Players are named by their index in the world's player list. */
  type PlayerId = nat

  /** What a contact reports about the body it met. */
  datatype BodyKind = PlayerBody(player: PlayerId) | OtherBody

  /** The heading (in degrees) after a steering step: a smooth step turns by
      `sin(direction - angle) * factor`; otherwise the rocket points along
      `direction` at once. */
  function SteeredAngle(smooth: bool, angle: real, direction: real, factor: real, trig: Trig): (r: real)
    ensures !smooth ==> DegToRad(r) == direction
    ensures smooth && factor == 0.0 ==> r == angle
  {
    if smooth then angle + trig.sin(direction - DegToRad(angle)) * factor
    else RadToDeg(direction)
  }

  class Rocket {
    var position: Vec2
    var rotationDegrees: real
    var velocity: Vec2
    var isActive: bool
    var wasActive: bool
    var target: Option<PlayerId>
    var direction: real
    var speed: real
    var angle: real
    var monitoring: bool
    var monitorable: bool
    var spriteVisible: bool
    /** How fast a smooth steering step turns. */
    const factor: real

    /** A fresh instance of the rocket scene: at rest, inactive, no target. */
    constructor(position: Vec2, factor: real)
      ensures this.position == position && this.factor == factor
      ensures velocity == Zero && !isActive && !wasActive && target == None
      ensures monitoring && monitorable && spriteVisible
      ensures rotationDegrees == 0.0 && direction == 0.0 && speed == 0.0 && angle == 0.0
    {
      this.position := position;
      this.factor := factor;
      rotationDegrees := 0.0;
      velocity := Zero;
      isActive, wasActive := false, false;
      target := None;
      direction, speed, angle := 0.0, 0.0, 0.0;
      monitoring, monitorable, spriteVisible := true, true, true;
    }

    /** The state a physics tick leaves: the activity flag has been seen,
        and the hitbox and sprite follow it. */
    ghost predicate Settled()
      reads this
    {
      wasActive == isActive && monitoring == isActive && monitorable == isActive
        && spriteVisible == isActive
    }

    /** Re-aims the rocket. With a target, `direction` becomes the bearing to
        `targetPosition` (where the target player is now); without one it is
        kept. The heading then turns toward it and the velocity follows the
        heading. */
    method UpdateDirection(smooth: bool, targetPosition: Vec2, trig: Trig)
      modifies this`direction, this`angle, this`rotationDegrees, this`velocity
      ensures old(target).None? ==> direction == old(direction)
      ensures old(target).Some? ==> direction == trig.angleOf(Sub(targetPosition, position))
      ensures angle == SteeredAngle(smooth, old(angle), direction, factor, trig)
      ensures rotationDegrees == angle
      ensures velocity == Scale(speed, trig.unit(DegToRad(angle)))
    {
      if target.Some? {
        direction := trig.angleOf(Sub(targetPosition, position));
      }
      angle := SteeredAngle(smooth, angle, direction, factor, trig);
      rotationDegrees := angle;
      velocity := Scale(speed, trig.unit(DegToRad(angle)));
    }

    /** One physics tick: an active rocket steers, then advances by
        `velocity * delta`; an inactive one that was active last tick
        explodes (`explosion`). */
    method PhysicsProcess(delta: real, targetPosition: Vec2, trig: Trig) returns (explosion: bool)
      modifies this
      ensures old(isActive) ==>
        position == Add(old(position), Scale(delta, velocity))
        && angle == SteeredAngle(true, old(angle), direction, factor, trig)
        && velocity == Scale(speed, trig.unit(DegToRad(angle)))
        && rotationDegrees == angle
      ensures old(isActive) && old(target).Some? ==> direction == trig.angleOf(Sub(targetPosition, old(position)))
      ensures !old(isActive) ==>
        position == old(position) && velocity == old(velocity)
        && angle == old(angle) && direction == old(direction) && rotationDegrees == old(rotationDegrees)
      ensures old(target).None? ==> direction == old(direction)
      ensures explosion <==> old(wasActive) && !isActive
      ensures isActive == old(isActive) && target == old(target) && speed == old(speed)
      ensures Settled()
    {
      explosion := false;
      if isActive {
        UpdateDirection(true, targetPosition, trig);
        position := Add(position, Scale(delta, velocity));
        wasActive := true;
      } else if wasActive {
        wasActive := false;
        explosion := true;
      }
      monitoring := isActive;
      monitorable := isActive;
      spriteVisible := isActive;
    }

    /** Game reset: the rocket stops without exploding. */
    method OnResetGame()
      modifies this`isActive, this`wasActive
      ensures !isActive && !wasActive
    {
      isActive := false;
      wasActive := false;
    }

    /** Any body contact destroys the rocket; a player it meets is killed. */
    method OnBodyEntered(body: BodyKind) returns (killed: Option<PlayerId>)
      modifies this`isActive
      ensures !isActive
      ensures killed.Some? <==> body.PlayerBody?
      ensures body.PlayerBody? ==> killed == Some(body.player)
    {
      Destroy();
      killed := None;
      if body.PlayerBody? {
        killed := Some(body.player);
      }
    }

    /** Any area contact destroys the rocket. */
    method OnAreaEntered()
      modifies this`isActive
      ensures !isActive
    {
      Destroy();
    }

    /** Fires the rocket from `position` along `direction` (radians) at
        `speed`; a rocket that still has a target from an earlier shot aims
        at it at once. */
    method ShootAt(position: Vec2, direction: real, speed: real, targetPosition: Vec2, trig: Trig)
      modifies this`position, this`direction, this`speed, this`isActive, this`angle,
        this`rotationDegrees, this`velocity
      ensures this.position == position && this.speed == speed && isActive
      ensures old(target).None? ==> this.direction == direction
      ensures old(target).Some? ==> this.direction == trig.angleOf(Sub(targetPosition, position))
      ensures DegToRad(angle) == this.direction && rotationDegrees == angle
      ensures velocity == Scale(speed, trig.unit(this.direction))
    {
      this.position := position;
      this.direction := direction;
      this.speed := speed;
      isActive := true;
      UpdateDirection(false, targetPosition, trig);
    }

    /** Stores the player to home in on. */
    method SetTarget(target: Option<PlayerId>)
      modifies this`target
      ensures this.target == target
    {
      this.target := target;
    }

    /** Stops the rocket; only ever clears `isActive`. */
    method Destroy()
      modifies this`isActive
      ensures !isActive
    {
      if !isActive {
        return;
      }
      isActive := false;
    }
  }

  /** A destroyed rocket explodes on the next tick and only then. */
  method DestroyThenTicks(r: Rocket, delta: real, targetPosition: Vec2, trig: Trig)
    returns (first: bool, second: bool)
    requires r.isActive && r.Settled()
    modifies r
    ensures first && !second
  {
    r.Destroy();
    first := r.PhysicsProcess(delta, targetPosition, trig);
    second := r.PhysicsProcess(delta, targetPosition, trig);
  }

  /** No explosion follows a reset, whatever the rocket was doing. */
  method ResetThenTick(r: Rocket, delta: real, targetPosition: Vec2, trig: Trig) returns (explosion: bool)
    modifies r
    ensures !explosion && !r.isActive
  {
    r.OnResetGame();
    explosion := r.PhysicsProcess(delta, targetPosition, trig);
  }
}
