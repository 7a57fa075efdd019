/** The pooled bullet of objects/bullet/Bullet.cs: it flies straight while
    active, is spent by its first contact, and plays its impact effect on
    the tick after it stops. */
module Bullets {
  import opened Vectors

  /** What a contact reports about the body it met. */
  datatype BodyKind = PlayerBody | OtherBody

  class Bullet {
    var position: Vec2
    var rotation: real
    var velocity: Vec2
    var isActive: bool
    var wasActive: bool
    var monitoring: bool
    var monitorable: bool
    var spriteVisible: bool

    /** A fresh instance of the bullet scene: at rest and inactive. */
    constructor(position: Vec2)
      ensures this.position == position && rotation == 0.0 && velocity == Zero
      ensures !isActive && !wasActive
      ensures monitoring && monitorable && spriteVisible
    {
      this.position := position;
      rotation := 0.0;
      velocity := Zero;
      isActive := false;
      wasActive := false;
      monitoring, monitorable, spriteVisible := true, true, true;
    }

    /** The state a physics tick leaves: the activity flag has been seen,
        and the hitbox and sprite follow it. */
    ghost predicate Settled()
      reads this
    {
      wasActive == isActive && monitoring == isActive && monitorable == isActive
        && spriteVisible == isActive
    }

    /** One physics tick: an active bullet advances by `velocity * delta`;
        an inactive one that was active last tick plays its impact effect
        (`impact`). */
    method PhysicsProcess(delta: real) returns (impact: bool)
      modifies this`position, this`wasActive, this`monitoring, this`monitorable, this`spriteVisible
      ensures old(isActive) ==> position == Add(old(position), Scale(delta, velocity))
      ensures !old(isActive) ==> position == old(position)
      ensures impact <==> old(wasActive) && !isActive
      ensures Settled()
    {
      impact := false;
      if isActive {
        position := Add(position, Scale(delta, velocity));
        wasActive := true;
      } else if wasActive {
        wasActive := false;
        impact := true;
      }
      monitoring := isActive;
      monitorable := isActive;
      spriteVisible := isActive;
    }

    /** Game reset: the bullet stops, but its impact effect is still due. */
    method OnResetGame()
      modifies this`isActive
      ensures !isActive
    {
      isActive := false;
    }

    /** A body contact spends an active bullet; hitting a player reports one
        death (`playerDied`). An inactive bullet ignores contacts. */
    method OnBodyEntered(body: BodyKind) returns (playerDied: bool)
      modifies this`isActive
      ensures !old(isActive) ==> !playerDied
      ensures old(isActive) ==> (playerDied <==> body == PlayerBody)
      ensures !isActive
    {
      playerDied := false;
      if !isActive {
        return;
      }
      isActive := false;
      if body == PlayerBody {
        playerDied := true;
      }
    }

    /** An area contact spends an active bullet. */
    method OnAreaEntered()
      modifies this`isActive
      ensures !isActive
    {
      if !isActive {
        return;
      }
      isActive := false;
    }

    /** Fires the bullet from `position` along `direction` (radians) at
        `speed`. */
    method ShootAt(position: Vec2, direction: real, speed: real, trig: Trig)
      modifies this`position, this`rotation, this`velocity, this`isActive
      ensures this.position == position && rotation == direction
      ensures velocity == Scale(speed, trig.unit(direction))
      ensures isActive
    {
      this.position := position;
      rotation := direction;
      velocity := Scale(speed, trig.unit(direction));
      isActive := true;
    }
  }

  /** A reset does not cancel the impact effect: the tick after it plays the
      effect exactly when the bullet had been active. */
  method ResetThenTick(b: Bullet, delta: real) returns (impact: bool)
    modifies b
    ensures impact == old(b.wasActive)
    ensures !b.isActive && b.Settled()
  {
    b.OnResetGame();
    impact := b.PhysicsProcess(delta);
  }

  /** A settled, active bullet that hits something plays its impact effect on
      the next tick, and only then. */
  method HitThenTicks(b: Bullet, body: BodyKind, delta: real) returns (first: bool, second: bool)
    requires b.isActive && b.Settled()
    modifies b
    ensures first && !second
  {
    var _ := b.OnBodyEntered(body);
    first := b.PhysicsProcess(delta);
    second := b.PhysicsProcess(delta);
  }
}
