/** The earlier rolling saw of objects/obstacles/mobile_saw/MobileSaw.cs: it
    starts out driving right at 1.2 times its horizontal speed, turns around
    at walls and is steered by impulses. */
module LegacyMobileSaws {
  import opened Vectors
  import opened DynamicBodies
  import MobileSaws

  /** The horizontal speed the saw drives at: 1.2 times its speed, signed by
      its direction. */
  function DriveSpeed(speedX: real, goPositive: bool): (r: real)
    ensures goPositive ==> r == 1.2 * speedX
    ensures !goPositive ==> r == -1.2 * speedX
  {
    speedX * (if goPositive then 1.0 else -1.0) * 1.2
  }

  class MobileSaw {
    const body: DynamicBody
    var goPositive: bool
    var position: Vec2
    var spriteOffsetY: real

    /** A placed saw drives right. */
    constructor(body: DynamicBody, position: Vec2)
      ensures this.body == body && this.position == position && goPositive && spriteOffsetY == 0.0
    {
      this.body := body;
      this.position := position;
      goPositive := true;
      spriteOffsetY := 0.0;
    }

    /** One physics tick: the saw drives with input held, hands its
        velocity to the engine's slide (`moveAndSlide`), takes the position
        and velocity the slide leaves, and jitters to `jitter`; at a wall it
        stops horizontally and turns around. */
    method PhysicsProcess(delta: real, contact: Contact, moveAndSlide: Slider, jitter: real)
      modifies this`position, this`goPositive, this`spriteOffsetY,
        body`velocity, body`friction, body`overrideFrictionOnAir, body`upDirection
      ensures var v := ClampVelocity(DesiredVelocity(old(body.velocity), body.speed.x, old(body.friction),
                                                     old(body.overrideFrictionOnAir),
                                                     Gravity(body.invertedGravity, body.gravity),
                                                     DriveSpeed(body.speed.x, old(goPositive)), true, delta,
                                                     contact));
        var slide := moveAndSlide(v);
        body.velocity == (if slide.onWall then Vec2(0.0, slide.velocity.y) else slide.velocity)
        && goPositive == (old(goPositive) != slide.onWall)
        && position == slide.position
      ensures var s := SurfaceFor(old(body.friction), old(body.overrideFrictionOnAir), body.speed.x, contact, true);
        body.friction == s.friction && body.overrideFrictionOnAir == s.overrideFrictionOnAir
      ensures body.upDirection == Vec2(0.0, if body.invertedGravity then 1.0 else -1.0)
      ensures spriteOffsetY == jitter
    {
      var velocity := body.ProcessVelocity(DriveSpeed(body.speed.x, goPositive), true, delta, contact);
      body.ApplyVelocity(velocity);
      // MoveAndSlide, done by the engine
      var slide := moveAndSlide(body.velocity);
      body.velocity := slide.velocity;
      position := slide.position;
      spriteOffsetY := jitter;
      if slide.onWall {
        body.velocity := Vec2(0.0, body.velocity.y);
        goPositive := !goPositive;
      }
    }

    /** The base impulse, steering the saw along a clearly sideways push. */
    method Impulse(directionVector: Vec2, force: real)
      modifies body`velocity, this`goPositive
      ensures body.velocity == ImpulseVelocity(old(body.velocity), directionVector, force)
      ensures goPositive == MobileSaws.DirectionAfterImpulse(old(goPositive), directionVector)
    {
      body.Impulse(directionVector, force);
      if AbsReal(directionVector.x) > 0.1 {
        goPositive := directionVector.x > 0.0;
      }
    }
  }

  /** The earlier saw drives at 0.6 times the later one's speed. */
  lemma SlowerThanLater(speedX: real, goPositive: bool)
    ensures DriveSpeed(speedX, goPositive) == 0.6 * MobileSaws.DriveSpeed(speedX, goPositive)
  {
  }
}
