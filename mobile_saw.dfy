/** The rolling saw of scenes/objects/obstacles/mobile_saw/MobileSaw.cs: a
    dynamic body that drives at twice its horizontal speed in one direction,
    turns around at walls, leans with the floor, and is pushed by impulses. */
module MobileSaws {
  import opened Vectors
  import opened DynamicBodies
  import opened PlayerMechanics
  import Players

  /** The horizontal speed the saw drives at: twice its speed, signed by
      its direction. */
  function DriveSpeed(speedX: real, goPositive: bool): (r: real)
    ensures goPositive ==> r == 2.0 * speedX
    ensures !goPositive ==> r == -2.0 * speedX
  {
    speedX * (if goPositive then 1.0 else -1.0) * 2.0
  }

  /** Turning around negates the drive. */
  lemma DriveSpeedFlips(speedX: real, goPositive: bool)
    ensures DriveSpeed(speedX, !goPositive) == -DriveSpeed(speedX, goPositive)
  {
  }

  /** An impulse sets the direction when it pushes sideways by more than a
      tenth, and otherwise keeps it. */
  function DirectionAfterImpulse(goPositive: bool, directionVector: Vec2): (r: bool)
    ensures AbsReal(directionVector.x) > 0.1 ==> (r <==> directionVector.x > 0.0)
    ensures AbsReal(directionVector.x) <= 0.1 ==> r == goPositive
  {
    if AbsReal(directionVector.x) > 0.1 then directionVector.x > 0.0 else goPositive
  }

  class MobileSaw {
    const body: DynamicBody
    var goPositive: bool
    var rawAngle: real
    var floorNormal: Vec2
    var initialPosition: Vec2
    var position: Vec2
    /** The container's vertical scale: -1 flips the sprite upside down. */
    var containerScaleY: real
    /** The sprite's vertical jitter offset. */
    var spriteOffsetY: real

    constructor(body: DynamicBody, position: Vec2)
      ensures this.body == body && this.position == position && goPositive
      ensures rawAngle == 0.0 && floorNormal == Zero && initialPosition == Zero
      ensures containerScaleY == 1.0 && spriteOffsetY == 0.0
    {
      this.body := body;
      this.position := position;
      goPositive := true;
      rawAngle := 0.0;
      floorNormal := Zero;
      initialPosition := Zero;
      containerScaleY := 1.0;
      spriteOffsetY := 0.0;
    }

    /** `_Ready`: a random starting direction (`coin`), and the placed
        position remembered for resets. */
    method Ready(coin: bool)
      modifies this`goPositive, this`initialPosition
      ensures goPositive == coin && initialPosition == position
    {
      goPositive := coin;
      initialPosition := position;
    }

    /** One frame: the sprite is drawn upside down exactly under inverted
        gravity. */
    method Process()
      modifies this`containerScaleY
      ensures containerScaleY == -1.0 <==> body.invertedGravity
      ensures containerScaleY == 1.0 || containerScaleY == -1.0
    {
      containerScaleY := if body.invertedGravity then -1.0 else 1.0;
    }

    /** One physics tick. The saw drives with input held, hands its
        velocity to the engine's slide (`moveAndSlide`), takes the position
        and velocity the slide leaves, and jitters to `jitter`. At a wall it
        stops horizontally and turns around. On the floor it takes the floor
        normal and leans with it; in the air it is upright. */
    method PhysicsProcess(delta: real, contact: Contact, moveAndSlide: Slider, jitter: real)
      modifies this`position, this`goPositive, this`floorNormal, this`rawAngle, this`spriteOffsetY,
        body`velocity, body`friction, body`overrideFrictionOnAir, body`upDirection
      ensures var v := ClampVelocity(DesiredVelocity(old(body.velocity), body.speed.x, old(body.friction),
                                                     old(body.overrideFrictionOnAir),
                                                     Gravity(body.invertedGravity, body.gravity),
                                                     DriveSpeed(body.speed.x, old(goPositive)), true, delta,
                                                     contact));
        var slide := moveAndSlide(v);
        body.velocity == (if slide.onWall then Vec2(0.0, slide.velocity.y) else slide.velocity)
        && goPositive == (old(goPositive) != slide.onWall)
        && position == slide.position
        && floorNormal == (if slide.onFloor then slide.floorNormal else Zero)
        && rawAngle == Players.RawAngle(slide.onFloor, slide.floorAngle)
        && (!slide.onFloor ==> floorNormal == Zero && rawAngle == 0.0)
      ensures var s := SurfaceFor(old(body.friction), old(body.overrideFrictionOnAir), body.speed.x, contact, true);
        body.friction == s.friction && body.overrideFrictionOnAir == s.overrideFrictionOnAir
      ensures body.upDirection == Vec2(0.0, if body.invertedGravity then 1.0 else -1.0)
      ensures spriteOffsetY == jitter
    {
      var v := body.ProcessVelocity(DriveSpeed(body.speed.x, goPositive), true, delta, contact);
      body.ApplyVelocity(v);
      // MoveAndSlide, done by the engine
      var slide := moveAndSlide(body.velocity);
      spriteOffsetY := jitter;
      TakeSlide(slide);
    }

    /** What the tick does with the slide's outcome: the position and
        velocity it leaves are taken, a wall stops the saw horizontally and
        turns it around, and the floor normal and lean follow the floor. */
    method TakeSlide(slide: Slide)
      modifies this`position, this`goPositive, this`floorNormal, this`rawAngle, body`velocity
      ensures body.velocity == (if slide.onWall then Vec2(0.0, slide.velocity.y) else slide.velocity)
      ensures goPositive == (old(goPositive) != slide.onWall)
      ensures position == slide.position
      ensures floorNormal == (if slide.onFloor then slide.floorNormal else Zero)
      ensures rawAngle == Players.RawAngle(slide.onFloor, slide.floorAngle)
    {
      body.velocity := slide.velocity;
      position := slide.position;
      if slide.onWall {
        body.velocity := Vec2(0.0, body.velocity.y);
        goPositive := !goPositive;
      }
      if slide.onFloor {
        floorNormal := slide.floorNormal;
      } else {
        floorNormal := Zero;
      }
      rawAngle := Players.RawAngle(slide.onFloor, slide.floorAngle);
    }

    /** The base impulse, steering the saw along a clearly sideways push. */
    method Impulse(directionVector: Vec2, force: real)
      modifies body`velocity, this`goPositive
      ensures body.velocity == ImpulseVelocity(old(body.velocity), directionVector, force)
      ensures goPositive == DirectionAfterImpulse(old(goPositive), directionVector)
    {
      body.Impulse(directionVector, force);
      if AbsReal(directionVector.x) > 0.1 {
        goPositive := directionVector.x > 0.0;
      }
    }

    /** Game reset: back to the placed position at rest, with a random
        direction (`coin`) and normal gravity. */
    method OnGameReset(coin: bool)
      modifies this`position, this`goPositive, body`velocity, body`invertedGravity
      ensures position == initialPosition && body.velocity == Zero
      ensures goPositive == coin && !body.invertedGravity
    {
      position := initialPosition;
      body.velocity := Zero;
      goPositive := coin;
      body.invertedGravity := false;
    }
  }

  /** Hitting a wall on two ticks in a row turns the saw around and back. */
  method TwoWalls(s: MobileSaw, delta: real, contact: Contact, moveAndSlide: Slider, jitter: real)
    requires forall v :: moveAndSlide(v).onWall
    modifies s, s.body
    ensures s.goPositive == old(s.goPositive)
    ensures s.body.velocity.x == 0.0
  {
    s.PhysicsProcess(delta, contact, moveAndSlide, jitter);
    s.PhysicsProcess(delta, contact, moveAndSlide, jitter);
  }
}
