/** The first generation of the player controller
    (objects/player/Player.cs), a CharacterBody2D of its own with fixed
    friction and acceleration pairs instead of DynamicBody's block rules. */
module LegacyPlayers {
  import opened Wrappers
  import opened Vectors
  import opened GameObject
  import opened DynamicBodies
  import opened PlayerMechanics
  import RSMath

  /** The readonly speed of this player. */
  const LegacySpeed := Vec2(144.0, 272.0)

  /** Below this horizontal speed the body is snapped to rest. */
  const LegacySnapSpeed: real := 10.0

  /** The friction and acceleration factor picked each tick. */
  datatype Handling = Handling(friction: real, acceleration: real)

  /** Standing still on the floor brakes hard and accelerates gently;
      anything else brakes gently and accelerates hard. */
  function LegacyHandling(onFloor: bool, horizontalInput: real): (h: Handling)
    ensures h == Handling(4.0, 1.0) <==> onFloor && horizontalInput == 0.0
    ensures h == Handling(2.0, 3.0) <==> !(onFloor && horizontalInput == 0.0)
  {
    if onFloor && horizontalInput == 0.0 then Handling(4.0, 1.0) else Handling(2.0, 3.0)
  }

  /** What friction takes off: sign(vx) * friction * speed * delta. */
  function FrictionLoss(vx: real, friction: real, speedX: real, delta: real): real {
    Sign(vx) as real * friction * speedX * delta
  }

  /** What the input adds: the square of the wanted speed times delta, in
      the wanted direction, scaled by the acceleration factor. */
  function InputPush(wanted: real, delta: real, acceleration: real): (r: real)
    ensures acceleration >= 0.0 ==> (wanted > 0.0 ==> r >= 0.0) && (wanted < 0.0 ==> r <= 0.0)
    ensures wanted == 0.0 ==> r == 0.0
  {
    var step := wanted * delta;
    assert step * step >= 0.0;
    step * step * Sign(wanted) as real * acceleration
  }

  /** The horizontal velocity step. Unlike DynamicBody, both the snap test
      and the top-speed test look at the velocity from before the step. */
  function LegacyHorizontal(vx: real, h: Handling, speedX: real, wanted: real, hasInput: bool, delta: real): (r: real)
    ensures AbsReal(vx) <= LegacySnapSpeed && !hasInput ==> r == 0.0
    ensures AbsReal(vx) > LegacySnapSpeed && (!hasInput || AbsReal(vx) >= speedX) ==> r == vx - FrictionLoss(vx, h.friction, speedX, delta)
    ensures hasInput && AbsReal(vx) < speedX ==>
      r - InputPush(wanted, delta, h.acceleration) == (if AbsReal(vx) > LegacySnapSpeed then vx - FrictionLoss(vx, h.friction, speedX, delta) else 0.0)
  {
    var slowed := if AbsReal(vx) > LegacySnapSpeed then vx - FrictionLoss(vx, h.friction, speedX, delta) else 0.0;
    if AbsReal(vx) < speedX && hasInput then slowed + InputPush(wanted, delta, h.acceleration) else slowed
  }

  /** The jump force: the speed scaled by the floor normal, its vertical
      part negated under inverted gravity. */
  function LegacyJumpForce(speed: Vec2, floorNormal: Vec2, invertedGravity: bool): (r: Vec2)
    ensures !invertedGravity ==> r == JumpForce(speed, floorNormal)
    ensures invertedGravity ==> r == Vec2(JumpForce(speed, floorNormal).x, -JumpForce(speed, floorNormal).y)
  {
    var s := Mul(speed, floorNormal);
    if invertedGravity then Vec2(s.x, -s.y) else s
  }

  /** The velocity after a jump: the force is added vertically, and only
      without a wanted speed does the horizontal velocity become 1.8 times
      the force's horizontal part. */
  function LegacyJumpVelocity(v: Vec2, force: Vec2, wanted: real): (r: Vec2)
    ensures r.y == v.y + force.y
    ensures wanted == 0.0 ==> r.x == force.x * 1.8
    ensures wanted != 0.0 ==> r.x == v.x
  {
    Vec2(if wanted == 0.0 then force.x * 1.8 else v.x, v.y + force.y)
  }

  /** The sprite tilt: the floor normal's angle turned a quarter, with no
      fold; upright in the air. */
  function LegacyRendererAngle(onFloor: bool, floorAngle: real): (r: real)
    ensures !onFloor ==> r == 0.0
    ensures onFloor ==> r - floorAngle == Pi / 2.0
  {
    if onFloor then floorAngle + Pi / 2.0 else 0.0
  }

  /** The velocity the friction, input and gravity steps give. */
  function LegacyDesiredVelocity(velocity: Vec2, speed: Vec2, horizontalInput: real, gravity: real,
                                 onFloor: bool, delta: real): Vec2
  {
    Vec2(LegacyHorizontal(velocity.x, LegacyHandling(onFloor, horizontalInput), speed.x,
                          WantedHorizontalSpeed(speed, horizontalInput), horizontalInput != 0.0, delta),
         velocity.y + gravity * delta)
  }

  /** The velocity and cut flag after the jump (when it fires) and the jump
      cut, before the speed clamp. */
  function LegacyJumpAndCut(v: Vec2, force: Vec2, wanted: real, fired: bool, goingUp: bool, released: bool,
                            canReduceJump: bool, inTrampoline: bool): (m: Motion)
    ensures !fired ==> m.velocity.x == v.x
    ensures fired && wanted != 0.0 ==> m.velocity.x == v.x
    ensures m.canReduceJump ==> !inTrampoline && (fired || canReduceJump)
    ensures fired && !inTrampoline && !(goingUp && released) ==> m.canReduceJump
  {
    var v1 := if fired then LegacyJumpVelocity(v, force, wanted) else v;
    var c := JumpCut(v1.y, goingUp, released, fired || canReduceJump, inTrampoline);
    Motion(Vec2(v1.x, c.vy), c.canReduceJump)
  }

  /** The friction, input and gravity part of a tick, from the velocity
      before it. */
  method VelocityStep(velocity: Vec2, speed: Vec2, horizontalInput: real, gravity: real, onFloor: bool, delta: real)
    returns (v: Vec2, h: Handling)
    ensures h == LegacyHandling(onFloor, horizontalInput)
    ensures v == LegacyDesiredVelocity(velocity, speed, horizontalInput, gravity, onFloor, delta)
  {
    v := velocity;
    if onFloor && horizontalInput == 0.0 {
      h := Handling(4.0, 1.0);
    } else {
      h := Handling(2.0, 3.0);
    }
    if AbsReal(velocity.x) > LegacySnapSpeed {
      v := v.(x := v.x - FrictionLoss(velocity.x, h.friction, speed.x, delta));
    } else {
      v := v.(x := 0.0);
    }
    if AbsReal(velocity.x) < speed.x && horizontalInput != 0.0 {
      v := v.(x := v.x + InputPush(WantedHorizontalSpeed(speed, horizontalInput), delta, h.acceleration));
    }
    v := v.(y := v.y + gravity * delta);
  }

  /** Fires the jump when both countdowns run: the force is added, the
      buffer is spent and the jump cut is armed. */
  method LegacyJumpStep(js: JumpState, velocity: Vec2, force: Vec2, wanted: real) returns (r: JumpState, v: Vec2, fired: bool)
    ensures fired == JumpFires(Timers(js.jumpTime, js.hangCount))
    ensures fired ==> v == LegacyJumpVelocity(velocity, force, wanted) && r == js.(jumpTime := 0.0, canReduceJump := true)
    ensures !fired ==> v == velocity && r == js
  {
    r, v, fired := js, velocity, false;
    if r.jumpTime > 0.0 && r.hangCount > 0.0 {
      v := v.(y := v.y + force.y);
      if wanted == 0.0 {
        v := v.(x := force.x * 1.8);
      }
      r := r.(jumpTime := 0.0, canReduceJump := true);
      fired := true;
    }
  }

  /** The jump and the jump cut of one tick. */
  method LegacyJumpAndCutStep(js: JumpState, velocity: Vec2, force: Vec2, wanted: real, goingUp: bool, inTrampoline: bool)
    returns (r: JumpState, v: Vec2, fired: bool)
    ensures fired == JumpFires(Timers(js.jumpTime, js.hangCount))
    ensures var m := LegacyJumpAndCut(velocity, force, wanted, fired, goingUp, js.releasedJump, js.canReduceJump, inTrampoline);
      v == m.velocity
      && r == js.(jumpTime := if fired then 0.0 else js.jumpTime, releasedJump := false, canReduceJump := m.canReduceJump)
  {
    r, v, fired := LegacyJumpStep(js, velocity, force, wanted);
    r, v := CutStep(r, v, goingUp, inTrampoline);
  }

  /** What a tick's movement reads. */
  datatype LegacyMoveState = LegacyMoveState(jump: JumpState, velocity: Vec2, speed: Vec2, invertedGravity: bool,
                                             gravity: real, horizontalInput: real, floorNormal: Vec2,
                                             isInTrampoline: bool)

  /** What a tick's movement writes. */
  datatype LegacyMoveOutcome = LegacyMoveOutcome(jump: JumpState, velocity: Vec2, handling: Handling, fired: bool)

  /** The movement of one live tick: countdowns, handling, the horizontal
      and vertical steps, the jump, the jump cut and the speed clamp. */
  function LegacyMoveStep(s: LegacyMoveState, delta: real, onFloor: bool): (o: LegacyMoveOutcome)
  {
    var st := StepTimers(Timers(s.jump.jumpTime, s.jump.hangCount), TimerTick(s.jump.pressedJump, onFloor, delta));
    var wanted := WantedHorizontalSpeed(s.speed, s.horizontalInput);
    var desired := LegacyDesiredVelocity(s.velocity, s.speed, s.horizontalInput, Gravity(s.invertedGravity, s.gravity),
                                         onFloor, delta);
    var m := LegacyJumpAndCut(desired, LegacyJumpForce(s.speed, s.floorNormal, s.invertedGravity), wanted, st.fired,
                              s.velocity.y < 0.0, s.jump.releasedJump, s.jump.canReduceJump, s.isInTrampoline);
    LegacyMoveOutcome(JumpState(st.timers.jumpTime, st.timers.hangCount, false, false, m.canReduceJump),
                      ClampVelocity(m.velocity), LegacyHandling(onFloor, s.horizontalInput), st.fired)
  }

  /** The movement keeps the speed limit, fires exactly when the countdowns
      do, spends the one-shot flags, and leaves a body at snap rest with no
      input and no jump at rest horizontally. */
  lemma LegacyMoveStepProperties(s: LegacyMoveState, delta: real, onFloor: bool)
    ensures var o := LegacyMoveStep(s, delta, onFloor);
      var st := StepTimers(Timers(s.jump.jumpTime, s.jump.hangCount), TimerTick(s.jump.pressedJump, onFloor, delta));
      && InSpeedBounds(o.velocity)
      && o.fired == st.fired && Timers(o.jump.jumpTime, o.jump.hangCount) == st.timers
      && !o.jump.pressedJump && !o.jump.releasedJump
      && (o.jump.canReduceJump ==> !s.isInTrampoline)
      && (AbsReal(s.velocity.x) <= LegacySnapSpeed && s.horizontalInput == 0.0 && !o.fired ==> o.velocity.x == 0.0)
  {
  }

  class Player {
    var velocity: Vec2
    var position: Vec2
    var startPosition: Vec2
    var previousPosition: Vec2
    var floorNormal: Vec2
    var rendererAngle: real
    /** jumpTime, hangCount, pressedJump, releasedJump and canReduceJump. */
    var jump: JumpState
    var horizontalInput: real
    var handling: Handling
    var isInTrampoline: bool
    var invertedGravity: bool
    var isDead: bool
    var isMoving: bool
    var emitDeathParticles: bool
    var currentState: AnimState
    var previousState: AnimState
    const speed: Vec2
    /** Constants.Gravity, the project's default gravity setting. */
    const gravity: real

    /** The player as its initialisers and `_Ready` leave it at `position`. */
    constructor (gravity: real, position: Vec2)
      ensures this.gravity == gravity && speed == LegacySpeed
      ensures velocity == Zero && this.position == position && startPosition == position
      ensures previousPosition == Zero && floorNormal == Zero && rendererAngle == 0.0
      ensures jump == NoJump && horizontalInput == 0.0 && handling == Handling(0.0, 0.0)
      ensures !isInTrampoline && !invertedGravity && !isDead && !isMoving && !emitDeathParticles
      ensures currentState == Idle && previousState == Idle
    {
      this.gravity := gravity;
      speed := LegacySpeed;
      velocity := Zero;
      this.position := position;
      startPosition := position;
      previousPosition := Zero;
      floorNormal := Zero;
      rendererAngle := 0.0;
      jump := NoJump;
      horizontalInput := 0.0;
      handling := Handling(0.0, 0.0);
      isInTrampoline := false;
      invertedGravity := false;
      isDead := false;
      isMoving := false;
      emitDeathParticles := false;
      currentState := Idle;
      previousState := Idle;
    }

    /** Records a press and, independently, a release of the jump action; a
        dead player ignores input. */
    method Input(e: InputEvent)
      modifies this`jump
      ensures isDead ==> jump == old(jump)
      ensures !isDead ==>
        jump == old(jump).(pressedJump := old(jump).pressedJump || "jump" in e.pressedActions,
                           releasedJump := old(jump).releasedJump || "jump" in e.releasedActions)
    {
      if isDead {
        return;
      }
      if "jump" in e.pressedActions {
        jump := jump.(pressedJump := true);
      }
      if "jump" in e.releasedActions {
        jump := jump.(releasedJump := true);
      }
    }

    /** The per-frame update: reads the axis and picks the animation, which
        is played only when it differs from the previous frame's. */
    method Process(onFloor: bool, axis: real) returns (play: Option<AnimState>)
      modifies this`horizontalInput, this`currentState, this`previousState
      ensures isDead ==>
        play == None && horizontalInput == old(horizontalInput)
        && currentState == old(currentState) && previousState == old(previousState)
      ensures !isDead ==>
        horizontalInput == axis
        && currentState == AnimationState(onFloor, axis, isMoving, velocity.y < 0.0)
        && previousState == currentState
        && play == (if currentState != old(previousState) then Some(currentState) else None)
    {
      if isDead {
        return None;
      }
      horizontalInput := axis;
      currentState := AnimationState(onFloor, horizontalInput, isMoving, velocity.y < 0.0);
      play := if currentState != previousState then Some(currentState) else None;
      previousState := currentState;
    }

    /** The part of the state a tick's movement reads. */
    function MoveView(): LegacyMoveState
      reads this
    {
      LegacyMoveState(jump, velocity, speed, invertedGravity, gravity, horizontalInput, floorNormal, isInTrampoline)
    }

    /** One physics tick: a dead player only starts the death burst once; a
        live one hides it, moves, hands its velocity to the engine's slide
        (`moveAndSlide`) and takes the position, velocity and floor it leaves. */
    method PhysicsProcess(delta: real, onFloor: bool, moveAndSlide: Slider) returns (ev: PhysicsEvents)
      modifies this`emitDeathParticles, this`isMoving, this`previousPosition, this`jump, this`velocity,
               this`handling, this`position, this`floorNormal, this`rendererAngle
      ensures old(isDead) ==>
        ev == PhysicsEvents(!old(emitDeathParticles), false, false) && emitDeathParticles
        && unchanged(this`isMoving, this`previousPosition, this`jump, this`velocity, this`handling,
                     this`position, this`floorNormal, this`rendererAngle)
      ensures !old(isDead) ==>
        ev.hideDeathParticles == old(emitDeathParticles) && !ev.burstDeathParticles && !emitDeathParticles
        && isMoving == Moved(old(previousPosition), old(position)) && previousPosition == old(position)
      ensures !old(isDead) ==>
        var o := LegacyMoveStep(old(MoveView()), delta, onFloor);
        var slide := moveAndSlide(o.velocity);
        jump == o.jump && handling == o.handling && ev.jumped == o.fired
        && velocity == slide.velocity && position == slide.position
        && floorNormal == (if slide.onFloor then slide.floorNormal else Zero)
        && rendererAngle == LegacyRendererAngle(slide.onFloor, slide.floorAngle)
    {
      if isDead {
        ev := PhysicsEvents(!emitDeathParticles, false, false);
        if !emitDeathParticles {
          emitDeathParticles := true;
        }
        return;
      }
      var hideParticles := emitDeathParticles;
      emitDeathParticles := false;

      isMoving := Moved(previousPosition, position);
      previousPosition := position;

      var fired := Move(delta, onFloor);

      // MoveAndSlide, done by the engine
      var slide := moveAndSlide(velocity);
      TakeSlide(slide);
      ev := PhysicsEvents(false, hideParticles, fired);
    }

    /** The position and velocity the slide leaves are taken, and the floor
        normal and the renderer's lean follow the floor. */
    method TakeSlide(slide: Slide)
      modifies this`velocity, this`position, this`floorNormal, this`rendererAngle
      ensures velocity == slide.velocity && position == slide.position
      ensures floorNormal == (if slide.onFloor then slide.floorNormal else Zero)
      ensures rendererAngle == LegacyRendererAngle(slide.onFloor, slide.floorAngle)
    {
      velocity := slide.velocity;
      position := slide.position;
      floorNormal := if slide.onFloor then slide.floorNormal else Zero;
      rendererAngle := LegacyRendererAngle(slide.onFloor, slide.floorAngle);
    }

    /** The countdowns, the handling, the velocity step, the jump and the
        jump cut, with the velocity stored clamped. */
    method Move(delta: real, onFloor: bool) returns (fired: bool)
      modifies this`jump, this`velocity, this`handling
      ensures var o := LegacyMoveStep(old(MoveView()), delta, onFloor);
        jump == o.jump && velocity == o.velocity && handling == o.handling && fired == o.fired
    {
      var s := MoveView();
      var js := CountDownStep(s.jump, onFloor, delta);
      var wanted := WantedHorizontalSpeed(s.speed, s.horizontalInput);
      var v, h := VelocityStep(s.velocity, s.speed, s.horizontalInput, Gravity(s.invertedGravity, s.gravity), onFloor, delta);
      js, v, fired := LegacyJumpAndCutStep(js, v, LegacyJumpForce(s.speed, s.floorNormal, s.invertedGravity), wanted,
                                           s.velocity.y < 0.0, s.isInTrampoline);
      handling := h;
      jump := js;
      velocity := Vec2(ClampSpeed(v.x), ClampSpeed(v.y));
    }

    method AddVelocity(v: Vec2)
      modifies this`velocity
      ensures velocity == Add(old(velocity), v)
    {
      velocity := Add(velocity, v);
    }

    /** The impulse along an (engine-computed) direction vector, which also
        empties the jump buffer. */
    method Impulse(directionVector: Vec2, force: real)
      modifies this`velocity, this`jump
      ensures velocity == ImpulseVelocity(old(velocity), directionVector, force)
      ensures jump == old(jump).(jumpTime := 0.0)
    {
      ImpulseByVectors(velocity, directionVector, force);
      velocity := Mul(velocity, Sub(One, RSMath.Abs(directionVector)));
      velocity := Add(velocity, Scale(force, directionVector));
      jump := jump.(jumpTime := 0.0);
    }

    method OnPlayerDeath()
      modifies this`isDead, this`velocity
      ensures isDead && velocity == Zero
    {
      isDead := true;
      velocity := Zero;
    }

    /** A game reset brings the player back alive, at the start and at
        rest; unlike the newer controller it keeps the jump state. */
    method OnGameReset()
      modifies this`isDead, this`position, this`velocity
      ensures !isDead && position == startPosition && velocity == Zero
    {
      isDead := false;
      position := startPosition;
      velocity := Zero;
    }

    function Serialize(): (d: Dictionary)
      reads this
      ensures PositionOf(d) == Ok(position)
    {
      PositionRecord(position)
    }

    /** Restores the position; a record without one is an error and
        changes nothing. */
    method Deserialize(data: Dictionary) returns (r: Result<Vec2, SerializeError>)
      modifies this`position
      ensures r.Ok? <==> "position" in data
      ensures r.Ok? ==> position == r.value == AsVector2(data["position"])
      ensures r.Err? ==> r.error == KeyNotFound("position") && position == old(position)
    {
      match PositionOf(data)
      case Ok(p) =>
        position := p;
        r := Ok(p);
      case Err(e) =>
        r := Err(e);
    }
  }
}
