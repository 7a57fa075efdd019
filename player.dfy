/** The player controller built on DynamicBody
    (scenes/objects/player/scripts/Player.cs). */
module Players {
  import opened Wrappers
  import opened Vectors
  import opened GameObject
  import opened DynamicBodies
  import opened PlayerMechanics

  /** The jump action a player listens to: player 1, player 2, or the
      single-player binding for any other index. */
  function JumpAction(playerIndex: int): (a: string)
    ensures a == "jump_p1" <==> playerIndex == 1
    ensures a == "jump_p2" <==> playerIndex == 2
    ensures a == "jump" <==> playerIndex != 1 && playerIndex != 2
  {
    if playerIndex == 1 then "jump_p1"
    else if playerIndex == 2 then "jump_p2"
    else "jump"
  }

  /** The tilt the sprite leans towards: the floor normal's angle folded
      into the upper half-turn and turned a quarter; upright in the air. */
  function RawAngle(onFloor: bool, floorAngle: real): (r: real)
    ensures !onFloor ==> r == 0.0
    ensures onFloor && -Pi < floorAngle <= Pi ==> -Pi / 2.0 < r <= Pi / 2.0
    ensures onFloor && floorAngle == -Pi / 2.0 ==> r == 0.0
  {
    if !onFloor then 0.0
    else
      var folded := if floorAngle > 0.0 then floorAngle - Pi else floorAngle;
      folded + Pi / 2.0
  }

  /** The velocity after a jump: the jump force is added vertically, and the
      horizontal velocity becomes 1.8 times the force's horizontal part when
      there is no wanted speed or the body is slower than that part in the
      wanted direction. */
  function JumpVelocity(v: Vec2, jumpForce: Vec2, wanted: real): (r: Vec2)
    ensures r.y == v.y + jumpForce.y
    ensures r.x == v.x || r.x == jumpForce.x * 1.8
    ensures wanted == 0.0 ==> r.x == jumpForce.x * 1.8
    ensures wanted > 0.0 && v.x >= jumpForce.x ==> r.x == v.x
    ensures wanted < 0.0 && v.x <= -jumpForce.x ==> r.x == v.x
    ensures wanted > 0.0 && v.x < jumpForce.x ==> r.x == jumpForce.x * 1.8
    ensures wanted < 0.0 && v.x > -jumpForce.x ==> r.x == jumpForce.x * 1.8
  {
    var pushX := wanted == 0.0 || (wanted > 0.0 && v.x < jumpForce.x) || (wanted < 0.0 && v.x > -jumpForce.x);
    Vec2(if pushX then jumpForce.x * 1.8 else v.x, v.y + jumpForce.y)
  }

  /** A jump from the air (zero floor normal) adds no vertical impulse. */
  lemma AirborneJumpAddsNoLift(speed: Vec2, v: Vec2, wanted: real)
    ensures JumpVelocity(v, JumpForce(speed, Zero), wanted).y == v.y
    ensures wanted == 0.0 ==> JumpVelocity(v, JumpForce(speed, Zero), wanted).x == 0.0
  {
  }

  /** The velocity and cut flag after the jump (when it fires) and the jump
      cut, before the speed clamp. */
  function JumpAndCut(v: Vec2, force: Vec2, wanted: real, fired: bool, goingUp: bool, released: bool,
                      canReduceJump: bool, inTrampoline: bool): (m: Motion)
    ensures !fired ==> m.velocity.x == v.x
    ensures m.canReduceJump ==> !inTrampoline && (fired || canReduceJump)
    ensures fired && !inTrampoline && !(goingUp && released) ==> m.canReduceJump
    ensures !fired && !m.canReduceJump && canReduceJump && !inTrampoline ==> m.velocity.y == v.y / 2.0
  {
    var v1 := if fired then JumpVelocity(v, force, wanted) else v;
    var c := JumpCut(v1.y, goingUp, released, fired || canReduceJump, inTrampoline);
    Motion(Vec2(v1.x, c.vy), c.canReduceJump)
  }

  /** Fires the jump when both countdowns run: the jump force is applied,
      the buffer is spent and the jump cut is armed. */
  method JumpStep(js: JumpState, velocity: Vec2, force: Vec2, wanted: real) returns (r: JumpState, v: Vec2, fired: bool)
    ensures fired == JumpFires(Timers(js.jumpTime, js.hangCount))
    ensures fired ==> v == JumpVelocity(velocity, force, wanted) && r == js.(jumpTime := 0.0, canReduceJump := true)
    ensures !fired ==> v == velocity && r == js
  {
    r, v, fired := js, velocity, false;
    if r.jumpTime > 0.0 && r.hangCount > 0.0 {
      v := v.(y := v.y + force.y);
      if wanted == 0.0 || (wanted > 0.0 && v.x < force.x) || (wanted < 0.0 && v.x > -force.x) {
        v := v.(x := force.x * 1.8);
      }
      r := r.(jumpTime := 0.0, canReduceJump := true);
      fired := true;
    }
  }

  /** The jump and the jump cut of one tick, on the velocity DynamicBody
      proposes. */
  method JumpAndCutStep(js: JumpState, velocity: Vec2, force: Vec2, wanted: real, goingUp: bool, inTrampoline: bool)
    returns (r: JumpState, v: Vec2, fired: bool)
    ensures fired == JumpFires(Timers(js.jumpTime, js.hangCount))
    ensures var m := JumpAndCut(velocity, force, wanted, fired, goingUp, js.releasedJump, js.canReduceJump, inTrampoline);
      v == m.velocity
      && r == js.(jumpTime := if fired then 0.0 else js.jumpTime, releasedJump := false, canReduceJump := m.canReduceJump)
  {
    r, v, fired := JumpStep(js, velocity, force, wanted);
    r, v := CutStep(r, v, goingUp, inTrampoline);
  }

  /** What a live tick's movement reads: the player's jump state, axis,
      floor normal and trampoline flag, and its body's state. */
  datatype MoveState = MoveState(jump: JumpState, velocity: Vec2, speed: Vec2, friction: real,
                                 overrideFrictionOnAir: bool, invertedGravity: bool, gravity: real,
                                 horizontalInput: real, floorNormal: Vec2, isInTrampoline: bool)

  /** What a live tick's movement writes. */
  datatype MoveOutcome = MoveOutcome(jump: JumpState, velocity: Vec2, friction: real, overrideFrictionOnAir: bool,
                                     upDirection: Vec2, fired: bool)

  /** The movement of one live tick: the countdowns run and may fire the
      jump, DynamicBody's velocity step, the jump and the jump cut give the
      new velocity, clamped, and the one-shot press and release flags are
      spent. */
  function MoveStep(s: MoveState, delta: real, contact: Contact): (o: MoveOutcome)
  {
    var st := StepTimers(Timers(s.jump.jumpTime, s.jump.hangCount), TimerTick(s.jump.pressedJump, contact.onFloor, delta));
    var wanted := WantedHorizontalSpeed(s.speed, s.horizontalInput);
    var surface := SurfaceFor(s.friction, s.overrideFrictionOnAir, s.speed.x, contact, s.horizontalInput != 0.0);
    var desired := DesiredVelocity(s.velocity, s.speed.x, s.friction, s.overrideFrictionOnAir, Gravity(s.invertedGravity, s.gravity),
                                   wanted, s.horizontalInput != 0.0, delta, contact);
    var m := JumpAndCut(desired, JumpForce(s.speed, s.floorNormal), wanted, st.fired, s.velocity.y < 0.0,
                        s.jump.releasedJump, s.jump.canReduceJump, s.isInTrampoline);
    MoveOutcome(JumpState(st.timers.jumpTime, st.timers.hangCount, false, false, m.canReduceJump),
                ClampVelocity(m.velocity), surface.friction, surface.overrideFrictionOnAir,
                Vec2(0.0, if s.invertedGravity then 1.0 else -1.0), st.fired)
  }

  /** The movement of a live tick keeps the speed limit, fires exactly
      when the countdowns do, spends the buffer when it fires, always spends
      the one-shot flags, never leaves a cut armed on a trampoline, and keeps
      the up direction opposite to gravity. */
  lemma MoveStepProperties(s: MoveState, delta: real, contact: Contact)
    ensures var o := MoveStep(s, delta, contact);
      var st := StepTimers(Timers(s.jump.jumpTime, s.jump.hangCount), TimerTick(s.jump.pressedJump, contact.onFloor, delta));
      && InSpeedBounds(o.velocity)
      && o.fired == st.fired && Timers(o.jump.jumpTime, o.jump.hangCount) == st.timers
      && (o.fired ==> o.jump.jumpTime == 0.0)
      && !o.jump.pressedJump && !o.jump.releasedJump
      && (o.jump.canReduceJump ==> !s.isInTrampoline)
      && (o.upDirection.y > 0.0 <==> s.invertedGravity)
  {
  }

  /** MoveStep in the order the tick computes it: the countdowns, the
      firing check, DynamicBody's velocity step, then the jump and the cut. */
  lemma MoveStepInOrder(s: MoveState, delta: real, contact: Contact)
    ensures var js := s.jump.(jumpTime := BufferedJumpTime(s.jump.pressedJump, s.jump.jumpTime, delta),
                              hangCount := HangCountAfter(contact.onFloor, s.jump.hangCount, delta), pressedJump := false);
      var fired := JumpFires(Timers(js.jumpTime, js.hangCount));
      var wanted := WantedHorizontalSpeed(s.speed, s.horizontalInput);
      var desired := DesiredVelocity(s.velocity, s.speed.x, s.friction, s.overrideFrictionOnAir, Gravity(s.invertedGravity, s.gravity),
                                     wanted, s.horizontalInput != 0.0, delta, contact);
      var m := JumpAndCut(desired, JumpForce(s.speed, s.floorNormal), wanted, fired, s.velocity.y < 0.0,
                          js.releasedJump, js.canReduceJump, s.isInTrampoline);
      var surface := SurfaceFor(s.friction, s.overrideFrictionOnAir, s.speed.x, contact, s.horizontalInput != 0.0);
      MoveStep(s, delta, contact)
      == MoveOutcome(js.(jumpTime := if fired then 0.0 else js.jumpTime, releasedJump := false, canReduceJump := m.canReduceJump),
                     ClampVelocity(m.velocity), surface.friction, surface.overrideFrictionOnAir,
                     Vec2(0.0, if s.invertedGravity then 1.0 else -1.0), fired)
  {
  }

  class Player {
    /** The DynamicBody part of the player. */
    const body: DynamicBody
    var position: Vec2
    var startPosition: Vec2
    var previousPosition: Vec2
    var floorNormal: Vec2
    var rawAngle: real
    /** jumpTime, hangCount, pressedJump, releasedJump and canReduceJump. */
    var jump: JumpState
    var horizontalInput: real
    /** 0 for single player, 1 and 2 for the two players of a split screen. */
    var playerIndex: int
    var delayedTicksAfterReset: int
    var isInTrampoline: bool
    var isDead: bool
    var isMoving: bool
    var emitDeathParticles: bool
    var currentState: AnimState
    var previousState: AnimState

    /** The player as `_Ready` leaves it at `position`. */
    constructor (gravity: real, position: Vec2, playerIndex: int)
      ensures fresh(body) && body.gravity == gravity && body.velocity == Zero && !body.invertedGravity
      ensures body.speed == DefaultSpeed && body.friction == AirFriction && !body.overrideFrictionOnAir
      ensures this.position == position && startPosition == position && this.playerIndex == playerIndex
      ensures previousPosition == Zero && floorNormal == Zero && rawAngle == 0.0
      ensures jump == NoJump && horizontalInput == 0.0 && delayedTicksAfterReset == 0
      ensures !isInTrampoline && !isDead && !isMoving && !emitDeathParticles
      ensures currentState == Idle && previousState == Idle
    {
      body := new DynamicBody(gravity);
      this.position := position;
      startPosition := position;
      previousPosition := Zero;
      floorNormal := Zero;
      rawAngle := 0.0;
      jump := NoJump;
      horizontalInput := 0.0;
      this.playerIndex := playerIndex;
      delayedTicksAfterReset := 0;
      isInTrampoline := false;
      isDead := false;
      isMoving := false;
      emitDeathParticles := false;
      currentState := Idle;
      previousState := Idle;
    }

    /** The state ResetToInitialPosition leaves behind. */
    ghost predicate IsReset()
      reads this, body
    {
      !isDead && position == startPosition && body.velocity == Zero && !body.invertedGravity
      && jump == NoJump && horizontalInput == 0.0 && rawAngle == 0.0
    }

    /** Records a press, or else a release, of this player's jump action;
        a dead player ignores input. */
    method Input(e: InputEvent)
      modifies this`jump
      ensures isDead ==> jump == old(jump)
      ensures !isDead ==>
        var a := JumpAction(playerIndex);
        jump == old(jump).(pressedJump := old(jump).pressedJump || a in e.pressedActions,
                           releasedJump := old(jump).releasedJump || (a !in e.pressedActions && a in e.releasedActions))
    {
      if isDead {
        return;
      }
      var action := JumpAction(playerIndex);
      var isJumpPressed := action in e.pressedActions;
      var isJumpReleased := action in e.releasedActions;
      if isJumpPressed {
        jump := jump.(pressedJump := true);
      } else if isJumpReleased {
        jump := jump.(releasedJump := true);
      }
    }

    /** The per-frame update: reads the axis and picks the animation, which
        is played only when it differs from the previous frame's. */
    method Process(onFloor: bool, axis: real) returns (play: Option<AnimState>)
      modifies this`horizontalInput, this`currentState, this`previousState
      ensures isDead ==>
        play == None && horizontalInput == old(horizontalInput)
        && currentState == old(currentState) && previousState == old(previousState)
      ensures !isDead ==>
        horizontalInput == axis
        && currentState == AnimationState(onFloor, axis, isMoving, body.velocity.y < 0.0)
        && previousState == currentState
        && play == (if currentState != old(previousState) then Some(currentState) else None)
    {
      if isDead {
        return None;
      }
      horizontalInput := axis;
      currentState := AnimationState(onFloor, horizontalInput, isMoving, body.velocity.y < 0.0);
      play := if currentState != previousState then Some(currentState) else None;
      previousState := currentState;
    }

    /** Puts the player back at the start, alive, at rest, with normal
        gravity and no jump pending. */
    method ResetToInitialPosition()
      modifies this`isDead, this`position, this`jump, this`horizontalInput, this`rawAngle,
               body`velocity, body`invertedGravity
      ensures IsReset()
    {
      isDead := false;
      position := startPosition;
      body.velocity := Zero;
      body.invertedGravity := false;
      jump := NoJump;
      horizontalInput := 0.0;
      rawAngle := 0.0;
    }

    /** One physics tick. Right after a reset it only re-resets; a dead
        player only starts the death burst once; otherwise LiveTick runs. */
    method PhysicsProcess(delta: real, contact: Contact, moveAndSlide: Slider) returns (ev: PhysicsEvents)
      modifies this, body
      ensures body.speed == old(body.speed)
      ensures startPosition == old(startPosition) && playerIndex == old(playerIndex)
      ensures isInTrampoline == old(isInTrampoline)
      ensures currentState == old(currentState) && previousState == old(previousState)
      // the tick right after a reset
      ensures old(delayedTicksAfterReset) > 0 ==>
        delayedTicksAfterReset == old(delayedTicksAfterReset) - 1 && IsReset()
        && ev == PhysicsEvents(false, false, false)
        && isMoving == old(isMoving) && emitDeathParticles == old(emitDeathParticles)
        && previousPosition == old(previousPosition) && floorNormal == old(floorNormal)
        && body.friction == old(body.friction) && body.overrideFrictionOnAir == old(body.overrideFrictionOnAir)
        && body.upDirection == old(body.upDirection)
      // dead
      ensures old(delayedTicksAfterReset) <= 0 && old(isDead) ==>
        ev == PhysicsEvents(!old(emitDeathParticles), false, false) && emitDeathParticles
        && unchanged(body)
        && unchanged(this`position, this`previousPosition, this`floorNormal, this`rawAngle, this`jump,
                     this`horizontalInput, this`delayedTicksAfterReset, this`isDead, this`isMoving)
      // alive
      ensures old(delayedTicksAfterReset) <= 0 && !old(isDead) ==>
        !isDead && delayedTicksAfterReset == old(delayedTicksAfterReset) && horizontalInput == old(horizontalInput)
        && body.invertedGravity == old(body.invertedGravity)
        && ev.hideDeathParticles == old(emitDeathParticles) && !ev.burstDeathParticles && !emitDeathParticles
        && isMoving == Moved(old(previousPosition), old(position)) && previousPosition == old(position)
      ensures old(delayedTicksAfterReset) <= 0 && !old(isDead) ==>
        var o := MoveStep(old(MoveView()), delta, contact);
        var slide := moveAndSlide(o.velocity);
        jump == o.jump && body.friction == o.friction
        && body.overrideFrictionOnAir == o.overrideFrictionOnAir && body.upDirection == o.upDirection
        && ev.jumped == o.fired
        && body.velocity == slide.velocity && position == slide.position
        && floorNormal == (if slide.onFloor then slide.floorNormal else Zero)
        && rawAngle == RawAngle(slide.onFloor, slide.floorAngle)
    {
      if delayedTicksAfterReset > 0 {
        delayedTicksAfterReset := delayedTicksAfterReset - 1;
        ResetToInitialPosition();
        return PhysicsEvents(false, false, false);
      }

      if isDead {
        ev := DeadTick();
        return;
      }
      ev := LiveTick(delta, contact, moveAndSlide);
    }

    /** The physics tick of a dead player: the death burst starts once. */
    method DeadTick() returns (ev: PhysicsEvents)
      modifies this`emitDeathParticles
      ensures ev == PhysicsEvents(!old(emitDeathParticles), false, false) && emitDeathParticles
    {
      ev := PhysicsEvents(!emitDeathParticles, false, false);
      if !emitDeathParticles {
        emitDeathParticles := true;
      }
    }

    /** The part of the state a live tick's movement reads. */
    function MoveView(): MoveState
      reads this, body
    {
      MoveState(jump, body.velocity, body.speed, body.friction, body.overrideFrictionOnAir, body.invertedGravity,
                body.gravity, horizontalInput, floorNormal, isInTrampoline)
    }

    /** The physics tick of a live player. */
    method LiveTick(delta: real, contact: Contact, moveAndSlide: Slider) returns (ev: PhysicsEvents)
      modifies this`emitDeathParticles, this`isMoving, this`previousPosition, this`jump,
               this`position, this`floorNormal, this`rawAngle,
               body`velocity, body`friction, body`overrideFrictionOnAir, body`upDirection
      ensures ev.hideDeathParticles == old(emitDeathParticles) && !ev.burstDeathParticles && !emitDeathParticles
      ensures isMoving == Moved(old(previousPosition), old(position)) && previousPosition == old(position)
      ensures var o := MoveStep(old(MoveView()), delta, contact);
        jump == o.jump && body.friction == o.friction
        && body.overrideFrictionOnAir == o.overrideFrictionOnAir && body.upDirection == o.upDirection
        && ev.jumped == o.fired
        && var slide := moveAndSlide(o.velocity);
           body.velocity == slide.velocity && position == slide.position
           && floorNormal == (if slide.onFloor then slide.floorNormal else Zero)
           && rawAngle == RawAngle(slide.onFloor, slide.floorAngle)
    {
      var hideParticles := emitDeathParticles;
      emitDeathParticles := false;

      isMoving := Moved(previousPosition, position);
      previousPosition := position;

      var fired := Move(delta, contact);

      // MoveAndSlide, done by the engine
      var slide := moveAndSlide(body.velocity);
      TakeSlide(slide);
      ev := PhysicsEvents(false, hideParticles, fired);
    }

    /** The position and velocity the slide leaves are taken, and the floor
        normal and the sprite's lean follow the floor. */
    method TakeSlide(slide: Slide)
      modifies this`position, this`floorNormal, this`rawAngle, body`velocity
      ensures body.velocity == slide.velocity && position == slide.position
      ensures floorNormal == (if slide.onFloor then slide.floorNormal else Zero)
      ensures rawAngle == RawAngle(slide.onFloor, slide.floorAngle)
    {
      body.velocity := slide.velocity;
      position := slide.position;
      floorNormal := if slide.onFloor then slide.floorNormal else Zero;
      rawAngle := RawAngle(slide.onFloor, slide.floorAngle);
    }

    /** The countdowns, DynamicBody's velocity step, the jump and the jump
        cut, with the velocity written to the body clamped. */
    method Move(delta: real, contact: Contact) returns (fired: bool)
      modifies this`jump, body`velocity, body`friction, body`overrideFrictionOnAir, body`upDirection
      ensures var o := MoveStep(old(MoveView()), delta, contact);
        jump == o.jump && body.velocity == o.velocity && body.friction == o.friction
        && body.overrideFrictionOnAir == o.overrideFrictionOnAir && body.upDirection == o.upDirection
        && fired == o.fired
    {
      var s := MoveView();
      MoveStepInOrder(s, delta, contact);
      var js := CountDownStep(s.jump, contact.onFloor, delta);
      var wanted := WantedHorizontalSpeed(s.speed, s.horizontalInput);
      var velocity := body.ProcessVelocity(wanted, s.horizontalInput != 0.0, delta, contact);
      js, velocity, fired := JumpAndCutStep(js, velocity, JumpForce(s.speed, s.floorNormal), wanted,
                                            s.velocity.y < 0.0, s.isInTrampoline);
      jump := js;
      body.ApplyVelocity(velocity);
    }

    /** The DynamicBody impulse, which also empties the jump buffer. */
    method Impulse(directionVector: Vec2, force: real)
      modifies body`velocity, this`jump
      ensures body.velocity == ImpulseVelocity(old(body.velocity), directionVector, force)
      ensures jump == old(jump).(jumpTime := 0.0)
    {
      body.Impulse(directionVector, force);
      jump := jump.(jumpTime := 0.0);
    }

    method OnPlayerDeath()
      modifies this`isDead, body`velocity
      ensures isDead && body.velocity == Zero
    {
      isDead := true;
      body.velocity := Zero;
    }

    /** A game reset: back to the start, with the next physics tick held
        back. */
    method OnGameReset()
      modifies this`isDead, this`position, this`jump, this`horizontalInput, this`rawAngle,
               this`delayedTicksAfterReset, body`velocity, body`invertedGravity
      ensures IsReset() && delayedTicksAfterReset == 1
    {
      ResetToInitialPosition();
      delayedTicksAfterReset := 1;
    }

    function Serialize(): (d: Dictionary)
      reads this
      ensures PositionOf(d) == Ok(position)
    {
      PositionRecord(position)
    }

    /** Restores the position; a record without one is an error and
        changes nothing. */
    method Deserialize(data: Dictionary) returns (r: Result<Vec2, SerializeError>)
      modifies this`position
      ensures r.Ok? <==> "position" in data
      ensures r.Ok? ==> position == r.value == AsVector2(data["position"])
      ensures r.Err? ==> r.error == KeyNotFound("position") && position == old(position)
    {
      match PositionOf(data)
      case Ok(p) =>
        position := p;
        r := Ok(p);
      case Err(e) =>
        r := Err(e);
    }
  }

  /** After a game reset the next physics tick changes nothing but the
      delay counter: the player is still reset and the tick after runs
      normally. */
  method ResetThenTick(p: Player, delta: real, contact: Contact, moveAndSlide: Slider)
    modifies p, p.body
    ensures p.IsReset() && p.delayedTicksAfterReset == 0
  {
    p.OnGameReset();
    var _ := p.PhysicsProcess(delta, contact, moveAndSlide);
  }

  /** Saving and restoring a player brings back its position. */
  method SaveRestore(p: Player)
    modifies p`position
    ensures p.position == old(p.position)
  {
    var saved := p.Serialize();
    var r := p.Deserialize(saved);
  }
}
