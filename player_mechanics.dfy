/** The jump-buffer, coyote-time, jump-cut and animation rules that both
    generations of the player controller share. */
module PlayerMechanics {
  import opened Vectors

  /** How long a jump press stays buffered, in seconds. */
  const MaxJumpTime: real := 0.16

  /** How long after leaving the floor a jump is still allowed, in seconds. */
  const MaxHangCount: real := 0.1

  /** The jump-related fields of a player: the two countdowns, the one-shot
      press and release flags, and whether the jump may still be cut. */
  datatype JumpState = JumpState(jumpTime: real, hangCount: real, pressedJump: bool,
                                 releasedJump: bool, canReduceJump: bool)

  /** What ResetToInitialPosition leaves: no countdown, flag or cut pending. */
  const NoJump := JumpState(0.0, 0.0, false, false, false)

  /** An input event, as the set of actions it presses and the set it
      releases. */
  datatype InputEvent = InputEvent(pressedActions: set<string>, releasedActions: set<string>)

  /** What a physics tick asks of the presentation: start the death burst,
      hide the death particles, play the jump sound. */
  datatype PhysicsEvents = PhysicsEvents(burstDeathParticles: bool, hideDeathParticles: bool, jumped: bool)

  /** The two countdowns: the jump buffer (`jumpTime`) and the coyote
      counter (`hangCount`). */
  datatype Timers = Timers(jumpTime: real, hangCount: real)

  /** What one physics tick sees: whether a press is pending, whether the
      body is on the floor before it moves, and the tick length. */
  datatype TimerTick = TimerTick(pressed: bool, onFloor: bool, delta: real)

  datatype TimerStep = TimerStep(timers: Timers, fired: bool)

  /** The jump buffer: a pending press refills it; otherwise it runs down
      while positive. */
  function BufferedJumpTime(pressed: bool, jumpTime: real, delta: real): (r: real)
    ensures pressed ==> r == MaxJumpTime
    ensures r > 0.0 ==> pressed || jumpTime > 0.0
    ensures !pressed && jumpTime > 0.0 ==> r == jumpTime - delta
    ensures !pressed && delta >= 0.0 ==> r <= jumpTime || jumpTime <= 0.0
    ensures !pressed && jumpTime <= 0.0 ==> r == jumpTime
  {
    if pressed then MaxJumpTime
    else if jumpTime > 0.0 then jumpTime - delta
    else jumpTime
  }

  /** The coyote counter: full on the floor; otherwise it runs down while
      positive. */
  function HangCountAfter(onFloor: bool, hangCount: real, delta: real): (r: real)
    ensures onFloor ==> r == MaxHangCount
    ensures r > 0.0 ==> onFloor || hangCount > 0.0
    ensures !onFloor && hangCount > 0.0 ==> r == hangCount - delta
    ensures !onFloor && hangCount <= 0.0 ==> r == hangCount
  {
    if onFloor then MaxHangCount
    else if hangCount > 0.0 then hangCount - delta
    else hangCount
  }

  /** A jump fires when both countdowns are running. */
  predicate JumpFires(t: Timers) {
    t.jumpTime > 0.0 && t.hangCount > 0.0
  }

  /** The timer part of one physics tick: count down, fire, and empty the
      buffer when the jump fires. */
  function StepTimers(t: Timers, k: TimerTick): (r: TimerStep)
    ensures r.fired ==> r.timers.jumpTime == 0.0
    ensures !r.fired ==> r.timers.jumpTime == BufferedJumpTime(k.pressed, t.jumpTime, k.delta)
    ensures r.fired <==> JumpFires(Timers(BufferedJumpTime(k.pressed, t.jumpTime, k.delta),
                                          HangCountAfter(k.onFloor, t.hangCount, k.delta)))
    ensures r.timers.hangCount == HangCountAfter(k.onFloor, t.hangCount, k.delta)
  {
    var counted := Timers(BufferedJumpTime(k.pressed, t.jumpTime, k.delta),
                          HangCountAfter(k.onFloor, t.hangCount, k.delta));
    if JumpFires(counted) then TimerStep(counted.(jumpTime := 0.0), true)
    else TimerStep(counted, false)
  }

  /** The number of jumps a run of ticks fires. */
  function FiresIn(t: Timers, ks: seq<TimerTick>): nat
    decreases |ks|
  {
    if |ks| == 0 then 0
    else
      var r := StepTimers(t, ks[0]);
      (if r.fired then 1 else 0) + FiresIn(r.timers, ks[1..])
  }

  /** The number of ticks of a run that see a pending press. */
  function PressesIn(ks: seq<TimerTick>): nat
    decreases |ks|
  {
    if |ks| == 0 then 0 else (if ks[0].pressed then 1 else 0) + PressesIn(ks[1..])
  }

  /** A buffered press is spent by its jump: over any run of ticks the jumps
      are at most the presses, plus one for a press already buffered. */
  lemma {:induction false} AtMostOneJumpPerPress(t: Timers, ks: seq<TimerTick>)
    ensures FiresIn(t, ks) <= PressesIn(ks) + (if t.jumpTime > 0.0 then 1 else 0)
    decreases |ks|
  {
    if |ks| > 0 {
      var r := StepTimers(t, ks[0]);
      AtMostOneJumpPerPress(r.timers, ks[1..]);
      assert r.timers.jumpTime > 0.0 ==> !r.fired;
      if !ks[0].pressed && t.jumpTime <= 0.0 {
        assert !r.fired && r.timers.jumpTime <= 0.0;
      }
    }
  }

  /** With an empty buffer and no press, no run of ticks jumps. */
  lemma {:induction false} NoPressNoJump(t: Timers, ks: seq<TimerTick>)
    requires t.jumpTime <= 0.0
    requires PressesIn(ks) == 0
    ensures FiresIn(t, ks) == 0
  {
    AtMostOneJumpPerPress(t, ks);
  }

  /** A press on the floor always jumps on that tick. */
  lemma PressOnFloorJumps(t: Timers, delta: real)
    ensures StepTimers(t, TimerTick(true, true, delta)).fired
  {
  }

  /** Coyote time: on the first airborne tick after a floor tick the counter
      is still positive, so a press then still jumps. */
  lemma CoyoteJump(t: Timers, delta: real)
    requires t.hangCount == MaxHangCount
    requires 0.0 <= delta < MaxHangCount
    ensures StepTimers(t, TimerTick(true, false, delta)).fired
  {
  }

  /** Jump buffering: a press still buffered when the body lands jumps on
      the landing tick. */
  lemma BufferedJumpOnLanding(t: Timers, delta: real)
    requires 0.0 <= delta < t.jumpTime
    ensures StepTimers(t, TimerTick(false, true, delta)).fired
  {
  }

  /** Off the floor with the coyote counter run out, nothing jumps. */
  lemma NoJumpAfterHangExpires(t: Timers, k: TimerTick)
    requires !k.onFloor && t.hangCount <= 0.0
    ensures !StepTimers(t, k).fired && StepTimers(t, k).timers.hangCount == t.hangCount
  {
  }

  /** The jump buffer and the coyote counter of one tick; the pending press
      is spent. */
  method CountDownStep(js: JumpState, onFloor: bool, delta: real) returns (r: JumpState)
    ensures r == js.(jumpTime := BufferedJumpTime(js.pressedJump, js.jumpTime, delta),
                     hangCount := HangCountAfter(onFloor, js.hangCount, delta), pressedJump := false)
  {
    r := js;
    if r.pressedJump {
      r := r.(jumpTime := MaxJumpTime, pressedJump := false);
    } else if r.jumpTime > 0.0 {
      r := r.(jumpTime := r.jumpTime - delta);
    }
    if onFloor {
      r := r.(hangCount := MaxHangCount);
    } else if r.hangCount > 0.0 {
      r := r.(hangCount := r.hangCount - delta);
    }
  }

  /** The horizontal speed the input asks for: the speed scaled by the
      axis value. */
  function WantedHorizontalSpeed(speed: Vec2, horizontalInput: real): (r: real)
    ensures horizontalInput == 0.0 ==> r == 0.0
    ensures speed.x > 0.0 ==> (r > 0.0 <==> horizontalInput > 0.0) && (r < 0.0 <==> horizontalInput < 0.0)
  {
    speed.x * horizontalInput
  }

  /** The impulse a jump adds: the speed scaled by the floor normal. */
  function JumpForce(speed: Vec2, floorNormal: Vec2): (r: Vec2)
    ensures floorNormal == Zero ==> r == Zero
  {
    Mul(speed, floorNormal)
  }

  /** The outcome of the jump cut: the new vertical velocity and flag. */
  datatype Cut = Cut(vy: real, canReduceJump: bool)

  /** The jump cut: a trampoline cancels it; otherwise releasing the button
      while going up halves the vertical velocity once. */
  function JumpCut(vy: real, goingUp: bool, released: bool, canReduceJump: bool, inTrampoline: bool): (r: Cut)
    ensures inTrampoline ==> r == Cut(vy, false)
    ensures r.canReduceJump ==> canReduceJump
    ensures r.vy != vy ==> canReduceJump && !r.canReduceJump && goingUp && released
    ensures !inTrampoline && goingUp && released && canReduceJump ==> r == Cut(vy / 2.0, false)
  {
    if inTrampoline then Cut(vy, false)
    else if goingUp && released && canReduceJump then Cut(vy * 0.5, false)
    else Cut(vy, canReduceJump)
  }

  /** A cut spends its flag: cutting again, with no new jump, changes
      nothing. */
  lemma JumpCutOnce(vy: real, goingUp: bool, released: bool, canReduceJump: bool, inTrampoline: bool)
    ensures var c := JumpCut(vy, goingUp, released, canReduceJump, inTrampoline);
      c.vy != vy ==> JumpCut(c.vy, goingUp, released, c.canReduceJump, inTrampoline) == c
  {
  }

  /** The jump cut; the release flag is spent on every live tick. */
  method CutStep(js: JumpState, velocity: Vec2, goingUp: bool, inTrampoline: bool) returns (r: JumpState, v: Vec2)
    ensures var c := JumpCut(velocity.y, goingUp, js.releasedJump, js.canReduceJump, inTrampoline);
      v == Vec2(velocity.x, c.vy) && r == js.(canReduceJump := c.canReduceJump, releasedJump := false)
  {
    r, v := js, velocity;
    if inTrampoline {
      r := r.(canReduceJump := false);
    } else if goingUp && r.releasedJump && r.canReduceJump {
      v := v.(y := v.y * 0.5);
      r := r.(canReduceJump := false);
    }
    if r.releasedJump {
      r := r.(releasedJump := false);
    }
  }

  /** The jump's and the jump cut's effect on the velocity and the cut flag. */
  datatype Motion = Motion(velocity: Vec2, canReduceJump: bool)

  datatype AnimState = Idle | Running | Jumping | Falling

  /** The animation chosen each frame from the floor contact, the axis
      input, the moving flag and the vertical direction. */
  function AnimationState(onFloor: bool, horizontalInput: real, isMoving: bool, goingUp: bool): (s: AnimState)
    ensures s == Running <==> onFloor && horizontalInput != 0.0 && isMoving
    ensures s == Jumping <==> !onFloor && goingUp
    ensures s == Falling <==> !onFloor && !goingUp
    ensures s == Idle <==> onFloor && (horizontalInput == 0.0 || !isMoving)
  {
    if onFloor && horizontalInput == 0.0 then Idle
    else if onFloor && horizontalInput != 0.0 && isMoving then Running
    else if !onFloor && goingUp then Jumping
    else if !onFloor && !goingUp then Falling
    else Idle
  }

  /** The animation played for a state. */
  function AnimationName(s: AnimState): string {
    match s
    case Idle => "idle"
    case Running => "running"
    case Jumping => "jumping"
    case Falling => "falling"
  }

  /** The body moved during the last tick, by more than sqrt(0.1). */
  predicate Moved(previousPosition: Vec2, position: Vec2) {
    DistanceSquared(previousPosition, position) > 0.1
  }
}
