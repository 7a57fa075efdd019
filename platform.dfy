/** The moving platform of objects/platform/Platform.cs: it shuttles along
    one axis, pausing for a quarter second and turning around whenever a
    tick made no progress. */
module Platforms {
  import opened Wrappers
  import opened Vectors
  import opened DynamicBodies

  /** How long the platform pauses after turning around, in seconds. */
  const TurnDelay: real := 0.25

  /** The unit vector the platform moves along: down or up when vertical,
      right or left otherwise (screen y grows downward). */
  function AxisDirection(vertical: bool, goPositive: bool): (d: Vec2)
    ensures vertical ==> d.x == 0.0 && d.y == (if goPositive then 1.0 else -1.0)
    ensures !vertical ==> d.y == 0.0 && d.x == (if goPositive then 1.0 else -1.0)
    ensures d.x * d.x + d.y * d.y == 1.0
  {
    if vertical then (if goPositive then Vec2(0.0, 1.0) else Vec2(0.0, -1.0))
    else (if goPositive then Vec2(1.0, 0.0) else Vec2(-1.0, 0.0))
  }

  /** Turning around reverses the direction of travel. */
  lemma AxisDirectionFlips(vertical: bool, goPositive: bool)
    ensures AxisDirection(vertical, !goPositive) == Scale(-1.0, AxisDirection(vertical, goPositive))
  {
  }

  /** The position after the slide, with the off-axis coordinate pinned to
      the start position. */
  function Pinned(vertical: bool, startPosition: Vec2, slid: Vec2): (p: Vec2)
    ensures vertical ==> p == Vec2(startPosition.x, slid.y)
    ensures !vertical ==> p == Vec2(slid.x, startPosition.y)
  {
    if vertical then Vec2(startPosition.x, slid.y) else Vec2(slid.x, startPosition.y)
  }

  class Platform {
    const speed: real
    const vertical: bool
    const startPositive: bool
    var goPositive: bool
    var delayToMove: real
    var startPosition: Vec2
    /** The position at the last moving tick; `None` stands for the point
        at infinity set during a pause, which is never close. */
    var previousPosition: Option<Vec2>
    var position: Vec2
    var velocity: Vec2

    constructor(speed: real, vertical: bool, startPositive: bool, position: Vec2)
      ensures this.speed == speed && this.vertical == vertical && this.startPositive == startPositive
      ensures this.position == position && goPositive && delayToMove == 0.0
      ensures startPosition == Zero && previousPosition == Some(Zero) && velocity == Zero
    {
      this.speed := speed;
      this.vertical := vertical;
      this.startPositive := startPositive;
      this.position := position;
      goPositive := true;
      delayToMove := 0.0;
      startPosition := Zero;
      previousPosition := Some(Zero);
      velocity := Zero;
    }

    /** `_Ready`: remembers the placed position and takes the configured
        starting direction. */
    method Ready()
      modifies this`startPosition, this`goPositive
      ensures startPosition == position && goPositive == startPositive
    {
      startPosition := position;
      goPositive := startPositive;
    }

    /** The velocity a tick hands to the engine's slide: none while
        pausing, else `speed` along the axis in the current direction. */
    function HandedVelocity(): (v: Vec2)
      reads this
      ensures delayToMove > 0.0 ==> v == Zero
      ensures delayToMove <= 0.0 ==> v.x * v.x + v.y * v.y == speed * speed
    {
      if delayToMove > 0.0 then Zero else Scale(speed, AxisDirection(vertical, goPositive))
    }

    /** One physics tick. While pausing the delay runs down and the platform
        is handed no velocity. Otherwise it is handed `speed` along its
        axis, and turns around and pauses when it has moved less than
        sqrt(0.1) since the last tick. The engine's slide (`moveAndSlide`)
        then moves it; it keeps the velocity the slide leaves and the
        position with the off-axis coordinate pinned to the start. */
    method PhysicsProcess(delta: real, moveAndSlide: Slider)
      modifies this`delayToMove, this`velocity, this`previousPosition, this`goPositive, this`position
      ensures old(delayToMove) > 0.0 ==>
        delayToMove == old(delayToMove) - delta && previousPosition.None? && goPositive == old(goPositive)
      ensures old(delayToMove) <= 0.0 ==>
        var stuck := old(previousPosition).Some?
          && DistanceSquared(old(previousPosition).value, old(position)) < 0.1;
        goPositive == (old(goPositive) != stuck)
        && delayToMove == (if stuck then TurnDelay else old(delayToMove))
        && previousPosition == Some(old(position))
      ensures var slide := moveAndSlide(old(HandedVelocity()));
        velocity == slide.velocity && position == Pinned(vertical, startPosition, slide.position)
    {
      if delayToMove > 0.0 {
        delayToMove := delayToMove - delta;
        velocity := Zero;
        previousPosition := None;
      } else {
        velocity := Scale(speed, AxisDirection(vertical, goPositive));
        if previousPosition.Some? && DistanceSquared(previousPosition.value, position) < 0.1 {
          goPositive := !goPositive;
          delayToMove := TurnDelay;
        }
        previousPosition := Some(position);
      }
      // MoveAndSlide, done by the engine
      var slide := moveAndSlide(velocity);
      velocity := slide.velocity;
      position := slide.position;
      if vertical {
        position := Vec2(startPosition.x, position.y);
      } else {
        position := Vec2(position.x, startPosition.y);
      }
    }
  }

  /** The first moving tick after a pause never turns around, however
      little the platform moved. */
  method PauseThenMove(p: Platform, delta: real, moveAndSlide: Slider, delta2: real, moveAndSlide2: Slider)
    requires 0.0 < p.delayToMove <= delta
    modifies p
    ensures p.goPositive == old(p.goPositive)
    ensures p.velocity == moveAndSlide2(Scale(p.speed, AxisDirection(p.vertical, p.goPositive))).velocity
  {
    p.PhysicsProcess(delta, moveAndSlide);
    p.PhysicsProcess(delta2, moveAndSlide2);
  }
}
