/** A fragment of the player's death burst, from
    objects/player/PlayerDeathParticle.cs: its visibility changes a short
    moment after it is asked to, and it can be teleported once, at the next
    physics integration step. */
module DeathParticles {
  import opened Vectors

  /** How long a visibility change waits, in seconds. */
  const LateVisibleDelay: real := 0.05

  class PlayerDeathParticle {
    var resetPosition: Vec2
    var isResetting: bool
    /** The visibility waiting to be applied. */
    var isVisible: bool
    var lateVisibleTimer: real
    /** The node's current visibility. */
    var visible: bool
    /** The body transform's origin and rotation. */
    var origin: Vec2
    var rotation: real

    constructor(origin: Vec2, rotation: real, visible: bool)
      ensures this.origin == origin && this.rotation == rotation && this.visible == visible
      ensures !isResetting && !isVisible && lateVisibleTimer == 0.0 && resetPosition == Zero
    {
      this.origin := origin;
      this.rotation := rotation;
      this.visible := visible;
      resetPosition := Zero;
      isResetting := false;
      isVisible := false;
      lateVisibleTimer := 0.0;
    }

    /** The `LateVisible` getter: the visibility in effect now. */
    predicate LateVisible()
      reads this
    {
      visible
    }

    /** The `LateVisible` setter: the value waits, and the delay restarts;
        the current visibility is not touched. */
    method SetLateVisible(value: bool)
      modifies this`isVisible, this`lateVisibleTimer
      ensures isVisible == value && lateVisibleTimer == LateVisibleDelay
      ensures LateVisible() == old(LateVisible())
    {
      isVisible := value;
      lateVisibleTimer := LateVisibleDelay;
    }

    /** Arms a teleport to `position` for the next integration step. */
    method Reset(position: Vec2)
      modifies this`resetPosition, this`isResetting
      ensures resetPosition == position && isResetting
    {
      resetPosition := position;
      isResetting := true;
    }

    /** One physics tick: a running delay goes down by `delta`, and the
        waiting visibility is applied on the tick it runs out. */
    method PhysicsProcess(delta: real)
      modifies this`lateVisibleTimer, this`visible
      ensures old(lateVisibleTimer) > 0.0 ==> lateVisibleTimer == old(lateVisibleTimer) - delta
      ensures old(lateVisibleTimer) <= 0.0 ==> lateVisibleTimer == old(lateVisibleTimer)
      ensures visible == (if old(lateVisibleTimer) > 0.0 && lateVisibleTimer <= 0.0 then isVisible else old(visible))
    {
      if lateVisibleTimer > 0.0 {
        lateVisibleTimer := lateVisibleTimer - delta;
        if lateVisibleTimer <= 0.0 {
          visible := isVisible;
        }
      }
    }

    /** The integration step: an armed teleport moves the origin to the
        reset position, keeps the rotation, and disarms. */
    method IntegrateForces()
      modifies this`origin, this`isResetting
      ensures old(isResetting) ==> origin == resetPosition && !isResetting
      ensures !old(isResetting) ==> origin == old(origin) && !isResetting
    {
      if isResetting {
        origin := resetPosition;
        isResetting := false;
      }
    }
  }

  /** Setting `LateVisible` does not change what the getter reports until
      the delay has run out; a tick of the full delay then applies it. */
  method SetThenTick(p: PlayerDeathParticle, value: bool)
    modifies p
    ensures p.LateVisible() == value
  {
    var before := p.LateVisible();
    p.SetLateVisible(value);
    assert p.LateVisible() == before;
    p.PhysicsProcess(LateVisibleDelay);
  }

  /** The teleport is one-shot: once it has happened and physics has moved
      the body on (to `moved`), a second integration step leaves it there. */
  method TeleportOnce(p: PlayerDeathParticle, position: Vec2, moved: Vec2)
    modifies p
    ensures p.origin == moved && !p.isResetting && p.rotation == old(p.rotation)
  {
    p.Reset(position);
    p.IntegrateForces();
    assert p.origin == position;
    p.origin := moved;
    p.IntegrateForces();
  }
}
