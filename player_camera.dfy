/** The player camera of scenes/objects/player/scripts/PlayerCamera.cs. Each
    frame it works out a raw framing (target position, zoom, offset) from
    the player and the camera areas the player is inside, and then eases the
    real camera toward it. After a game reset it holds still for a tick. */
module PlayerCameras {
  import opened Wrappers
  import opened Vectors
  import RSMath
  import Globals
  import opened CameraAreas

  /** How far, in pixels, the player may move vertically before the camera
      follows. */
  const VerticalDeadzone: real := 16.0

  /** The horizontal look-ahead per unit of facing direction. */
  const LookAhead: real := 48.0

  /** The raw zoom for a player moving at `speed`: 1 at rest, growing by 4
      at the maximum speed, and one more for a split-screen player. */
  function RawZoom(speed: real, playerIndex: int): (z: real)
    ensures z == 1.0 + 4.0 * speed / Globals.MaxSpeed + (if playerIndex != 0 then 1.0 else 0.0)
    ensures playerIndex == 0 && 0.0 <= speed <= Globals.MaxSpeed ==> 1.0 <= z <= 5.0
    ensures playerIndex != 0 && 0.0 <= speed ==> z >= 2.0
  {
    var z := 1.0 + 4.0 * speed / Globals.MaxSpeed;
    if playerIndex != 0 then z + 1.0 else z
  }

  /** The camera zoom a raw zoom asks for: both axes at 5 minus it. */
  function TargetZoom(rawZoom: real): (z: Vec2)
    ensures z.x == z.y == 5.0 - rawZoom
  {
    Scale(5.0 - rawZoom, One)
  }

  /** The vertical deadzone: the raw target height moves only when the
      player is more than the deadzone away from the camera, and then to
      the deadzone's edge on the player's side. */
  function FollowY(targetY: real, playerY: real, cameraY: real): (r: real)
    ensures playerY < cameraY - VerticalDeadzone ==> r == playerY + VerticalDeadzone
    ensures playerY > cameraY + VerticalDeadzone ==> r == playerY - VerticalDeadzone
    ensures cameraY - VerticalDeadzone <= playerY <= cameraY + VerticalDeadzone ==> r == targetY
  {
    if playerY < cameraY - VerticalDeadzone then playerY + VerticalDeadzone
    else if playerY > cameraY + VerticalDeadzone then playerY - VerticalDeadzone
    else targetY
  }

  /** Once the camera follows, the player sits exactly at the deadzone's
      distance from the new target, between it and the old camera. */
  lemma FollowYOnEdge(targetY: real, playerY: real, cameraY: real)
    requires AbsReal(playerY - cameraY) > VerticalDeadzone
    ensures AbsReal(playerY - FollowY(targetY, playerY, cameraY)) == VerticalDeadzone
    ensures AbsReal(FollowY(targetY, playerY, cameraY) - cameraY) < AbsReal(playerY - cameraY)
  {
  }

  /** The facing direction after a physics tick: the sign of the wanted
      speed when there is one, otherwise the last direction. */
  function Facing(direction: int, wantedHorizontalSpeed: real): (d: int)
    ensures wantedHorizontalSpeed != 0.0 ==> (d == 1 || d == -1) && (d > 0 <==> wantedHorizontalSpeed > 0.0)
    ensures wantedHorizontalSpeed == 0.0 ==> d == direction
  {
    if AbsReal(wantedHorizontalSpeed) != 0.0 then Sign(wantedHorizontalSpeed) else direction
  }

  /** `current += (target - current) * rate`, the easing the camera uses. */
  function Approach(current: Vec2, target: Vec2, rate: real): (r: Vec2)
    ensures rate == 0.0 || current == target ==> r == current
    ensures rate == 1.0 ==> r == target
    ensures Sub(target, r) == Scale(1.0 - rate, Sub(target, current))
  {
    Add(current, Scale(rate, Sub(target, current)))
  }

  /** How fast the zoom eases: faster when an area dictates it. */
  function ZoomRate(options: Options): real {
    if Has(options, OverrideZoom) then 0.1 else 0.01
  }

  /** A player as the camera sees it on one frame: its position, the camera
      areas it is inside, in order, its split-screen index, the length of
      its velocity and the horizontal speed it wants. */
  datatype TargetView = TargetView(position: Vec2, triggers: seq<Trigger>, playerIndex: int,
                                   speed: real, wantedHorizontalSpeed: real)

  /** The camera's state; `offset`, `globalPosition` and `zoom` are the
      engine's Camera2D properties. */
  datatype CameraState = CameraState(rawOffset: Vec2, virtualOffset: Vec2, offset: Vec2,
                                     rawTargetPosition: Vec2, rawZoom: real,
                                     playerDirection: int, playerVelocity: real,
                                     enteredCameraAreaCount: int, globalPosition: Vec2, zoom: Vec2)

  /** The raw framing and the options it was made with. */
  datatype Framed = Framed(state: CameraState, options: Options)

  /** The first half of a frame with a target: the areas are folded into
      options; the centring options pin the raw target to the areas' centre
      on their axes; and when the number of areas changed and the options ask
      for an instant transition, the camera jumps to the raw framing. */
  function Gather(s: CameraState, t: TargetView): (r: Framed)
    ensures var f := Fold(Framing(0, s.rawTargetPosition, s.rawZoom, s.rawOffset), t.triggers);
      r.options == f.options && r.state.rawZoom == f.zoom && r.state.rawOffset == f.offset
      && r.state.rawTargetPosition.x == (if Has(f.options, CenterPositionX) then f.target.x else s.rawTargetPosition.x)
      && r.state.rawTargetPosition.y == (if Has(f.options, CenterPositionY) then f.target.y else s.rawTargetPosition.y)
    ensures r.state.enteredCameraAreaCount == |t.triggers|
    ensures s.enteredCameraAreaCount != |t.triggers| && Has(r.options, InstantTransitionOnEnter) ==>
      r.state.globalPosition == r.state.rawTargetPosition && r.state.virtualOffset == r.state.rawOffset
      && r.state.zoom == TargetZoom(r.state.rawZoom)
    ensures !(s.enteredCameraAreaCount != |t.triggers| && Has(r.options, InstantTransitionOnEnter)) ==>
      r.state.globalPosition == s.globalPosition && r.state.virtualOffset == s.virtualOffset
      && r.state.zoom == s.zoom
    ensures r.state.(rawZoom := s.rawZoom, rawOffset := s.rawOffset, rawTargetPosition := s.rawTargetPosition,
                     enteredCameraAreaCount := s.enteredCameraAreaCount, globalPosition := s.globalPosition,
                     virtualOffset := s.virtualOffset, zoom := s.zoom) == s
  {
    var f := Fold(Framing(0, s.rawTargetPosition, s.rawZoom, s.rawOffset), t.triggers);
    var o := f.options;
    var centred := Vec2(if Has(o, CenterPositionX) then f.target.x else s.rawTargetPosition.x,
                        if Has(o, CenterPositionY) then f.target.y else s.rawTargetPosition.y);
    var instant := s.enteredCameraAreaCount != |t.triggers| && Has(o, InstantTransitionOnEnter);
    Framed(s.(rawZoom := f.zoom, rawOffset := f.offset, rawTargetPosition := centred,
              enteredCameraAreaCount := |t.triggers|,
              globalPosition := if instant then centred else s.globalPosition,
              virtualOffset := if instant then f.offset else s.virtualOffset,
              zoom := if instant then TargetZoom(f.zoom) else s.zoom),
           o)
  }

  /** The second half: the zoom comes from the player's speed unless an
      area overrides it; the offset looks ahead in the facing direction,
      and is cleared when an area overrides it; the raw target follows the
      player on every axis an area does not centre, vertically through the
      deadzone around the camera. */
  function Rules(g: Framed, t: TargetView): (r: CameraState)
    ensures var s, o := g.state, g.options;
      && r.rawZoom == (if Has(o, OverrideZoom) then s.rawZoom else RawZoom(s.playerVelocity, t.playerIndex))
      && r.rawOffset == (if Has(o, OverrideOffset) then Zero
                         else Vec2(s.playerDirection as real * LookAhead, s.rawOffset.y))
      && r.rawTargetPosition.x == (if Has(o, CenterPositionX) then s.rawTargetPosition.x else t.position.x)
      && r.rawTargetPosition.y == (if Has(o, CenterPositionY) then s.rawTargetPosition.y
                                   else FollowY(s.rawTargetPosition.y, t.position.y, s.globalPosition.y))
    ensures r.(rawZoom := g.state.rawZoom, rawOffset := g.state.rawOffset,
               rawTargetPosition := g.state.rawTargetPosition) == g.state
  {
    var s, o := g.state, g.options;
    s.(rawZoom := if Has(o, OverrideZoom) then s.rawZoom else RawZoom(s.playerVelocity, t.playerIndex),
       rawOffset := if Has(o, OverrideOffset) then Zero else Vec2(s.playerDirection as real * LookAhead, s.rawOffset.y),
       rawTargetPosition := Vec2(if Has(o, CenterPositionX) then s.rawTargetPosition.x else t.position.x,
                                 if Has(o, CenterPositionY) then s.rawTargetPosition.y
                                 else FollowY(s.rawTargetPosition.y, t.position.y, s.globalPosition.y)))
  }

  /** A whole frame with a target. */
  function Frame(s: CameraState, t: TargetView): (r: Framed)
    ensures r.options == Gather(s, t).options
  {
    var g := Gather(s, t);
    Framed(Rules(g, t), g.options)
  }

  /** What a frame with a target promises outright: axes an area does not
      centre follow the player, an overridden offset is cleared, and the
      count of areas is remembered. */
  lemma FrameFollows(s: CameraState, t: TargetView)
    ensures var r := Frame(s, t);
      && (!Has(r.options, CenterPositionX) ==> r.state.rawTargetPosition.x == t.position.x)
      && (Has(r.options, OverrideOffset) ==> r.state.rawOffset == Zero)
      && (!Has(r.options, OverrideOffset) ==> r.state.rawOffset.x == s.playerDirection as real * LookAhead)
      && (!Has(r.options, OverrideZoom) ==> r.state.rawZoom == RawZoom(s.playerVelocity, t.playerIndex))
      && r.state.enteredCameraAreaCount == |t.triggers|
      && r.state.playerDirection == s.playerDirection && r.state.playerVelocity == s.playerVelocity
  {
  }

  /** Inside the same number of areas as before no instant transition
      happens, so the camera itself does not move in the raw framing. */
  lemma FrameWithoutEntering(s: CameraState, t: TargetView)
    requires s.enteredCameraAreaCount == |t.triggers|
    ensures Frame(s, t).state.globalPosition == s.globalPosition
    ensures Frame(s, t).state.zoom == s.zoom && Frame(s, t).state.virtualOffset == s.virtualOffset
  {
  }

  /** The options of a frame: the last overriding area's together with
      all later areas', or all areas' together when none overrides. */
  lemma FrameOptions(s: CameraState, t: TargetView)
    ensures var k := LastOverride(t.triggers);
      Frame(s, t).options == if k.Some? then t.triggers[k.value].options | UnionOf(t.triggers[k.value + 1..])
                             else UnionOf(t.triggers)
  {
    FoldOptions(Framing(0, s.rawTargetPosition, s.rawZoom, s.rawOffset), t.triggers);
  }

  /** A frame without a target: the player data and the raw framing go back
      to rest, and no options apply. */
  function Untargeted(s: CameraState): (r: Framed)
    ensures r.options == 0 && r.state.playerDirection == 0 && r.state.playerVelocity == 0.0
    ensures r.state.rawOffset == Zero && r.state.rawZoom == 1.0
    ensures r.state.rawTargetPosition == s.rawTargetPosition && r.state.globalPosition == s.globalPosition
  {
    Framed(s.(playerDirection := 0, playerVelocity := 0.0, rawOffset := Zero, rawZoom := 1.0), 0)
  }

  /** The easing that ends every frame: the zoom toward the raw zoom, the
      offset toward the raw offset (plus `shake`), the position toward the
      raw target, all scaled to a 60-frames-per-second step. */
  function Smooth(s: CameraState, options: Options, delta: real, shake: Vec2): (r: CameraState)
    ensures r.zoom == RSMath.Lerp(s.zoom, TargetZoom(s.rawZoom), ZoomRate(options) * RSMath.FixedDelta(delta))
    ensures r.virtualOffset == Approach(s.virtualOffset, Add(s.virtualOffset, Sub(s.rawOffset, s.offset)),
                                        RSMath.FixedDelta(delta) / 25.0)
    ensures r.offset == Add(r.virtualOffset, shake)
    ensures r.globalPosition == Approach(s.globalPosition, s.rawTargetPosition, RSMath.FixedDelta(delta) / 8.0)
    ensures r.(zoom := s.zoom, virtualOffset := s.virtualOffset, offset := s.offset,
               globalPosition := s.globalPosition) == s
  {
    var step := RSMath.FixedDelta(delta);
    var virtualOffset := Add(s.virtualOffset, Scale(step / 25.0, Sub(s.rawOffset, s.offset)));
    s.(zoom := RSMath.Lerp(s.zoom, TargetZoom(s.rawZoom), ZoomRate(options) * step),
       virtualOffset := virtualOffset,
       offset := Add(virtualOffset, shake),
       globalPosition := Approach(s.globalPosition, s.rawTargetPosition, step / 8.0))
  }

  /** Back to the start: no offset, the camera on the initial target
      position, the player data at rest and the zoom at 1. */
  function Reset(s: CameraState, initialTargetPosition: Vec2): (r: CameraState)
    ensures r.rawOffset == Zero && r.virtualOffset == Zero && r.offset == Zero
    ensures r.rawTargetPosition == initialTargetPosition && r.globalPosition == initialTargetPosition
    ensures r.playerDirection == 0 && r.playerVelocity == 0.0 && r.rawZoom == 1.0
    ensures r.enteredCameraAreaCount == s.enteredCameraAreaCount && r.zoom == s.zoom
  {
    s.(rawOffset := Zero, virtualOffset := Zero, offset := Zero,
       rawTargetPosition := initialTargetPosition, globalPosition := initialTargetPosition,
       playerDirection := 0, playerVelocity := 0.0, rawZoom := 1.0)
  }

  lemma ResetIdempotent(s: CameraState, initialTargetPosition: Vec2)
    ensures Reset(Reset(s, initialTargetPosition), initialTargetPosition) == Reset(s, initialTargetPosition)
  {
  }

  /** Setting a null target player. */
  datatype CameraError = NullTargetPlayer

  class PlayerCamera {
    var rawOffset: Vec2
    var virtualOffset: Vec2
    var offset: Vec2
    var rawTargetPosition: Vec2
    var initialTargetPosition: Vec2
    var rawZoom: real
    var playerDirection: int
    var playerVelocity: real
    /** `TargetPlayer != null`; what the camera reads from the player comes
        in as a `TargetView` on each call. */
    var hasTarget: bool
    var delayedTicksAfterReset: int
    var enteredCameraAreaCount: int
    var globalPosition: Vec2
    var zoom: Vec2

    function View(): CameraState
      reads this
    {
      CameraState(rawOffset, virtualOffset, offset, rawTargetPosition, rawZoom, playerDirection,
                  playerVelocity, enteredCameraAreaCount, globalPosition, zoom)
    }

    /** The camera as `_Ready` leaves it: reset, without a target. */
    constructor(zoom: Vec2)
      ensures View() == Reset(CameraState(Zero, Zero, Zero, Zero, 1.0, 0, 0.0, 0, Zero, zoom), Zero)
      ensures !hasTarget && delayedTicksAfterReset == 0 && initialTargetPosition == Zero
    {
      rawOffset, virtualOffset, offset := Zero, Zero, Zero;
      rawTargetPosition, initialTargetPosition := Zero, Zero;
      rawZoom := 1.0;
      playerDirection, playerVelocity := 0, 0.0;
      hasTarget := false;
      delayedTicksAfterReset, enteredCameraAreaCount := 0, 0;
      globalPosition := Zero;
      this.zoom := zoom;
    }

    /** The `TargetPlayer` setter, given the player's position or null. A
        real player also becomes the reset position; null clears the target
        and then fails on reading its position. */
    method SetTargetPlayer(player: Option<Vec2>) returns (r: Result<(), CameraError>)
      modifies this`hasTarget, this`initialTargetPosition
      ensures hasTarget == player.Some? && (r.Err? <==> player.None?)
      ensures player.Some? ==> initialTargetPosition == player.value
      ensures player.None? ==> initialTargetPosition == old(initialTargetPosition)
    {
      hasTarget := player.Some?;
      if player.None? {
        return Err(NullTargetPlayer);
      }
      initialTargetPosition := player.value;
      r := Ok(());
    }

    method ResetToInitialPosition()
      modifies this`rawOffset, this`virtualOffset, this`offset, this`rawTargetPosition, this`globalPosition,
        this`playerDirection, this`playerVelocity, this`rawZoom
      ensures View() == Reset(old(View()), initialTargetPosition)
    {
      rawOffset := Zero;
      virtualOffset := Zero;
      offset := rawOffset;
      rawTargetPosition := initialTargetPosition;
      globalPosition := initialTargetPosition;
      playerDirection := 0;
      playerVelocity := 0.0;
      rawZoom := 1.0;
    }

    /** The game-reset handler: back to the start, holding still for one
        physics tick. */
    method OnResetGame()
      modifies this
      ensures View() == Reset(old(View()), initialTargetPosition) && delayedTicksAfterReset == 1
      ensures hasTarget == old(hasTarget) && initialTargetPosition == old(initialTargetPosition)
    {
      ResetToInitialPosition();
      delayedTicksAfterReset := 1;
    }

    /** The first half of the raw framing: folding the areas, centring, and
        the instant transition. */
    method GatherAreas(t: TargetView) returns (options: Options)
      modifies this`rawOffset, this`virtualOffset, this`rawTargetPosition, this`rawZoom,
        this`enteredCameraAreaCount, this`globalPosition, this`zoom
      ensures Framed(View(), options) == Gather(old(View()), t)
    {
      var f := FoldAreas(Framing(0, rawTargetPosition, rawZoom, rawOffset), t.triggers);
      options := f.options;
      rawZoom, rawOffset := f.zoom, f.offset;
      if Has(options, CenterPositionX) {
        rawTargetPosition := Vec2(f.target.x, rawTargetPosition.y);
      }
      if Has(options, CenterPositionY) {
        rawTargetPosition := Vec2(rawTargetPosition.x, f.target.y);
      }
      if enteredCameraAreaCount != |t.triggers| {
        enteredCameraAreaCount := |t.triggers|;
        if Has(options, InstantTransitionOnEnter) {
          globalPosition := rawTargetPosition;
          virtualOffset := rawOffset;
          zoom := TargetZoom(rawZoom);
        }
      }
    }

    /** The second half of the raw framing: zoom, offset and following. */
    method ApplyRules(options: Options, t: TargetView)
      modifies this`rawOffset, this`rawTargetPosition, this`rawZoom
      ensures View() == Rules(Framed(old(View()), options), t)
    {
      if !Has(options, OverrideZoom) {
        rawZoom := RawZoom(playerVelocity, t.playerIndex);
      }
      if !Has(options, OverrideOffset) {
        rawOffset := Vec2(playerDirection as real * LookAhead, rawOffset.y);
      } else {
        rawOffset := Zero;
      }
      if !Has(options, CenterPositionY) {
        rawTargetPosition := Vec2(rawTargetPosition.x, FollowY(rawTargetPosition.y, t.position.y, globalPosition.y));
      }
      if !Has(options, CenterPositionX) {
        rawTargetPosition := Vec2(t.position.x, rawTargetPosition.y);
      }
    }

    /** The easing part of a frame. */
    method ApplySmoothing(options: Options, delta: real, shake: Vec2)
      modifies this`zoom, this`virtualOffset, this`offset, this`globalPosition
      ensures View() == Smooth(old(View()), options, delta, shake)
    {
      var step := RSMath.FixedDelta(delta);
      zoom := RSMath.Lerp(zoom, TargetZoom(rawZoom), ZoomRate(options) * step);
      virtualOffset := Add(virtualOffset, Scale(step / 25.0, Sub(rawOffset, offset)));
      offset := Add(virtualOffset, shake);
      globalPosition := Approach(globalPosition, rawTargetPosition, step / 8.0);
    }

    /** One frame; `t` is the target player's view and `shake` the screen
        shake displacement (zero when there is none). During the reset delay
        the camera is only held at its start; otherwise the raw framing is
        worked out and eased toward. */
    method Process(delta: real, t: TargetView, shake: Vec2)
      modifies this`rawOffset, this`virtualOffset, this`offset, this`rawTargetPosition, this`rawZoom,
        this`playerDirection, this`playerVelocity, this`enteredCameraAreaCount, this`globalPosition, this`zoom
      ensures old(delayedTicksAfterReset) > 0 ==> View() == Reset(old(View()), initialTargetPosition)
      ensures old(delayedTicksAfterReset) <= 0 ==>
        var framed := if hasTarget then Frame(old(View()), t) else Untargeted(old(View()));
        View() == Smooth(framed.state, framed.options, delta, shake)
    {
      if delayedTicksAfterReset > 0 {
        ResetToInitialPosition();
        return;
      }
      var options: Options := 0;
      if hasTarget {
        options := GatherAreas(t);
        ApplyRules(options, t);
      } else {
        playerDirection := 0;
        playerVelocity := 0.0;
        rawOffset := Zero;
        rawZoom := 1.0;
      }
      ApplySmoothing(options, delta, shake);
    }

    /** One physics tick: skipped while the reset delay runs (using it up);
        otherwise the player's speed and facing are sampled, or cleared
        without a target. */
    method PhysicsProcess(t: TargetView)
      modifies this`delayedTicksAfterReset, this`playerVelocity, this`playerDirection
      ensures old(delayedTicksAfterReset) > 0 ==>
        delayedTicksAfterReset == old(delayedTicksAfterReset) - 1
        && playerVelocity == old(playerVelocity) && playerDirection == old(playerDirection)
      ensures old(delayedTicksAfterReset) <= 0 ==>
        delayedTicksAfterReset == old(delayedTicksAfterReset)
        && playerVelocity == (if hasTarget then t.speed else 0.0)
        && playerDirection == (if hasTarget then Facing(old(playerDirection), t.wantedHorizontalSpeed) else 0)
    {
      if delayedTicksAfterReset > 0 {
        delayedTicksAfterReset := delayedTicksAfterReset - 1;
        return;
      }
      if hasTarget {
        playerVelocity := t.speed;
        if AbsReal(t.wantedHorizontalSpeed) != 0.0 {
          playerDirection := Sign(t.wantedHorizontalSpeed);
        }
      } else {
        playerVelocity := 0.0;
        playerDirection := 0;
      }
    }
  }

  /** After a reset the first physics tick is skipped and frames keep the
      camera on its start; the tick after samples the player again. */
  method ResetHoldsOneTick(c: PlayerCamera, t: TargetView, delta: real, shake: Vec2)
    requires c.hasTarget
    modifies c
    ensures c.playerVelocity == t.speed
    ensures c.delayedTicksAfterReset == 0
  {
    c.OnResetGame();
    c.Process(delta, t, shake);
    assert c.globalPosition == c.initialTargetPosition;
    c.PhysicsProcess(t);
    assert c.playerVelocity == 0.0;
    c.PhysicsProcess(t);
  }

  /** Without a change in the number of areas there is no instant
      transition: the camera just eases toward the raw target from where
      it was. */
  method NoJumpInsideSameAreas(c: PlayerCamera, t: TargetView, delta: real)
    requires c.hasTarget && c.delayedTicksAfterReset <= 0
    requires c.enteredCameraAreaCount == |t.triggers|
    modifies c
    ensures c.globalPosition == Approach(old(c.globalPosition), c.rawTargetPosition, RSMath.FixedDelta(delta) / 8.0)
    ensures c.enteredCameraAreaCount == |t.triggers|
  {
    c.Process(delta, t, Zero);
  }
}
