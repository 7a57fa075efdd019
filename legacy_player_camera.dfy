/** The earlier player camera of objects/player/scripts/PlayerCamera.cs: the
    same zoom, look-ahead and deadzone rules as the later camera, without
    camera areas and without the reset delay. */
module LegacyPlayerCameras {
  import opened Vectors
  import RSMath
  import Globals
  import opened CameraAreas
  import opened PlayerCameras

  class PlayerCamera {
    var rawOffset: Vec2
    var virtualOffset: Vec2
    var offset: Vec2
    var rawTargetPosition: Vec2
    var rawZoom: real
    var playerDirection: int
    var playerVelocity: real
    /** `Target != null`; what the camera reads from the player comes in as
        a `TargetView` on each call. */
    var hasTarget: bool
    var globalPosition: Vec2
    var zoom: Vec2

    /** The state in the later camera's terms; this camera counts no areas. */
    function View(): CameraState
      reads this
    {
      CameraState(rawOffset, virtualOffset, offset, rawTargetPosition, rawZoom, playerDirection,
                  playerVelocity, 0, globalPosition, zoom)
    }

    constructor(zoom: Vec2)
      ensures View() == CameraState(Zero, Zero, Zero, Zero, 1.0, 0, 0.0, 0, Zero, zoom) && !hasTarget
    {
      rawOffset, virtualOffset, offset := Zero, Zero, Zero;
      rawTargetPosition := Zero;
      rawZoom := 1.0;
      playerDirection, playerVelocity := 0, 0.0;
      hasTarget := false;
      globalPosition := Zero;
      this.zoom := zoom;
    }

    /** `RestoreToTarget`, run when ready and on every game reset: the raw
        framing and the player data back to rest, and the camera onto the
        target, or left where it is without one. */
    method RestoreToTarget(t: TargetView)
      modifies this`rawOffset, this`rawTargetPosition, this`globalPosition, this`playerDirection,
        this`playerVelocity, this`rawZoom
      ensures rawOffset == Zero && playerDirection == 0 && playerVelocity == 0.0 && rawZoom == 1.0
      ensures hasTarget ==> rawTargetPosition == t.position && globalPosition == t.position
      ensures !hasTarget ==>
        rawTargetPosition == old(rawTargetPosition) && globalPosition == old(globalPosition)
    {
      rawOffset := Zero;
      if hasTarget {
        rawTargetPosition := t.position;
        globalPosition := rawTargetPosition;
      }
      playerDirection := 0;
      playerVelocity := 0.0;
      rawOffset := Zero;
      rawZoom := 1.0;
    }

    /** The raw framing of a frame with a target. */
    method FollowTarget(t: TargetView)
      modifies this`rawOffset, this`rawTargetPosition, this`rawZoom
      ensures View() == Rules(Framed(old(View()), 0), t)
    {
      rawZoom := 1.0 + 4.0 * playerVelocity / Globals.MaxSpeed;
      rawOffset := Vec2(playerDirection as real * LookAhead, rawOffset.y);
      rawTargetPosition := Vec2(rawTargetPosition.x, FollowY(rawTargetPosition.y, t.position.y, globalPosition.y));
      rawTargetPosition := Vec2(t.position.x, rawTargetPosition.y);
      if t.playerIndex != 0 {
        rawZoom := rawZoom + 1.0;
      }
    }

    /** The easing that ends every frame. */
    method ApplySmoothing(delta: real, shake: Vec2)
      modifies this`zoom, this`virtualOffset, this`offset, this`globalPosition
      ensures View() == Smooth(old(View()), 0, delta, shake)
    {
      var step := RSMath.FixedDelta(delta);
      zoom := RSMath.Lerp(zoom, TargetZoom(rawZoom), 0.01 * step);
      virtualOffset := Add(virtualOffset, Scale(step / 25.0, Sub(rawOffset, offset)));
      offset := Add(virtualOffset, shake);
      globalPosition := Approach(globalPosition, rawTargetPosition, step / 8.0);
    }

    /** One frame: the later camera's rules with no area in play. */
    method Process(delta: real, t: TargetView, shake: Vec2)
      modifies this`rawOffset, this`virtualOffset, this`offset, this`rawTargetPosition, this`rawZoom,
        this`playerDirection, this`playerVelocity, this`globalPosition, this`zoom
      ensures var framed := if hasTarget then Rules(Framed(old(View()), 0), t) else Untargeted(old(View())).state;
        View() == Smooth(framed, 0, delta, shake)
    {
      if hasTarget {
        FollowTarget(t);
      } else {
        playerDirection := 0;
        playerVelocity := 0.0;
        rawOffset := Zero;
        rawZoom := 1.0;
      }
      ApplySmoothing(delta, shake);
    }

    /** One physics tick: the player's speed and facing are sampled, or
        cleared without a target. */
    method PhysicsProcess(t: TargetView)
      modifies this`playerVelocity, this`playerDirection
      ensures playerVelocity == (if hasTarget then t.speed else 0.0)
      ensures playerDirection == (if hasTarget then Facing(old(playerDirection), t.wantedHorizontalSpeed) else 0)
    {
      if hasTarget {
        playerVelocity := t.speed;
        if AbsReal(t.wantedHorizontalSpeed) != 0.0 {
          playerDirection := Sign(t.wantedHorizontalSpeed);
        }
      } else {
        playerVelocity := 0.0;
        playerDirection := 0;
      }
    }
  }

  /** The earlier camera frames a player exactly as the later one frames a
      player inside no camera area, once the later one has counted none. */
  lemma SameAsLaterOutsideAreas(s: CameraState, t: TargetView)
    requires t.triggers == [] && s.enteredCameraAreaCount == 0
    ensures Frame(s, t) == Framed(Rules(Framed(s, 0), t), 0)
  {
    var start := Framing(0, s.rawTargetPosition, s.rawZoom, s.rawOffset);
    assert Fold(start, t.triggers) == start;
    assert Gather(s, t) == Framed(s, 0);
  }
}
