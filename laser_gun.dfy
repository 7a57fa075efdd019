/** The laser gun of scenes/objects/obstacles/laser_gun/LaserGun.cs. It
    reloads, waits armed until its player ray sees someone, charges for 0.4
    seconds, then fires a beam that thins out by 15% a tick. */
module LaserGuns {
  import opened Wrappers
  import opened GameObject
  import opened Bullets

  /** How long the gun charges after seeing a player, in seconds. */
  const ChargeTime: real := 0.4

  /** The thickness of a freshly fired beam. */
  const BeamThickness: real := 1.5

  /** Below this thickness the beam is hidden and harmless. */
  const BeamCutoff: real := 0.05

  /** The animation frame period, in seconds. */
  const FramePeriod: real := 0.032

  /** The exceptions the animation throws on a misconfigured sprite list. */
  datatype SpriteError = IndexOutOfRange | DivideByZero

  /** Mathf.Clamp. */
  function Clamp(value: real, min: real, max: real): (r: real)
    requires min <= max
    ensures min <= r <= max
    ensures min <= value <= max ==> r == value
  {
    if value < min then min else if value > max then max else value
  }

  /** Mathf.Lerp. */
  function Lerp(from: real, to: real, weight: real): (r: real)
    ensures weight == 0.0 ==> r == from
    ensures weight == 1.0 ==> r == to
  {
    from + (to - from) * weight
  }

  /** The reload sprite shown for a progress: `(int)(clamp(p, 0, 0.99) * n) % n`.
      The clamp keeps the product below `n`, so the modulo never wraps. */
  function RendererSpriteIndex(progress: real, count: nat): (i: int)
    requires count > 0
    ensures 0 <= i < count
    ensures i == (Clamp(progress, 0.0, 0.99) * count as real).Floor
  {
    var clamped := Clamp(progress, 0.0, 0.99);
    ScaledBelowCount(clamped, count);
    var k := (clamped * count as real).Floor;
    assert 0 <= k < count;
    assert k % count == k;
    k % count
  }

  lemma ScaledBelowCount(c: real, count: nat)
    requires 0.0 <= c <= 0.99 && count > 0
    ensures 0.0 <= c * count as real < count as real
  {
    var n := count as real;
    assert c * n <= 0.99 * n by {
      assert (0.99 - c) * n >= 0.0;
    }
  }

  /** The reload sprites run from the first to the last as the progress goes
      from empty to full. */
  lemma RendererSpriteEnds(count: nat)
    requires count > 0
    ensures RendererSpriteIndex(0.0, count) == 0
    ensures RendererSpriteIndex(1.0, count) == (0.99 * count as real).Floor
  {
  }

  /** The beam's hitbox kills the players it touches. */
  function HitboxKills(body: BodyKind): (died: bool)
    ensures died <==> body == PlayerBody
  {
    body == PlayerBody
  }

  class LaserGun {
    const reloadTime: real
    const rendererSpriteCount: nat
    const laserSpriteCount: nat
    const dotsSpriteCount: nat

    var reloadProgress: real
    var playerFoundTicks: real
    var shootLaser: bool
    var displayOutline: bool
    var dotsSpritesIndex: int
    var laserSpritesIndex: int
    var animationsDeltaTime: real
    var laserDistance: real

    /** The beam sprite's scale, as length and thickness. */
    var beamLength: real
    var beamThickness: real
    var beamVisible: bool
    var hitboxMonitorable: bool

    /** The other sprites' visibility, the line's opacity, the drawn sizes
        and the textures shown, by index into their sprite lists. */
    var laserLineVisible: bool
    var rendererOutlineVisible: bool
    var laserDotsVisible: bool
    var laserLineAlpha: real
    var laserDotsLength: real
    var laserLineLength: real
    var laserBodyTexture: int
    var laserDotsTexture: int
    var rendererTexture: int

    constructor(reloadTime: real, rendererSpriteCount: nat, laserSpriteCount: nat, dotsSpriteCount: nat)
      requires reloadTime > 0.0
      ensures this.reloadTime == reloadTime && this.rendererSpriteCount == rendererSpriteCount
      ensures this.laserSpriteCount == laserSpriteCount && this.dotsSpriteCount == dotsSpriteCount
      ensures reloadProgress == 1.0 && playerFoundTicks == 0.0 && !shootLaser
      ensures dotsSpritesIndex == 0 && laserSpritesIndex == 0 && laserDistance == 1600.0
      ensures !displayOutline && animationsDeltaTime == 0.0
      ensures beamLength == 1.0 && beamThickness == 1.0 && beamVisible && hitboxMonitorable
      ensures laserLineVisible && rendererOutlineVisible && laserDotsVisible && laserLineAlpha == 1.0
      ensures laserDotsLength == 0.0 && laserLineLength == 1.0
      ensures laserBodyTexture == 0 && laserDotsTexture == 0 && rendererTexture == 0
      ensures Valid()
    {
      this.reloadTime := reloadTime;
      this.rendererSpriteCount := rendererSpriteCount;
      this.laserSpriteCount := laserSpriteCount;
      this.dotsSpriteCount := dotsSpriteCount;
      reloadProgress := 1.0;
      playerFoundTicks := 0.0;
      shootLaser := false;
      displayOutline := false;
      dotsSpritesIndex := 0;
      laserSpritesIndex := 0;
      animationsDeltaTime := 0.0;
      laserDistance := 1600.0;
      beamLength, beamThickness := 1.0, 1.0;
      beamVisible, hitboxMonitorable := true, true;
      laserLineVisible, rendererOutlineVisible, laserDotsVisible := true, true, true;
      laserLineAlpha := 1.0;
      laserDotsLength, laserLineLength := 0.0, 1.0;
      laserBodyTexture, laserDotsTexture, rendererTexture := 0, 0, 0;
    }

    /** The gun's invariant: a positive reload time, a laser sprite index
        that is always 0, a dots index inside the dots list (or 0), and a
        charge only ever started from a full reload. */
    ghost predicate Valid()
      reads this
    {
      reloadTime > 0.0
      && laserSpritesIndex == 0
      && 0 <= dotsSpritesIndex && (dotsSpritesIndex == 0 || dotsSpritesIndex < dotsSpriteCount)
      && (shootLaser ==> reloadProgress >= 1.0)
    }

    /** One physics tick. `rayHit` is the distance to where the laser ray
        collides, if it does; `playerSeen` is whether the player ray, cast
        along the laser, hits a player. The gun reloads, then, armed, starts
        charging (`detected`) when it sees a player, then fires (`fired`)
        when the charge runs out. A visible beam thins by 15% and keeps its
        hitbox live; a thin one is hidden and harmless. */
    method PhysicsProcess(delta: real, rayHit: Option<real>, playerSeen: bool)
      returns (detected: bool, fired: bool)
      requires Valid()
      modifies this`laserDistance, this`reloadProgress, this`playerFoundTicks, this`shootLaser,
        this`beamLength, this`beamThickness, this`beamVisible, this`hitboxMonitorable
      ensures Valid()
      ensures laserDistance == (if rayHit.Some? then rayHit.value else old(laserDistance))
      ensures old(reloadProgress) < 1.0 ==>
        reloadProgress == old(reloadProgress) + delta / reloadTime
        && playerFoundTicks == old(playerFoundTicks) && shootLaser == old(shootLaser)
        && !detected && !fired
      ensures old(reloadProgress) >= 1.0 && !old(shootLaser) ==>
        reloadProgress == old(reloadProgress) && !fired
        && (detected <==> playerSeen)
        && (playerSeen ==> shootLaser && playerFoundTicks == ChargeTime)
        && (!playerSeen ==> !shootLaser && playerFoundTicks == old(playerFoundTicks))
      ensures old(reloadProgress) >= 1.0 && old(shootLaser) ==>
        !detected
        && (fired <==> old(playerFoundTicks) - delta <= 0.0)
        && playerFoundTicks == old(playerFoundTicks) - delta
        && (fired ==> !shootLaser && reloadProgress == 0.0)
        && (!fired ==> shootLaser && reloadProgress == old(reloadProgress))
      ensures var thickness := if fired then BeamThickness else old(beamThickness);
        (thickness > BeamCutoff ==>
           beamThickness == 0.85 * thickness && beamLength == laserDistance
           && beamVisible && hitboxMonitorable)
        && (thickness <= BeamCutoff ==>
              beamThickness == thickness && !beamVisible && !hitboxMonitorable
              && beamLength == (if fired then laserDistance else old(beamLength)))
    {
      detected, fired := false, false;
      if rayHit.Some? {
        laserDistance := rayHit.value;
      }
      if reloadProgress < 1.0 {
        reloadProgress := reloadProgress + delta / reloadTime;
      } else if !shootLaser {
        if playerSeen {
          playerFoundTicks := ChargeTime;
          shootLaser := true;
          detected := true;
        }
      } else {
        playerFoundTicks := playerFoundTicks - delta;
        if playerFoundTicks <= 0.0 {
          shootLaser := false;
          reloadProgress := 0.0;
          beamLength, beamThickness := laserDistance, BeamThickness;
          fired := true;
        }
      }
      if beamThickness > BeamCutoff {
        var newY := Lerp(beamThickness, 0.0, 0.15);
        beamVisible := true;
        hitboxMonitorable := true;
        beamLength, beamThickness := laserDistance, newY;
      } else {
        hitboxMonitorable := false;
        beamVisible := false;
      }
    }

    /** The reloading animation: the line is shown faintly, and on a frame
        the laser sprite index steps and wraps at 1, so it stays 0. */
    method AnimateReloading(executeFrame: bool) returns (r: Result<(), SpriteError>)
      requires laserSpritesIndex == 0
      modifies this`laserLineVisible, this`rendererOutlineVisible, this`laserLineAlpha,
        this`laserSpritesIndex, this`laserBodyTexture
      ensures laserLineVisible && !rendererOutlineVisible && laserLineAlpha == 0.5
      ensures laserSpritesIndex == 0
      ensures r.Err? <==> executeFrame && laserSpriteCount == 0
      ensures r.Err? ==> r.error == IndexOutOfRange
      ensures laserBodyTexture == (if executeFrame && r.Ok? then 0 else old(laserBodyTexture))
    {
      laserLineVisible := true;
      rendererOutlineVisible := false;
      laserLineAlpha := 0.5;
      r := Ok(());
      if executeFrame {
        laserSpritesIndex := laserSpritesIndex + 1;
        if laserSpritesIndex == 1 {
          laserSpritesIndex := 0;
        }
        if laserSpritesIndex >= laserSpriteCount {
          return Err(IndexOutOfRange);
        }
        laserBodyTexture := laserSpritesIndex;
      }
    }

    /** The armed animation: on a frame the dots index steps and wraps at the
        end of the dots list; the dots are shown and the line hidden. */
    method AnimateArmed(executeFrame: bool) returns (r: Result<(), SpriteError>)
      requires 0 <= dotsSpritesIndex
      modifies this`dotsSpritesIndex, this`laserDotsTexture, this`laserDotsVisible,
        this`rendererOutlineVisible, this`laserLineVisible
      ensures dotsSpritesIndex ==
        (if !executeFrame then old(dotsSpritesIndex)
         else if old(dotsSpritesIndex) + 1 >= dotsSpriteCount then 0
         else old(dotsSpritesIndex) + 1)
      ensures r.Err? <==> executeFrame && dotsSpriteCount == 0
      ensures r.Err? ==> r.error == IndexOutOfRange
      ensures executeFrame && r.Ok? ==> laserDotsTexture == dotsSpritesIndex < dotsSpriteCount
      ensures !executeFrame ==> laserDotsTexture == old(laserDotsTexture)
      ensures r.Ok? ==> laserDotsVisible && !rendererOutlineVisible && !laserLineVisible
      ensures r.Err? ==>
        laserDotsTexture == old(laserDotsTexture) && laserDotsVisible == old(laserDotsVisible)
        && rendererOutlineVisible == old(rendererOutlineVisible) && laserLineVisible == old(laserLineVisible)
    {
      r := Ok(());
      if executeFrame {
        dotsSpritesIndex := dotsSpritesIndex + 1;
        if dotsSpritesIndex >= dotsSpriteCount {
          dotsSpritesIndex := 0;
        }
        if dotsSpritesIndex >= dotsSpriteCount {
          return Err(IndexOutOfRange);
        }
        laserDotsTexture := dotsSpritesIndex;
      }
      laserDotsVisible := true;
      rendererOutlineVisible := false;
      laserLineVisible := false;
    }

    /** The charging animation: the dots are hidden (restarting the blink the
        first time), and on a frame the outline and the line blink together. */
    method AnimateCharging(executeFrame: bool)
      modifies this`laserDotsVisible, this`animationsDeltaTime, this`displayOutline, this`laserLineAlpha,
        this`laserLineVisible, this`rendererOutlineVisible
      ensures !laserDotsVisible
      ensures displayOutline == ((if old(laserDotsVisible) then false else old(displayOutline)) != executeFrame)
      ensures executeFrame ==> laserLineVisible == displayOutline && rendererOutlineVisible == displayOutline
      ensures !executeFrame ==>
        laserLineVisible == old(laserLineVisible) && rendererOutlineVisible == old(rendererOutlineVisible)
      ensures animationsDeltaTime == (if old(laserDotsVisible) then 0.0 else old(animationsDeltaTime))
      ensures laserLineAlpha == (if old(laserDotsVisible) then 1.0 else old(laserLineAlpha))
    {
      if laserDotsVisible {
        laserDotsVisible := false;
        animationsDeltaTime := 0.0;
        displayOutline := false;
        laserLineAlpha := 1.0;
      }
      if executeFrame {
        displayOutline := !displayOutline;
        laserLineVisible := displayOutline;
        rendererOutlineVisible := displayOutline;
      }
    }

    /** One animation frame. A frame of the sprite animations runs once more
        than 0.032 seconds have gathered. While reloading the line is shown
        faintly; while armed the dots run through their sprites; while
        charging the outline and line blink. The beam's drawn length follows
        the laser distance and the reload sprite follows the progress. An
        empty sprite list throws. */
    method Process(delta: real) returns (r: Result<(), SpriteError>)
      requires Valid()
      modifies this`animationsDeltaTime, this`laserSpritesIndex, this`dotsSpritesIndex,
        this`displayOutline, this`laserLineVisible, this`rendererOutlineVisible, this`laserDotsVisible,
        this`laserLineAlpha, this`laserDotsLength, this`laserLineLength, this`laserBodyTexture,
        this`laserDotsTexture, this`rendererTexture
      ensures Valid()
      ensures var frame := old(animationsDeltaTime) + delta > FramePeriod;
        (reloadProgress < 1.0 ==>
           laserLineVisible && !rendererOutlineVisible && laserLineAlpha == 0.5
           && dotsSpritesIndex == old(dotsSpritesIndex)
           && (frame && laserSpriteCount == 0 ==> r == Err(IndexOutOfRange)))
        && (reloadProgress >= 1.0 && !shootLaser ==>
              dotsSpritesIndex == (if !frame then old(dotsSpritesIndex)
                                   else if old(dotsSpritesIndex) + 1 >= dotsSpriteCount then 0
                                   else old(dotsSpritesIndex) + 1)
              && (frame && dotsSpriteCount == 0 ==> r == Err(IndexOutOfRange))
              && (frame && r != Err(IndexOutOfRange) ==> laserDotsTexture == dotsSpritesIndex < dotsSpriteCount))
        && (shootLaser ==> dotsSpritesIndex == old(dotsSpritesIndex) && !laserDotsVisible)
      ensures r.Ok? ==>
        rendererSpriteCount > 0 && rendererTexture == RendererSpriteIndex(reloadProgress, rendererSpriteCount)
        && laserDotsLength == laserDistance && laserLineLength == laserDistance
      ensures r == Err(DivideByZero) ==> rendererSpriteCount == 0
      // the drawn lengths and the reload sprite on the error paths
      ensures r != Err(IndexOutOfRange) ==> laserDotsLength == laserDistance && laserLineLength == laserDistance
      ensures r == Err(IndexOutOfRange) ==>
        laserDotsLength == old(laserDotsLength) && laserLineLength == old(laserLineLength)
      ensures r.Err? ==> rendererTexture == old(rendererTexture)
      // what each animation leaves alone
      ensures var frame := old(animationsDeltaTime) + delta > FramePeriod;
        !(reloadProgress >= 1.0 && !shootLaser && frame && r != Err(IndexOutOfRange)) ==>
          laserDotsTexture == old(laserDotsTexture)
      ensures reloadProgress < 1.0 ==> laserDotsVisible == old(laserDotsVisible)
      ensures reloadProgress >= 1.0 && !shootLaser ==> laserLineAlpha == old(laserLineAlpha)
      ensures reloadProgress >= 1.0 && !shootLaser && r == Err(IndexOutOfRange) ==>
        laserDotsVisible == old(laserDotsVisible) && rendererOutlineVisible == old(rendererOutlineVisible)
        && laserLineVisible == old(laserLineVisible)
      // the frame accumulator, the reload sprite and the charging blink
      ensures var frame := old(animationsDeltaTime) + delta > FramePeriod;
        var charging := reloadProgress >= 1.0 && shootLaser;
        animationsDeltaTime ==
          (if r == Err(IndexOutOfRange) then old(animationsDeltaTime) + delta
           else if frame || (charging && old(laserDotsVisible)) then 0.0
           else old(animationsDeltaTime) + delta)
      ensures laserSpritesIndex == 0
      ensures var frame := old(animationsDeltaTime) + delta > FramePeriod;
        laserBodyTexture ==
          (if reloadProgress < 1.0 && frame && r != Err(IndexOutOfRange) then 0 else old(laserBodyTexture))
      ensures var frame := old(animationsDeltaTime) + delta > FramePeriod;
        reloadProgress >= 1.0 && shootLaser ==>
          !laserDotsVisible
          && displayOutline == ((if old(laserDotsVisible) then false else old(displayOutline)) != frame)
          && (frame ==> laserLineVisible == displayOutline && rendererOutlineVisible == displayOutline)
          && (!frame ==> laserLineVisible == old(laserLineVisible)
                         && rendererOutlineVisible == old(rendererOutlineVisible))
          && laserLineAlpha == (if old(laserDotsVisible) then 1.0 else old(laserLineAlpha))
      ensures !(reloadProgress >= 1.0 && shootLaser) ==> displayOutline == old(displayOutline)
      ensures reloadProgress >= 1.0 && !shootLaser && r != Err(IndexOutOfRange) ==>
        laserDotsVisible && !rendererOutlineVisible && !laserLineVisible
    {
      animationsDeltaTime := animationsDeltaTime + delta;
      var executeFrame := animationsDeltaTime > FramePeriod;
      if reloadProgress < 1.0 {
        r := AnimateReloading(executeFrame);
      } else if !shootLaser {
        r := AnimateArmed(executeFrame);
      } else {
        AnimateCharging(executeFrame);
        r := Ok(());
      }
      if r.Err? {
        return;
      }
      r := EndFrame(executeFrame);
    }

    /** The end of a frame that drew its animation: the accumulator restarts
        after a frame, the beam's drawn length follows the laser distance,
        and the reload sprite follows the progress. An empty sprite list is a
        division by zero. */
    method EndFrame(executeFrame: bool) returns (r: Result<(), SpriteError>)
      modifies this`animationsDeltaTime, this`laserDotsLength, this`laserLineLength, this`rendererTexture
      ensures animationsDeltaTime == (if executeFrame then 0.0 else old(animationsDeltaTime))
      ensures laserDotsLength == laserDistance && laserLineLength == laserDistance
      ensures r.Err? <==> rendererSpriteCount == 0
      ensures r.Err? ==> r.error == DivideByZero && rendererTexture == old(rendererTexture)
      ensures r.Ok? ==> rendererTexture == RendererSpriteIndex(reloadProgress, rendererSpriteCount)
    {
      if executeFrame {
        animationsDeltaTime := 0.0;
      }
      laserDotsLength := laserDistance;
      laserLineLength := laserDistance;
      if rendererSpriteCount == 0 {
        return Err(DivideByZero);
      }
      rendererTexture := RendererSpriteIndex(reloadProgress, rendererSpriteCount);
      r := Ok(());
    }

    /** The laser gun cannot be saved. */
    function Serialize(): (r: Result<Dictionary, SerializeError>)
      ensures r.Err? && r.error.NotImplemented?
    {
      Err(NotImplemented)
    }

    /** The laser gun cannot be restored, and the attempt changes nothing. */
    method Deserialize(data: Dictionary) returns (r: Result<(), SerializeError>)
      ensures r.Err? && r.error.NotImplemented?
    {
      r := Err(NotImplemented);
    }
  }

  /** Once fired, the gun reloads before it can charge again: the tick after
      a shot only reloads. */
  method FireThenTick(g: LaserGun, delta: real, rayHit: Option<real>, playerSeen: bool, delta2: real,
                      rayHit2: Option<real>, playerSeen2: bool) returns (detected: bool, fired: bool)
    requires g.Valid() && g.shootLaser && g.playerFoundTicks <= delta
    modifies g
    ensures !detected && !fired && !g.shootLaser
    ensures g.reloadProgress == delta2 / g.reloadTime
  {
    var d, f := g.PhysicsProcess(delta, rayHit, playerSeen);
    assert f;
    detected, fired := g.PhysicsProcess(delta2, rayHit2, playerSeen2);
  }
}
