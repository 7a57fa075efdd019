/** The shared base of the guns, scripts/gameobjects/bases/GunBase.cs: a pool
    of projectiles reused in list order, the nearest-reachable-player
    search, and the aiming step. */
module GunBases {
  import opened Wrappers
  import opened Vectors
  import opened Bullets
  import opened Rockets

  /** A pooled projectile: one of the two kinds that can be shot. */
  datatype Projectile = BulletShot(bullet: Bullet) | RocketShot(rocket: Rocket)
  {
    function Obj(): object {
      match this
      case BulletShot(b) => b
      case RocketShot(r) => r
    }

    predicate IsActive()
      reads Obj()
    {
      match this
      case BulletShot(b) => b.isActive
      case RocketShot(r) => r.isActive
    }

    /** The projectile has just been fired from `from` along `direction`
        at `speed`. A rocket with a target aims at that player instead. */
    ghost predicate ShotFrom(from: Vec2, direction: real, speed: real, trig: Trig,
                             positionOf: PlayerId -> Vec2)
      reads Obj()
    {
      match this
      case BulletShot(b) =>
        b.isActive && b.position == from && b.rotation == direction
          && b.velocity == Scale(speed, trig.unit(direction))
      case RocketShot(r) => RocketFired(r, from, direction, speed, trig, positionOf, r.target)
    }
  }

  /** The rocket has just been fired from `from` at `speed`: along
      `direction` when it was aimed at nobody (`aim`), else toward the
      player it was aimed at. */
  ghost predicate RocketFired(r: Rocket, from: Vec2, direction: real, speed: real, trig: Trig,
                              positionOf: PlayerId -> Vec2, aim: Option<PlayerId>)
    reads r
  {
    r.isActive && r.position == from && r.speed == speed
    && (aim.None? ==> r.direction == direction)
    && (aim.Some? ==> r.direction == trig.angleOf(Sub(positionOf(aim.value), from)))
    && r.velocity == Scale(speed, trig.unit(r.direction))
  }

  /** What the gun's `bulletScene` instantiates. */
  datatype Prefab = BulletPrefab | RocketPrefab(factor: real) | OtherPrefab

  /** The exceptions the base throws. */
  datatype GunError = NullBulletScene | NotAProjectile | MissingRayCast

  /** `float.MaxValue`, the starting bound of the nearest-player search. */
  const FloatMaxValue: real := 340282346638528859811704183484516925440.0

  /** The squared form of the search's starting bound: distances are compared
      squared, which orders them the same way. */
  const MaxDistanceSquared: real := FloatMaxValue * FloatMaxValue

  /** The bearing (radians) from one point to another, as
      `from.DirectionTo(to).Angle()`; normalising does not change the angle. */
  function Bearing(from: Vec2, to: Vec2, trig: Trig): real {
    trig.angleOf(Sub(to, from))
  }

  /** Where a gun's shot starts: one and a half grid cells ahead of the gun
      along its rotation. */
  function Muzzle(position: Vec2, rotationDegrees: real, trig: Trig): Vec2 {
    Add(position, Scale(16.0 * 1.5, trig.unit(DegToRad(rotationDegrees))))
  }

  /** Player `i` is reachable, within the starting bound, no farther than any
      other reachable player, and strictly nearer than every reachable player
      before it. */
  predicate IsNearest(players: seq<Vec2>, blocked: Vec2 -> bool, origin: Vec2, i: nat) {
    i < |players| && !blocked(players[i])
    && DistanceSquared(origin, players[i]) < MaxDistanceSquared
    && (forall j :: 0 <= j < |players| && !blocked(players[j]) ==>
          DistanceSquared(origin, players[i]) <= DistanceSquared(origin, players[j]))
    && (forall j :: 0 <= j < i && !blocked(players[j]) ==>
          DistanceSquared(origin, players[i]) < DistanceSquared(origin, players[j]))
  }

  /** Fires a pooled or new projectile. */
  method ShootProjectile(p: Projectile, from: Vec2, direction: real, speed: real, trig: Trig,
                         positionOf: PlayerId -> Vec2)
    modifies p.Obj()
    ensures p.ShotFrom(from, direction, speed, trig, positionOf)
    ensures p.RocketShot? ==> p.rocket.target == old(p.rocket.target)
  {
    match p
    case BulletShot(b) =>
      b.ShootAt(from, direction, speed, trig);
    case RocketShot(r) =>
      var targetPosition := if r.target.Some? then positionOf(r.target.value) else Zero;
      r.ShootAt(from, direction, speed, targetPosition, trig);
  }

  class GunBase {
    const bulletScene: Option<Prefab>
    /** Whether the gun has its line-of-sight raycast. */
    const hasRayCast: bool
    var bullets: seq<Projectile>
    var angle: real
    var position: Vec2
    var rotationDegrees: real

    constructor(bulletScene: Option<Prefab>, hasRayCast: bool, position: Vec2, rotationDegrees: real)
      ensures this.bulletScene == bulletScene && this.hasRayCast == hasRayCast
      ensures this.position == position && this.rotationDegrees == rotationDegrees
      ensures bullets == [] && angle == 0.0
    {
      this.bulletScene := bulletScene;
      this.hasRayCast := hasRayCast;
      this.position := position;
      this.rotationDegrees := rotationDegrees;
      bullets := [];
      angle := 0.0;
    }

    /** The pooled projectiles, as objects. */
    ghost function Pool(): set<object>
      reads this
    {
      set i | 0 <= i < |bullets| :: bullets[i].Obj()
    }

    /** Every pooled projectile is in flight. */
    predicate AllActive()
      reads this, Pool()
    {
      forall j :: 0 <= j < |bullets| ==> bullets[j].IsActive()
    }

    /** Projectile `i` is the one the pool used for a shot: the first one
        not in flight, reused, or a new one appended when all were in
        flight; no other projectile changed. */
    twostate predicate PoolShot(i: nat)
      reads this, Pool()
    {
      i <= |old(bullets)| && i < |bullets|
      && (forall j :: 0 <= j < i ==> old(bullets[j].IsActive()))
      && (i < |old(bullets)| ==> bullets == old(bullets) && !old(bullets[i].IsActive()))
      && (i == |old(bullets)| ==> bullets == old(bullets) + [bullets[i]] && fresh(bullets[i].Obj()))
      && (forall j :: 0 <= j < |old(bullets)| && bullets[j].Obj() != bullets[i].Obj() ==>
            unchanged(bullets[j].Obj()))
    }

    /** The first projectile of the pool that is not in flight, or the pool's
        length when there is none. */
    method FirstInactive() returns (i: nat)
      ensures i <= |bullets|
      ensures forall j :: 0 <= j < i ==> bullets[j].IsActive()
      ensures i < |bullets| ==> !bullets[i].IsActive()
    {
      i := 0;
      while i < |bullets|
        invariant i <= |bullets|
        invariant forall j :: 0 <= j < i ==> bullets[j].IsActive()
      {
        if !bullets[i].IsActive() {
          return;
        }
        i := i + 1;
      }
    }

    /** Shoots from `from` at `speed` along the gun's rotation, and answers
        the index of the projectile used. The first projectile not in flight
        is reused and the pool is kept; only when every pooled projectile
        is in flight is a new one instantiated and appended. A missing scene,
        or a scene that is not a projectile, is an error and changes
        nothing. */
    method Shoot(from: Vec2, speed: real, trig: Trig, positionOf: PlayerId -> Vec2)
      returns (r: Result<nat, GunError>)
      modifies this`bullets, Pool()
      ensures bulletScene.None? ==> r == Err(NullBulletScene)
      ensures r == Err(NotAProjectile) <==> bulletScene == Some(OtherPrefab) && old(AllActive())
      ensures r.Err? ==> bulletScene.None? || r == Err(NotAProjectile)
      ensures r.Err? ==> bullets == old(bullets) && unchanged(old(Pool()))
      ensures old(bullets) <= bullets
      ensures r.Ok? ==>
        r.value <= |old(bullets)| && r.value < |bullets|
        && (forall j :: 0 <= j < r.value ==> old(bullets[j].IsActive()))
        && bullets[r.value].ShotFrom(from, DegToRad(rotationDegrees), speed, trig, positionOf)
        && (forall j :: 0 <= j < |old(bullets)| && old(bullets[j]).Obj() != bullets[r.value].Obj() ==>
              unchanged(old(bullets[j]).Obj()))
      ensures r.Ok? && r.value < |old(bullets)| ==>
        bullets == old(bullets) && !old(bullets[r.value].IsActive())
        && (bullets[r.value].RocketShot? ==> bullets[r.value].rocket.target == old(bullets[r.value].rocket.target))
      ensures r.Ok? && r.value == |old(bullets)| ==>
        bullets == old(bullets) + [bullets[r.value]] && fresh(bullets[r.value].Obj())
        && (bullets[r.value].BulletShot? <==> bulletScene == Some(BulletPrefab))
        && (bullets[r.value].RocketShot? ==> bullets[r.value].rocket.target.None?)
    {
      if bulletScene.None? {
        return Err(NullBulletScene);
      }
      var i := FirstInactive();
      if i < |bullets| {
        ShootProjectile(bullets[i], from, DegToRad(rotationDegrees), speed, trig, positionOf);
        return Ok(i);
      }
      var p: Projectile;
      match bulletScene.value {
        case OtherPrefab =>
          return Err(NotAProjectile);
        case BulletPrefab =>
          var b := new Bullet(Zero);
          p := BulletShot(b);
        case RocketPrefab(factor) =>
          var rocket := new Rocket(Zero, factor);
          p := RocketShot(rocket);
      }
      bullets := bullets + [p];
      ShootProjectile(p, from, DegToRad(rotationDegrees), speed, trig, positionOf);
      r := Ok(|bullets| - 1);
    }

    /** The nearest player the gun can see: a player whose ray from the gun
        is `blocked` is skipped, and of the rest the first of least distance
        wins. Without a raycast this is an error. */
    method GetNearestPlayer(players: seq<Vec2>, blocked: Vec2 -> bool)
      returns (r: Result<Option<PlayerId>, GunError>)
      ensures r.Err? <==> !hasRayCast
      ensures r.Err? ==> r.error == MissingRayCast
      ensures r.Ok? && r.value.Some? ==> IsNearest(players, blocked, position, r.value.value)
      ensures r.Ok? && r.value.None? ==>
        forall j :: 0 <= j < |players| && !blocked(players[j]) ==>
          DistanceSquared(position, players[j]) >= MaxDistanceSquared
    {
      if !hasRayCast {
        return Err(MissingRayCast);
      }
      var nearest: Option<PlayerId> := None;
      var nearestDistance := MaxDistanceSquared;
      var k := 0;
      while k < |players|
        invariant k <= |players|
        invariant nearest.None? ==>
          nearestDistance == MaxDistanceSquared
          && forall j :: 0 <= j < k && !blocked(players[j]) ==>
               DistanceSquared(position, players[j]) >= MaxDistanceSquared
        invariant nearest.Some? ==>
          nearest.value < k && !blocked(players[nearest.value])
          && nearestDistance == DistanceSquared(position, players[nearest.value]) < MaxDistanceSquared
          && (forall j :: 0 <= j < k && !blocked(players[j]) ==>
                nearestDistance <= DistanceSquared(position, players[j]))
          && (forall j :: 0 <= j < nearest.value && !blocked(players[j]) ==>
                nearestDistance < DistanceSquared(position, players[j]))
      {
        if !blocked(players[k]) {
          var distance := DistanceSquared(position, players[k]);
          if distance < nearestDistance {
            nearest := Some(k);
            nearestDistance := distance;
          }
        }
        k := k + 1;
      }
      r := Ok(nearest);
    }

    /** Turns the gun toward `direction` (radians) by the sine of the angle
        left, scaled by `delta`, and shows the new angle. */
    method LookAt(direction: real, delta: real, trig: Trig)
      modifies this`angle, this`rotationDegrees
      ensures angle == old(angle) + trig.sin(direction - DegToRad(old(angle))) * delta
      ensures rotationDegrees == angle
    {
      angle := angle + trig.sin(direction - DegToRad(angle)) * delta;
      rotationDegrees := angle;
    }
  }

  /** The nearest-player search has at most one answer. */
  lemma NearestIsUnique(players: seq<Vec2>, blocked: Vec2 -> bool, origin: Vec2, i: nat, k: nat)
    requires IsNearest(players, blocked, origin, i) && IsNearest(players, blocked, origin, k)
    ensures i == k
  {
  }
}
