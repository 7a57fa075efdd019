/** The rocket launcher of objects/obstacles/rocket_launcher/RocketLauncher.cs:
    it tracks the nearest visible player and fires homing rockets at them
    on an interval, sweeps around while it sees nobody, and stands still
    while the player is dead. */
module RocketLaunchers {
  import opened Wrappers
  import opened Vectors
  import opened GameObject
  import opened Rockets
  import opened GunBases

  class RocketLauncher {
    const base: GunBase
    var bulletSpeed: real
    var shootInterval: real
    var playerIsDead: bool
    var initialRotation: real
    var timeToShoot: real
    var temporalAngle: real

    constructor(base: GunBase, bulletSpeed: real, shootInterval: real)
      ensures this.base == base && this.bulletSpeed == bulletSpeed && this.shootInterval == shootInterval
      ensures !playerIsDead && initialRotation == 0.0 && timeToShoot == 0.0 && temporalAngle == 0.0
    {
      this.base := base;
      this.bulletSpeed := bulletSpeed;
      this.shootInterval := shootInterval;
      playerIsDead := false;
      initialRotation := 0.0;
      timeToShoot := 0.0;
      temporalAngle := 0.0;
    }

    /** `_Ready`: remembers the placed rotation and starts aiming from it. */
    method Ready()
      modifies this`initialRotation, base`angle
      ensures initialRotation == base.rotationDegrees && base.angle == initialRotation
    {
      initialRotation := base.rotationDegrees;
      base.angle := initialRotation;
    }

    /** One physics tick, with `players` the players' positions and
        `blocked` the raycast's answer for each; the player found is
        answered in `target`. While the player is dead nothing happens.
        With a player the launcher turns toward it, then, if the timer has
        run out, fires a rocket at it and rearms for `shootInterval`, or
        else runs the timer down by `delta`. With none it sweeps on by one
        degree and sets the timer to half a second. A failed search or shot
        is an error. */
    method PhysicsProcess(delta: real, players: seq<Vec2>, blocked: Vec2 -> bool, trig: Trig,
                          positionOf: PlayerId -> Vec2)
      returns (target: Option<PlayerId>, r: Result<Option<nat>, GunError>)
      modifies this`timeToShoot, this`temporalAngle, base`angle, base`rotationDegrees, base`bullets,
        base.Pool()
      ensures old(playerIsDead) ==>
        target == None && r == Ok(None) && timeToShoot == old(timeToShoot)
        && temporalAngle == old(temporalAngle) && base.angle == old(base.angle)
        && base.rotationDegrees == old(base.rotationDegrees) && base.bullets == old(base.bullets)
        && unchanged(old(base.Pool()))
      ensures !playerIsDead && !base.hasRayCast ==>
        r == Err(MissingRayCast) && timeToShoot == old(timeToShoot) && base.angle == old(base.angle)
        && base.rotationDegrees == old(base.rotationDegrees) && temporalAngle == old(temporalAngle)
      ensures target.Some? ==>
        IsNearest(players, blocked, base.position, target.value)
        && base.angle == old(base.angle)
             + trig.sin(Bearing(base.position, players[target.value], trig) - DegToRad(old(base.angle))) * 10.0
        && base.rotationDegrees == base.angle && temporalAngle == base.angle
      ensures !playerIsDead && base.hasRayCast && target.None? ==>
        (forall j :: 0 <= j < |players| && !blocked(players[j]) ==>
           DistanceSquared(base.position, players[j]) >= MaxDistanceSquared)
        && r == Ok(None) && timeToShoot == 0.5 && temporalAngle == old(temporalAngle) + 1.0
        && base.angle == old(base.angle) + trig.sin(DegToRad(temporalAngle) - DegToRad(old(base.angle))) * 10.0
        && base.rotationDegrees == base.angle
        && base.bullets == old(base.bullets) && unchanged(old(base.Pool()))
      ensures target.Some? && old(timeToShoot) > 0.0 ==>
        r == Ok(None) && timeToShoot == old(timeToShoot) - delta && base.bullets == old(base.bullets)
        && unchanged(old(base.Pool()))
      ensures target.Some? && old(timeToShoot) <= 0.0 && r.Ok? ==>
        r.value.Some? && timeToShoot == shootInterval
        && base.PoolShot(r.value.value) && Launched(r.value.value, target, AimBefore(r.value.value), trig, positionOf)
      ensures r.Err? ==>
        timeToShoot == old(timeToShoot) && base.bullets == old(base.bullets) && unchanged(old(base.Pool()))
    {
      target := None;
      if playerIsDead {
        return target, Ok(None);
      }
      var nearest := base.GetNearestPlayer(players, blocked);
      assert base.bullets == old(base.bullets) && unchanged(old(base.Pool()));
      if nearest.Err? {
        return target, Err(nearest.error);
      }
      target := nearest.value;
      if target.None? {
        Sweep(trig);
        return target, Ok(None);
      }
      r := Track(delta, players[target.value], target, trig, positionOf);
    }

    /** The tick with nobody in sight: the sweep angle moves on by one
        degree, the launcher turns toward it, and the timer is set to half
        a second. */
    method Sweep(trig: Trig)
      modifies this`timeToShoot, this`temporalAngle, base`angle, base`rotationDegrees
      ensures temporalAngle == old(temporalAngle) + 1.0 && timeToShoot == 0.5
      ensures base.angle == old(base.angle) + trig.sin(DegToRad(temporalAngle) - DegToRad(old(base.angle))) * 10.0
      ensures base.rotationDegrees == base.angle
    {
      temporalAngle := temporalAngle + 1.0;
      base.LookAt(DegToRad(temporalAngle), 10.0, trig);
      timeToShoot := 0.5;
    }

    /** The tick with a player in sight at `aim`: the launcher turns toward
        it and the sweep angle follows; then, once the timer has run out, a
        rocket is fired at `target` and the timer rearmed, or else the timer
        runs down by `delta`. */
    method Track(delta: real, aim: Vec2, target: Option<PlayerId>, trig: Trig, positionOf: PlayerId -> Vec2)
      returns (r: Result<Option<nat>, GunError>)
      modifies this`timeToShoot, this`temporalAngle, base`angle, base`rotationDegrees, base`bullets,
        base.Pool()
      ensures base.angle == old(base.angle)
                + trig.sin(Bearing(base.position, aim, trig) - DegToRad(old(base.angle))) * 10.0
        && base.rotationDegrees == base.angle && temporalAngle == base.angle
      ensures old(timeToShoot) > 0.0 ==>
        r == Ok(None) && timeToShoot == old(timeToShoot) - delta && base.bullets == old(base.bullets)
        && unchanged(old(base.Pool()))
      ensures old(timeToShoot) <= 0.0 && r.Ok? ==>
        r.value.Some? && timeToShoot == shootInterval
        && base.PoolShot(r.value.value) && Launched(r.value.value, target, AimBefore(r.value.value), trig, positionOf)
      ensures r.Err? ==>
        timeToShoot == old(timeToShoot) && base.bullets == old(base.bullets) && unchanged(old(base.Pool()))
    {
      base.LookAt(Bearing(base.position, aim, trig), 10.0, trig);
      temporalAngle := base.rotationDegrees;
      assert base.bullets == old(base.bullets) && unchanged(old(base.Pool()));
      r := FireOrWait(delta, target, trig, positionOf);
    }

    /** Once the timer has run out a rocket is fired at `target` and the
        timer rearmed; otherwise the timer runs down by `delta`. */
    method FireOrWait(delta: real, target: Option<PlayerId>, trig: Trig, positionOf: PlayerId -> Vec2)
      returns (r: Result<Option<nat>, GunError>)
      modifies this`timeToShoot, base`bullets, base.Pool()
      ensures old(timeToShoot) > 0.0 ==>
        r == Ok(None) && timeToShoot == old(timeToShoot) - delta && base.bullets == old(base.bullets)
        && unchanged(old(base.Pool()))
      ensures old(timeToShoot) <= 0.0 && r.Ok? ==>
        r.value.Some? && timeToShoot == shootInterval
        && base.PoolShot(r.value.value) && Launched(r.value.value, target, AimBefore(r.value.value), trig, positionOf)
      ensures r.Err? ==>
        timeToShoot == old(timeToShoot) && base.bullets == old(base.bullets) && unchanged(old(base.Pool()))
    {
      if timeToShoot <= 0.0 {
        var shot := FireAt(target, trig, positionOf);
        if shot.Err? {
          return Err(shot.error);
        }
        timeToShoot := shootInterval;
        r := Ok(Some(shot.value));
      } else {
        timeToShoot := timeToShoot - delta;
        r := Ok(None);
      }
    }

    /** Whom projectile `i` was aimed at before the shot: a reused rocket
        keeps its earlier target, a new one has none. */
    twostate function AimBefore(i: nat): Option<PlayerId>
      reads base
    {
      if i < |old(base.bullets)| && old(base.bullets[i]).RocketShot? then old(base.bullets[i].rocket.target)
      else None
    }

    /** Projectile `i` has left the muzzle at `bulletSpeed` along the
        launcher's rotation; a rocket flies toward the player `aim` (along
        the rotation for nobody) and now has `target` as its target. */
    ghost predicate Launched(i: nat, target: Option<PlayerId>, aim: Option<PlayerId>, trig: Trig,
                             positionOf: PlayerId -> Vec2)
      reads this, base, base.Pool()
    {
      i < |base.bullets|
      && var from := Muzzle(base.position, base.rotationDegrees, trig);
         match base.bullets[i]
         case BulletShot(_) =>
           base.bullets[i].ShotFrom(from, DegToRad(base.rotationDegrees), bulletSpeed, trig, positionOf)
         case RocketShot(k) =>
           k.target == target
           && RocketFired(k, from, DegToRad(base.rotationDegrees), bulletSpeed, trig, positionOf, aim)
    }

    /** Fires a rocket from the muzzle and sets its target; answers the
        index of the projectile used. A failed shot changes nothing. */
    method FireAt(target: Option<PlayerId>, trig: Trig, positionOf: PlayerId -> Vec2)
      returns (r: Result<nat, GunError>)
      modifies base`bullets, base.Pool()
      ensures r.Ok? ==> base.PoolShot(r.value) && Launched(r.value, target, AimBefore(r.value), trig, positionOf)
      ensures r.Err? ==> base.bullets == old(base.bullets) && unchanged(old(base.Pool()))
    {
      var from := Muzzle(base.position, base.rotationDegrees, trig);
      var shot := base.Shoot(from, bulletSpeed, trig, positionOf);
      if shot.Err? {
        return Err(shot.error);
      }
      var p := base.bullets[shot.value];
      if p.RocketShot? {
        p.rocket.SetTarget(target);
      }
      r := Ok(shot.value);
    }

    /** The player died: the launcher stops. */
    method OnPlayerDeath()
      modifies this`playerIsDead
      ensures playerIsDead
    {
      playerIsDead := true;
    }

    /** Game reset: the launcher resumes from its placed rotation, half a
        second from its next shot. */
    method OnResetGame()
      modifies this`playerIsDead, this`timeToShoot, base`rotationDegrees, base`angle
      ensures !playerIsDead && timeToShoot == 0.5
      ensures base.rotationDegrees == initialRotation && base.angle == initialRotation
    {
      playerIsDead := false;
      base.rotationDegrees := initialRotation;
      base.angle := initialRotation;
      timeToShoot := 0.5;
    }

    /** The saved record: position, rotation, shot speed and interval. */
    function Serialize(): (d: Dictionary)
      reads this, base
      ensures d.Keys == {"position", "rotation", "bulletSpeed", "shootInterval"}
      ensures PositionOf(d) == Ok(base.position)
      ensures AsSingle(d["rotation"]) == base.rotationDegrees
      ensures AsSingle(d["bulletSpeed"]) == bulletSpeed && AsSingle(d["shootInterval"]) == shootInterval
    {
      map["position" := VVector2(base.position), "rotation" := VFloat(base.rotationDegrees),
          "bulletSpeed" := VFloat(bulletSpeed), "shootInterval" := VFloat(shootInterval)]
    }

    /** Restores the four saved values in order. A missing key is an error
        that leaves the values read before it in place. */
    method Deserialize(data: Dictionary) returns (r: Result<(), SerializeError>)
      modifies base`position, base`rotationDegrees, this`bulletSpeed, this`shootInterval
      ensures r.Ok? <==> "position" in data && "rotation" in data && "bulletSpeed" in data
                         && "shootInterval" in data
      ensures r.Err? ==> r.error.KeyNotFound?
      ensures base.position == (if "position" in data then AsVector2(data["position"]) else old(base.position))
      ensures base.rotationDegrees ==
        (if "position" in data && "rotation" in data then AsSingle(data["rotation"])
         else old(base.rotationDegrees))
      ensures bulletSpeed ==
        (if "position" in data && "rotation" in data && "bulletSpeed" in data
         then AsSingle(data["bulletSpeed"]) else old(bulletSpeed))
      ensures shootInterval == (if r.Ok? then AsSingle(data["shootInterval"]) else old(shootInterval))
    {
      var position := Lookup(data, "position");
      if position.Err? {
        return Err(position.error);
      }
      base.position := AsVector2(position.value);
      var rotation := Lookup(data, "rotation");
      if rotation.Err? {
        return Err(rotation.error);
      }
      base.rotationDegrees := AsSingle(rotation.value);
      var speed := Lookup(data, "bulletSpeed");
      if speed.Err? {
        return Err(speed.error);
      }
      bulletSpeed := AsSingle(speed.value);
      var interval := Lookup(data, "shootInterval");
      if interval.Err? {
        return Err(interval.error);
      }
      shootInterval := AsSingle(interval.value);
      r := Ok(());
    }
  }

  /** Restoring a launcher from its own record succeeds and changes nothing. */
  method SaveRestore(l: RocketLauncher) returns (r: Result<(), SerializeError>)
    modifies l.base`position, l.base`rotationDegrees, l`bulletSpeed, l`shootInterval
    ensures r.Ok?
    ensures l.base.position == old(l.base.position) && l.base.rotationDegrees == old(l.base.rotationDegrees)
    ensures l.bulletSpeed == old(l.bulletSpeed) && l.shootInterval == old(l.shootInterval)
  {
    var saved := l.Serialize();
    r := l.Deserialize(saved);
  }
}
