/** The turret of objects/gun/Gun.cs: it turns toward the nearest player it
    can see and shoots once a second while it sees one. */
module Guns {
  import opened Wrappers
  import opened Vectors
  import opened Rockets
  import opened GunBases

  class Gun {
    const base: GunBase
    const bulletSpeed: real
    var timeToShoot: real

    constructor(base: GunBase, bulletSpeed: real)
      ensures this.base == base && this.bulletSpeed == bulletSpeed && timeToShoot == 0.0
    {
      this.base := base;
      this.bulletSpeed := bulletSpeed;
      timeToShoot := 0.0;
    }

    /** One physics tick, with `players` the players' positions and
        `blocked` the raycast's answer for each. The player found is
        answered in `target`. With a player the gun turns toward it, then
        shoots once and rearms for a second if the timer has run out, or
        else runs the timer down by `delta`; with none the timer is set to
        half a second. A failed search or shot is an error. Only a shot
        touches the pool. */
    method PhysicsProcess(delta: real, players: seq<Vec2>, blocked: Vec2 -> bool, trig: Trig,
                          positionOf: PlayerId -> Vec2)
      returns (target: Option<PlayerId>, r: Result<Option<nat>, GunError>)
      modifies this`timeToShoot, base`angle, base`rotationDegrees, base`bullets, base.Pool()
      ensures !base.hasRayCast ==>
        r == Err(MissingRayCast) && timeToShoot == old(timeToShoot)
        && base.angle == old(base.angle) && base.rotationDegrees == old(base.rotationDegrees)
      ensures target.Some? ==> IsNearest(players, blocked, base.position, target.value)
      ensures base.hasRayCast && target.None? ==>
        (forall j :: 0 <= j < |players| && !blocked(players[j]) ==>
           DistanceSquared(base.position, players[j]) >= MaxDistanceSquared)
        && r == Ok(None) && timeToShoot == 0.5
        && base.angle == old(base.angle) && base.rotationDegrees == old(base.rotationDegrees)
        && base.bullets == old(base.bullets) && unchanged(old(base.Pool()))
      ensures target.Some? ==>
        base.angle == old(base.angle)
          + trig.sin(Bearing(base.position, players[target.value], trig) - DegToRad(old(base.angle))) * 10.0
        && base.rotationDegrees == base.angle
      ensures target.Some? && old(timeToShoot) > 0.0 ==>
        r == Ok(None) && timeToShoot == old(timeToShoot) - delta
        && base.bullets == old(base.bullets) && unchanged(old(base.Pool()))
      ensures target.Some? && old(timeToShoot) <= 0.0 && r.Ok? ==>
        r.value.Some? && timeToShoot == 1.0 && base.PoolShot(r.value.value)
        && base.bullets[r.value.value].ShotFrom(Muzzle(base.position, base.rotationDegrees, trig),
                                                DegToRad(base.rotationDegrees), bulletSpeed, trig, positionOf)
      ensures r.Err? ==>
        timeToShoot == old(timeToShoot) && base.bullets == old(base.bullets) && unchanged(old(base.Pool()))
      ensures delta >= 0.0 && old(timeToShoot) <= 1.0 ==> timeToShoot <= 1.0
    {
      target := None;
      var nearest := base.GetNearestPlayer(players, blocked);
      assert base.bullets == old(base.bullets) && unchanged(old(base.Pool()));
      if nearest.Err? {
        return target, Err(nearest.error);
      }
      target := nearest.value;
      if target.None? {
        timeToShoot := 0.5;
        return target, Ok(None);
      }
      r := Track(delta, players[target.value], trig, positionOf);
    }

    /** The tick with a player in sight at `aim`: the gun turns toward it
        with factor 10, then fires or waits as FireOrWait does. */
    method Track(delta: real, aim: Vec2, trig: Trig, positionOf: PlayerId -> Vec2)
      returns (r: Result<Option<nat>, GunError>)
      modifies this`timeToShoot, base`angle, base`rotationDegrees, base`bullets, base.Pool()
      ensures base.angle == old(base.angle) + trig.sin(Bearing(base.position, aim, trig) - DegToRad(old(base.angle))) * 10.0
        && base.rotationDegrees == base.angle
      ensures old(timeToShoot) > 0.0 ==>
        r == Ok(None) && timeToShoot == old(timeToShoot) - delta
        && base.bullets == old(base.bullets) && unchanged(old(base.Pool()))
      ensures old(timeToShoot) <= 0.0 && r.Ok? ==>
        r.value.Some? && timeToShoot == 1.0 && base.PoolShot(r.value.value)
        && base.bullets[r.value.value].ShotFrom(Muzzle(base.position, base.rotationDegrees, trig),
                                                DegToRad(base.rotationDegrees), bulletSpeed, trig, positionOf)
      ensures r.Err? ==>
        timeToShoot == old(timeToShoot) && base.bullets == old(base.bullets) && unchanged(old(base.Pool()))
    {
      base.LookAt(Bearing(base.position, aim, trig), 10.0, trig);
      assert base.bullets == old(base.bullets) && unchanged(old(base.Pool()));
      r := FireOrWait(delta, trig, positionOf);
    }

    /** Once the timer has run out the gun shoots from one and a half cells
        ahead along its rotation and rearms for a second; otherwise the
        timer runs down by `delta`. A failed shot changes nothing. */
    method FireOrWait(delta: real, trig: Trig, positionOf: PlayerId -> Vec2)
      returns (r: Result<Option<nat>, GunError>)
      modifies this`timeToShoot, base`bullets, base.Pool()
      ensures old(timeToShoot) > 0.0 ==>
        r == Ok(None) && timeToShoot == old(timeToShoot) - delta
        && base.bullets == old(base.bullets) && unchanged(old(base.Pool()))
      ensures old(timeToShoot) <= 0.0 && r.Ok? ==>
        r.value.Some? && timeToShoot == 1.0 && base.PoolShot(r.value.value)
        && base.bullets[r.value.value].ShotFrom(Muzzle(base.position, base.rotationDegrees, trig),
                                                DegToRad(base.rotationDegrees), bulletSpeed, trig, positionOf)
      ensures r.Err? ==>
        timeToShoot == old(timeToShoot) && base.bullets == old(base.bullets) && unchanged(old(base.Pool()))
    {
      if timeToShoot <= 0.0 {
        var from := Muzzle(base.position, base.rotationDegrees, trig);
        var shot := base.Shoot(from, bulletSpeed, trig, positionOf);
        if shot.Err? {
          return Err(shot.error);
        }
        timeToShoot := 1.0;
        r := Ok(Some(shot.value));
      } else {
        timeToShoot := timeToShoot - delta;
        r := Ok(None);
      }
    }
  }
}
