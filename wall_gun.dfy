/** The wall gun of scenes/objects/obstacles/wall_gun/WallGun.cs: it shoots
    straight ahead on a fixed interval, after an initial delay. */
module WallGuns {
  import opened Wrappers
  import opened Vectors
  import opened GameObject
  import opened Rockets
  import opened GunBases

  function Max(a: real, b: real): (m: real)
    ensures m >= a && m >= b && (m == a || m == b)
  {
    if a >= b then a else b
  }

  class WallGun {
    const base: GunBase
    const bulletSpeed: real
    const shootInterval: real
    const delayAtStart: real
    var timeToShoot: real

    /** The gun as `_Ready` leaves it: the first shot waits `delayAtStart`. */
    constructor(base: GunBase, bulletSpeed: real, shootInterval: real, delayAtStart: real)
      ensures this.base == base && this.bulletSpeed == bulletSpeed
      ensures this.shootInterval == shootInterval && this.delayAtStart == delayAtStart
      ensures timeToShoot == delayAtStart
    {
      this.base := base;
      this.bulletSpeed := bulletSpeed;
      this.shootInterval := shootInterval;
      this.delayAtStart := delayAtStart;
      timeToShoot := delayAtStart;
    }

    /** The timer never exceeds the longer of the two waits. */
    ghost predicate TimerBounded()
      reads this
    {
      timeToShoot <= Max(shootInterval, delayAtStart)
    }

    /** One physics tick. With the timer run out the gun shoots once from
        where it stands and rearms for `shootInterval`, answering the index
        of the projectile used; otherwise the timer runs down by `delta`.
        A failed shot is an error and leaves the timer. */
    method PhysicsProcess(delta: real, trig: Trig, positionOf: PlayerId -> Vec2)
      returns (r: Result<Option<nat>, GunError>)
      modifies this`timeToShoot, base`bullets, base.Pool()
      ensures old(timeToShoot) > 0.0 ==>
        r == Ok(None) && timeToShoot == old(timeToShoot) - delta
        && base.bullets == old(base.bullets) && unchanged(old(base.Pool()))
      ensures old(timeToShoot) <= 0.0 && r.Ok? ==>
        r.value.Some? && timeToShoot == shootInterval && base.PoolShot(r.value.value)
        && base.bullets[r.value.value].ShotFrom(base.position, DegToRad(base.rotationDegrees),
                                                bulletSpeed, trig, positionOf)
      ensures old(timeToShoot) <= 0.0 && r.Err? ==>
        timeToShoot == old(timeToShoot) && base.bullets == old(base.bullets) && unchanged(old(base.Pool()))
        && (r.error == NullBulletScene || r.error == NotAProjectile)
      ensures delta >= 0.0 && old(TimerBounded()) ==> TimerBounded()
    {
      if timeToShoot <= 0.0 {
        var shot := base.Shoot(base.position, bulletSpeed, trig, positionOf);
        if shot.Err? {
          return Err(shot.error);
        }
        timeToShoot := shootInterval;
        r := Ok(Some(shot.value));
      } else {
        timeToShoot := timeToShoot - delta;
        r := Ok(None);
      }
    }

    /** Game reset: the first shot waits `delayAtStart` again. */
    method OnResetGame()
      modifies this`timeToShoot
      ensures timeToShoot == delayAtStart && TimerBounded()
    {
      timeToShoot := delayAtStart;
    }

    /** The wall gun cannot be saved. */
    function Serialize(): (r: Result<Dictionary, SerializeError>)
      ensures r.Err? && r.error.NotImplemented?
    {
      Err(NotImplemented)
    }

    /** The wall gun cannot be restored, and the attempt changes nothing. */
    method Deserialize(data: Dictionary) returns (r: Result<(), SerializeError>)
      ensures r.Err? && r.error.NotImplemented?
    {
      r := Err(NotImplemented);
    }
  }
}
