/** The gravity-switch power-up of objects/power_ups/gravity_switch/GravitySwitch.cs:
    once charged, the first dynamic body to enter it has its gravity
    inverted, and the switch then recharges over `reloadTime` seconds. */
module GravitySwitches {
  import RSMath
  import opened DynamicBodies

  class GravitySwitch {
    const reloadTime: real
    var rotationSpeed: real
    /** From 0 (just used) to 1 (charged). */
    var reloadProgress: real
    var monitoring: bool
    var monitorable: bool
    var particlesVisible: bool
    var particlesRotationDegrees: real
    var progressBarValue: real

    /** A placed switch starts charged. */
    constructor(reloadTime: real)
      requires reloadTime > 0.0
      ensures this.reloadTime == reloadTime && reloadProgress == 1.0 && rotationSpeed == 10.0
      ensures monitoring && monitorable && !particlesVisible
      ensures particlesRotationDegrees == 0.0 && progressBarValue == 0.0
      ensures Valid()
    {
      this.reloadTime := reloadTime;
      rotationSpeed := 10.0;
      reloadProgress := 1.0;
      monitoring := true;
      monitorable := true;
      particlesVisible := false;
      particlesRotationDegrees := 0.0;
      progressBarValue := 0.0;
    }

    /** The reload time is positive and the progress a fraction. */
    ghost predicate Valid()
      reads this
    {
      reloadTime > 0.0 && 0.0 <= reloadProgress <= 1.0
    }

    /** The switch is charged: bodies entering it are affected. */
    predicate Charged()
      reads this
    {
      reloadProgress >= 1.0
    }

    /** `_Ready`: takes the random spin (`spin`, a speed in 180..270 with a
        random sign). */
    method Ready(spin: real)
      modifies this`rotationSpeed
      ensures rotationSpeed == spin
    {
      rotationSpeed := spin;
    }

    /** One frame: a visible switch on screen shows spinning particles
        exactly when charged, and its progress on the bar. */
    method Process(delta: real, onScreen: bool, visible: bool)
      modifies this`particlesVisible, this`particlesRotationDegrees, this`progressBarValue
      ensures onScreen && visible ==>
        particlesVisible == Charged() && progressBarValue == reloadProgress
        && particlesRotationDegrees
           == old(particlesRotationDegrees) + (if Charged() then rotationSpeed * delta else 0.0)
      ensures !(onScreen && visible) ==>
        particlesVisible == old(particlesVisible) && progressBarValue == old(progressBarValue)
        && particlesRotationDegrees == old(particlesRotationDegrees)
    {
      if onScreen && visible {
        particlesVisible := reloadProgress >= 1.0;
        if particlesVisible {
          particlesRotationDegrees := particlesRotationDegrees + rotationSpeed * delta;
        }
        progressBarValue := reloadProgress;
      }
    }

    /** One physics tick: the progress advances by `delta / reloadTime`,
        never past 1 and never below 0, and the switch detects and can be
        detected exactly when charged. */
    method PhysicsProcess(delta: real)
      requires Valid()
      modifies this`reloadProgress, this`monitoring, this`monitorable
      ensures Valid()
      ensures reloadProgress == RSMath.Clamp01(old(reloadProgress) + delta / reloadTime)
      ensures monitoring == Charged() && monitorable == Charged()
      ensures delta >= 0.0 ==> reloadProgress >= old(reloadProgress)
    {
      reloadProgress := reloadProgress + delta / reloadTime;
      reloadProgress := RSMath.Clamp01(reloadProgress);
      var monitor := reloadProgress >= 1.0;
      monitoring := monitor;
      monitorable := monitor;
    }

    /** A body enters; `body` is its dynamic-body part, or null for a body
        that has none. A charged switch inverts a dynamic body's gravity and
        empties; anything else changes nothing. */
    method OnBodyEntered(body: DynamicBody?) returns (switched: bool)
      requires Valid()
      modifies this`reloadProgress, (if body != null then {body} else {})`invertedGravity
      ensures Valid()
      ensures switched <==> old(Charged()) && body != null
      ensures switched ==> reloadProgress == 0.0 && body.invertedGravity == !old(body.invertedGravity)
      ensures !switched ==> reloadProgress == old(reloadProgress)
      ensures !switched && body != null ==> body.invertedGravity == old(body.invertedGravity)
      ensures body != null ==> body.velocity == old(body.velocity) && body.speed == old(body.speed)
    {
      switched := false;
      if reloadProgress < 1.0 {
        return;
      }
      if body != null {
        body.SwitchGravity();
        reloadProgress := 0.0;
        switched := true;
      }
    }
  }

  /** Two bodies entering in the same tick: only the first is switched, the
      second finds the switch empty. */
  method TwoEnterTogether(g: GravitySwitch, first: DynamicBody, second: DynamicBody)
    requires g.Valid() && g.Charged() && first != second
    modifies g, first, second
    ensures first.invertedGravity == !old(first.invertedGravity)
    ensures second.invertedGravity == old(second.invertedGravity)
    ensures g.reloadProgress == 0.0
  {
    var a := g.OnBodyEntered(first);
    var b := g.OnBodyEntered(second);
  }

  /** A tick never lowers the progress, so an emptied switch recharges
      monotonically until it is used again. */
  method TwoTicks(g: GravitySwitch, d1: real, d2: real)
    requires g.Valid() && d1 >= 0.0 && d2 >= 0.0
    modifies g
    ensures g.Valid() && g.reloadProgress >= old(g.reloadProgress)
  {
    g.PhysicsProcess(d1);
    g.PhysicsProcess(d2);
  }
}
