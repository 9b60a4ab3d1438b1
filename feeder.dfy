/**
 * The feeder subsystem: one motor and an optional cube switch (active-low).
 * Shooting (negative) is never blocked; pickup (positive) stops once a cube
 * is held. Whenever the motor exists, every call writes exactly once.
 */
module FeederSubsystem {
  import opened Devices
  import opened BoundedActuator

  /**
   * The value feed_cube writes: the guarded request, with the cube switch as
   * the only (upper) stop, scaled by the shoot scale when negative and by the
   * pickup scale otherwise.
   */
  function FeedSpeed(speed: real, shootScale: real, pickupScale: real, hasCube: bool): (r: real)
    ensures r == Guarded(speed, if speed < 0.0 then shootScale else pickupScale, hasCube, false)
    ensures speed < 0.0 ==> r == speed * shootScale
    ensures speed > 0.0 && !hasCube ==> r == speed * pickupScale
    ensures (speed > 0.0 && hasCube) || speed == 0.0 ==> r == 0.0
  {
    if speed < 0.0 then speed * shootScale
    else if speed > 0.0 && !hasCube then speed * pickupScale
    else 0.0
  }

  /** Shooting does not depend on the cube switch. */
  lemma ShootIgnoresCube(speed: real, shootScale: real, pickupScale: real)
    requires speed < 0.0
    ensures FeedSpeed(speed, shootScale, pickupScale, true) == FeedSpeed(speed, shootScale, pickupScale, false)
  {
  }

  class Feeder {
    const motor: Motor?
    const cubeSwitch: DigitalInput?
    const pickupSpeedScale: real
    const shootSpeedScale: real

    constructor (motor: Motor?, cubeSwitch: DigitalInput?, pickupSpeedScale: real, shootSpeedScale: real)
      ensures this.motor == motor && this.cubeSwitch == cubeSwitch
      ensures this.pickupSpeedScale == pickupSpeedScale && this.shootSpeedScale == shootSpeedScale
    {
      this.motor := motor;
      this.cubeSwitch := cubeSwitch;
      this.pickupSpeedScale := pickupSpeedScale;
      this.shootSpeedScale := shootSpeedScale;
    }

    /** has_cube: active-low; false without a switch. */
    function HasCube(): (r: bool)
      reads cubeSwitch
      ensures r <==> cubeSwitch != null && !cubeSwitch.level
    {
      ActiveLow(cubeSwitch)
    }

    method FeedCube(speed: real)
      modifies motor
      ensures motor != null ==>
        motor.output == FeedSpeed(speed, shootSpeedScale, pickupSpeedScale, HasCube()) &&
        motor.writes == old(motor.writes) + 1
    {
      var s := speed;
      if motor != null {
        if s < 0.0 {
          s := s * shootSpeedScale;
          motor.Set(s);
        } else if s > 0.0 && !HasCube() {
          s := s * pickupSpeedScale;
          motor.Set(s);
        } else {
          s := 0.0;
          motor.Set(s);
        }
      }
    }
  }
}
