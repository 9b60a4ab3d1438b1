/**
 * The climbing subsystem: a winch motor and an optional retraction limit
 * switch (active-high). Unwinding (negative) is never blocked; winding in
 * (positive) stops at the retracted switch.
 */
module ClimbingSubsystem {
  import opened Devices
  import opened BoundedActuator

  /** The adjusted speed move_winch writes: the guarded request, the retracted switch as upper stop. */
  function WinchSpeed(speed: real, maxSpeed: real, retracted: bool): (r: real)
    ensures r == Guarded(speed, maxSpeed, retracted, false)
    ensures speed < 0.0 ==> r == speed * maxSpeed
    ensures speed > 0.0 ==> r == (if retracted then 0.0 else speed * maxSpeed)
    ensures speed == 0.0 ==> r == 0.0
  {
    if speed < 0.0 then speed * maxSpeed
    else if speed > 0.0 && !retracted then speed * maxSpeed
    else 0.0
  }

  class Climbing {
    const motor: Motor?
    const limitSwitch: DigitalInput?
    const maxSpeed: real

    constructor (motor: Motor?, limitSwitch: DigitalInput?, maxSpeed: real := 0.0)
      ensures this.motor == motor && this.limitSwitch == limitSwitch && this.maxSpeed == maxSpeed
    {
      this.motor := motor;
      this.limitSwitch := limitSwitch;
      this.maxSpeed := maxSpeed;
    }

    /** is_retracted: active-high; false without a switch. */
    function IsRetracted(): (r: bool)
      reads limitSwitch
      ensures r <==> limitSwitch != null && limitSwitch.level
    {
      ActiveHigh(limitSwitch)
    }

    /** Returns the adjusted speed (the value the dashboard is given). */
    method MoveWinch(speed: real) returns (adjusted: real)
      modifies motor
      ensures adjusted == (if motor != null then WinchSpeed(speed, maxSpeed, IsRetracted()) else 0.0)
      ensures motor != null ==> motor.output == adjusted && motor.writes == old(motor.writes) + 1
    {
      adjusted := 0.0;
      if motor != null {
        if speed < 0.0 {
          adjusted := speed * maxSpeed;
        } else if speed > 0.0 && !IsRetracted() {
          adjusted := speed * maxSpeed;
        } else {
          adjusted := 0.0;
        }
        motor.Set(adjusted);
      }
    }
  }
}
