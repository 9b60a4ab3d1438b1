/** The vacuum subsystem: one optional motor driven at a scaled speed. */
module VacuumSubsystem {
  import opened Devices

  class Vacuum {
    const motor: Motor?
    const maxSpeed: real

    /** MAX_SPEED defaults to 0. */
    constructor (motor: Motor?, maxSpeed: real := 0.0)
      ensures this.motor == motor && this.maxSpeed == maxSpeed
    {
      this.motor := motor;
      this.maxSpeed := maxSpeed;
    }

    /** Returns the adjusted speed (the value the dashboard is given). */
    method Move(speed: real) returns (adjusted: real)
      modifies motor
      ensures adjusted == (if motor != null then speed * maxSpeed else 0.0)
      ensures motor != null ==> motor.output == adjusted && motor.writes == old(motor.writes) + 1
      ensures motor != null && speed == 0.0 ==> motor.output == 0.0
    {
      adjusted := 0.0;
      if motor != null {
        adjusted := speed * maxSpeed;
        motor.Set(adjusted);
      }
    }
  }
}
