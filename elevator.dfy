/**
 * The elevator subsystem is not part of this model; the commands use only
 * its encoder reading and its move_elevator output, modelled here.
 */
module ElevatorInterface {
  class Elevator {
    /** The encoder count, set by the environment. */
    var encoderValue: real
    /** The last speed requested through move_elevator, and how many requests were made. */
    var requested: real
    var moveCalls: nat

    constructor (encoderValue: real)
      ensures this.encoderValue == encoderValue && requested == 0.0 && moveCalls == 0
    {
      this.encoderValue := encoderValue;
      requested := 0.0;
      moveCalls := 0;
    }

    function GetEncoderValue(): real
      reads this
    {
      encoderValue
    }

    method MoveElevator(speed: real)
      modifies this`requested, this`moveCalls
      ensures requested == speed && moveCalls == old(moveCalls) + 1
    {
      requested := speed;
      moveCalls := moveCalls + 1;
    }
  }
}
