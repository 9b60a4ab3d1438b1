/**
 * The commands that drive the arm by speed and read its encoder call
 * `move_arm` and `get_encoder_value`, which the arm subsystem does not
 * define; those two operations are modelled here on their own.
 */
module ArmDriveInterface {
  class ArmDrive {
    var encoderValue: real
    var requested: real
    var moveCalls: nat

    constructor (encoderValue: real)
      ensures this.encoderValue == encoderValue && requested == 0.0 && moveCalls == 0
    {
      this.encoderValue := encoderValue;
      requested := 0.0;
      moveCalls := 0;
    }

    function GetEncoderValue(): real
      reads this
    {
      encoderValue
    }

    method MoveArm(speed: real)
      modifies this`requested, this`moveCalls
      ensures requested == speed && moveCalls == old(moveCalls) + 1
    {
      requested := speed;
      moveCalls := moveCalls + 1;
    }
  }
}
