/**
 * The operator interface: two controllers, configurable axis and button
 * ids, and the normalisation of D-pad and analog axis readings.
 */
module OperatorInput {
  /** Controller ids. */
  const Driver: nat := 0
  const Scoring: nat := 1

  /** Axis ids; the defaults are the ones the configuration normally rebinds. */
  datatype AxisBindings = AxisBindings(leftX: int, leftY: int, rightX: int, rightY: int, dpadX: int, dpadY: int)

  const DefaultAxes: AxisBindings := AxisBindings(0, 1, 4, 5, 11, 12)

  datatype ButtonBindings = ButtonBindings(
    x: int, a: int, b: int, y: int, leftBumper: int, rightBumper: int,
    leftTrigger: int, rightTrigger: int, back: int, start: int)

  const DefaultButtons: ButtonBindings := ButtonBindings(1, 2, 3, 4, 5, 6, 7, 8, 9, 10)

  /** What a joystick reports at one instant: its POV angle (-1 when released), raw axes and buttons. */
  datatype Joystick = Joystick(pov: int, rawAxis: int -> real, rawButton: int -> bool)

  function Abs(x: real): real { if x < 0.0 then -x else x }

  /** The horizontal D-pad: east is 1, west is -1, anything else (diagonals included) is 0. */
  function DpadX(pov: int): (v: real)
    ensures v == 1.0 <==> pov == 90
    ensures v == -1.0 <==> pov == 270
    ensures v == 0.0 <==> pov != 90 && pov != 270
  {
    if pov == 90 then 1.0 else if pov == 270 then -1.0 else 0.0
  }

  /** The vertical D-pad: north is -1, south is 1, anything else is 0. */
  function DpadY(pov: int): (v: real)
    ensures v == -1.0 <==> pov == 0
    ensures v == 1.0 <==> pov == 180
    ensures v == 0.0 <==> pov != 0 && pov != 180
  {
    if pov == 0 then -1.0 else if pov == 180 then 1.0 else 0.0
  }

  /** An analog reading strictly inside the dead zone becomes 0; every other reading passes through. */
  function ApplyDeadZone(raw: real, deadZone: real): (v: real)
    ensures Abs(raw) < deadZone ==> v == 0.0
    ensures Abs(raw) >= deadZone ==> v == raw
  {
    if Abs(raw) < deadZone then 0.0 else raw
  }

  class OI {
    const controllers: seq<Joystick>
    /** DEAD_ZONE of section JoyConfig<user>, one per controller. */
    const deadZones: seq<real>
    const axes: AxisBindings
    const buttons: ButtonBindings

    ghost predicate Valid() {
      |controllers| == 2 && |deadZones| == 2
    }

    constructor (driver: Joystick, scoring: Joystick, driverDeadZone: real, scoringDeadZone: real,
                 axes: AxisBindings := DefaultAxes, buttons: ButtonBindings := DefaultButtons)
      ensures Valid()
      ensures controllers == [driver, scoring] && deadZones == [driverDeadZone, scoringDeadZone]
      ensures this.axes == axes && this.buttons == buttons
    {
      controllers := [driver, scoring];
      deadZones := [driverDeadZone, scoringDeadZone];
      this.axes := axes;
      this.buttons := buttons;
    }

    /**
     * get_axis: the D-pad ids are checked first (horizontal before
     * vertical) and read the POV; every other id reads the raw analog
     * value through the controller's dead zone.
     */
    function GetAxis(user: nat, axis: int): (v: real)
      requires user < |controllers| && user < |deadZones|
      reads this
      ensures axis == axes.dpadX ==> v == DpadX(controllers[user].pov)
      ensures axis != axes.dpadX && axis == axes.dpadY ==> v == DpadY(controllers[user].pov)
      ensures axis != axes.dpadX && axis != axes.dpadY ==>
        v == ApplyDeadZone(controllers[user].rawAxis(axis), deadZones[user])
    {
      var controller := controllers[user];
      if axis == axes.dpadX then
        DpadX(controller.pov)
      else if axis == axes.dpadY then
        DpadY(controller.pov)
      else
        ApplyDeadZone(controller.rawAxis(axis), deadZones[user])
    }

    /** get_button_state: the raw button value, unchanged. */
    function GetButtonState(user: nat, button: int): (pressed: bool)
      requires user < |controllers|
      reads this
      ensures pressed == controllers[user].rawButton(button)
    {
      controllers[user].rawButton(button)
    }

    /** The result stays in [-1, 1] whenever the raw analog reading does. */
    lemma AxisInRange(user: nat, axis: int)
      requires user < |controllers| && user < |deadZones|
      requires -1.0 <= controllers[user].rawAxis(axis) <= 1.0
      ensures -1.0 <= GetAxis(user, axis) <= 1.0
    {
      var raw := controllers[user].rawAxis(axis);
      if axis != axes.dpadX && axis != axes.dpadY {
        assert GetAxis(user, axis) == ApplyDeadZone(raw, deadZones[user]);
      }
    }

    /** A D-pad id never reads the analog value: two joysticks with the same POV give the same reading. */
    lemma DpadIgnoresAnalog(user: nat, axis: int, other: Joystick)
      requires user < |controllers| && user < |deadZones|
      requires axis == axes.dpadX || axis == axes.dpadY
      requires other.pov == controllers[user].pov
      ensures GetAxis(user, axis) in {-1.0, 0.0, 1.0}
      ensures GetAxis(user, axis) ==
        (if axis == axes.dpadX then DpadX(other.pov) else DpadY(other.pov))
    {
    }
  }

  /** The dead zone is strict: a reading of magnitude exactly the dead zone passes through. */
  lemma DeadZoneIsStrict(deadZone: real)
    requires deadZone > 0.0
    ensures ApplyDeadZone(deadZone, deadZone) == deadZone
    ensures ApplyDeadZone(-deadZone, deadZone) == -deadZone
    ensures forall raw :: 0.0 <= raw < deadZone ==> ApplyDeadZone(raw, deadZone) == 0.0
  {
  }
}
