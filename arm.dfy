/**
 * The arm subsystem: a vertical and a lateral motor, each guarded by two
 * limit switches. Any motor or switch may be absent (not configured).
 * When a request is blocked the arm returns without writing, so the motor
 * keeps whatever it was last set to.
 */
module ArmSubsystem {
  import opened Wrappers
  import opened Devices
  import opened BoundedActuator

  /**
   * move_arm_laterally's decision: a negative request while open, or a
   * positive one while closed, writes nothing; anything else is scaled.
   * The closed switch is the upper stop, the open switch the lower one.
   */
  function LateralDecision(speed: real, scale: real, isOpen: bool, isClosed: bool): (w: Write)
    ensures w == NoWrite <==> IntoStop(speed, isClosed, isOpen)
    ensures w.Put? ==> w.value == Guarded(speed, scale, isClosed, isOpen)
  {
    if speed < 0.0 && isOpen then NoWrite
    else if speed > 0.0 && isClosed then NoWrite
    else Put(speed * scale)
  }

  /**
   * move_arms_vertically's decision: a positive request while raised, or a
   * negative one while lowered, writes nothing; anything else is scaled.
   */
  function VerticalDecision(speed: real, scale: real, isRaised: bool, isLowered: bool): (w: Write)
    ensures w == NoWrite <==> IntoStop(speed, isRaised, isLowered)
    ensures w.Put? ==> w.value == Guarded(speed, scale, isRaised, isLowered)
  {
    if speed > 0.0 && isRaised then NoWrite
    else if speed < 0.0 && isLowered then NoWrite
    else Put(speed * scale)
  }

  /** A zero request is never blocked and writes exactly 0, in either axis. */
  lemma ZeroAlwaysWritesZero(scale: real, a: bool, b: bool)
    ensures LateralDecision(0.0, scale, a, b) == Put(0.0)
    ensures VerticalDecision(0.0, scale, a, b) == Put(0.0)
  {
  }

  /** A blocked request leaves the previous output and write count in place. */
  lemma BlockedKeepsPreviousOutput(speed: real, scale: real, isOpen: bool, isClosed: bool, before: real)
    requires (speed < 0.0 && isOpen) || (speed > 0.0 && isClosed)
    ensures OutputAfter(LateralDecision(speed, scale, isOpen, isClosed), before) == before
    ensures WritesOf(LateralDecision(speed, scale, isOpen, isClosed)) == 0
  {
  }

  class Arm {
    const vertical: Motor?
    const lateral: Motor?
    const raisedSwitch: DigitalInput?
    const loweredSwitch: DigitalInput?
    const closedSwitch: DigitalInput?
    const openSwitch: DigitalInput?
    const moveSpeedScale: real

    /** The two motors are distinct devices. */
    ghost predicate Valid() {
      vertical == null || vertical != lateral
    }

    /** `configuredScale` is ARM_MOVE_SPEED when the configuration gives one; the scale defaults to 1.0. */
    constructor (vertical: Motor?, lateral: Motor?,
                 raisedSwitch: DigitalInput?, loweredSwitch: DigitalInput?,
                 closedSwitch: DigitalInput?, openSwitch: DigitalInput?,
                 configuredScale: Option<real>)
      requires vertical == null || vertical != lateral
      ensures Valid()
      ensures this.vertical == vertical && this.lateral == lateral
      ensures this.raisedSwitch == raisedSwitch && this.loweredSwitch == loweredSwitch
      ensures this.closedSwitch == closedSwitch && this.openSwitch == openSwitch
      ensures moveSpeedScale == configuredScale.GetOr(1.0)
    {
      this.vertical := vertical;
      this.lateral := lateral;
      this.raisedSwitch := raisedSwitch;
      this.loweredSwitch := loweredSwitch;
      this.closedSwitch := closedSwitch;
      this.openSwitch := openSwitch;
      moveSpeedScale := if configuredScale.Some? then configuredScale.value else 1.0;
    }

    /** is_raised: active-low; false without a switch. */
    function IsRaised(): bool
      reads raisedSwitch
    {
      ActiveLow(raisedSwitch)
    }

    /** is_lowered: active-low; false without a switch. */
    function IsLowered(): bool
      reads loweredSwitch
    {
      ActiveLow(loweredSwitch)
    }

    /** is_closed: NOT inverted; false without a switch. */
    function IsClosed(): bool
      reads closedSwitch
    {
      ActiveHigh(closedSwitch)
    }

    /** is_open: active-low; false without a switch. */
    function IsOpen(): bool
      reads openSwitch
    {
      ActiveLow(openSwitch)
    }

    method MoveArmLaterally(speed: real)
      requires Valid()
      modifies lateral
      ensures lateral != null ==>
        var w := LateralDecision(speed, moveSpeedScale, IsOpen(), IsClosed());
        lateral.output == OutputAfter(w, old(lateral.output)) &&
        lateral.writes == old(lateral.writes) + WritesOf(w)
    {
      if lateral == null {
        return;
      }
      if speed < 0.0 && IsOpen() {
        return;
      } else if speed > 0.0 && IsClosed() {
        return;
      }
      lateral.Set(speed * moveSpeedScale);
    }

    method MoveArmsVertically(speed: real)
      requires Valid()
      modifies vertical
      ensures vertical != null ==>
        var w := VerticalDecision(speed, moveSpeedScale, IsRaised(), IsLowered());
        vertical.output == OutputAfter(w, old(vertical.output)) &&
        vertical.writes == old(vertical.writes) + WritesOf(w)
    {
      if vertical == null {
        return;
      }
      if speed > 0.0 && IsRaised() {
        return;
      } else if speed < 0.0 && IsLowered() {
        return;
      }
      vertical.Set(speed * moveSpeedScale);
    }
  }

  /** The state of one switch as the arm sees it: absent, or present with a level. */
  lemma SwitchPolarity(arm: Arm)
    ensures arm.IsRaised() <==> arm.raisedSwitch != null && !arm.raisedSwitch.level
    ensures arm.IsLowered() <==> arm.loweredSwitch != null && !arm.loweredSwitch.level
    ensures arm.IsOpen() <==> arm.openSwitch != null && !arm.openSwitch.level
    ensures arm.IsClosed() <==> arm.closedSwitch != null && arm.closedSwitch.level
  {
  }
}
