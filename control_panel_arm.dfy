/** The control panel arm: one solenoid, optionally wired inverted. */
module ControlPanelArmSubsystem {
  import opened Devices

  /** The value extend(state) writes: the state itself, or its negation when the solenoid is inverted. */
  function SolenoidValue(state: bool, inverted: bool): (r: bool)
    ensures !inverted ==> r == state
    ensures inverted ==> r == !state
  {
    state != inverted
  }

  /** Applying the inversion twice gives back the requested state. */
  lemma InversionIsInvolution(state: bool, inverted: bool)
    ensures SolenoidValue(SolenoidValue(state, inverted), inverted) == state
  {
  }

  class ControlPanelArm {
    const enabled: bool
    const solenoid: Solenoid?
    const solenoidInverted: bool

    ghost predicate Valid() {
      enabled ==> solenoid != null
    }

    /** SOLENOID_INVERTED is read only when enabled; otherwise the flag keeps its default, false. */
    constructor (enabled: bool, solenoid: Solenoid?, configuredInverted: bool)
      requires enabled ==> solenoid != null
      ensures Valid()
      ensures this.enabled == enabled && this.solenoid == solenoid
      ensures solenoidInverted == (enabled && configuredInverted)
    {
      this.enabled := enabled;
      this.solenoid := solenoid;
      solenoidInverted := enabled && configuredInverted;
    }

    method Extend(state: bool)
      requires Valid()
      modifies solenoid
      ensures enabled ==> solenoid.state == SolenoidValue(state, solenoidInverted) &&
                          solenoid.writes == old(solenoid.writes) + 1
      ensures !enabled && solenoid != null ==> solenoid.state == old(solenoid.state) &&
                                               solenoid.writes == old(solenoid.writes)
    {
      if !enabled {
        return;
      }
      solenoid.Set(state != solenoidInverted);
    }
  }
}
