/** The panel grabber: a solenoid that is set only when present. */
module PanelGrabberSubsystem {
  import opened Devices

  class PanelGrabber {
    const solenoid: Solenoid?

    constructor (solenoid: Solenoid?)
      ensures this.solenoid == solenoid
    {
      this.solenoid := solenoid;
    }

    method SetPanelRelease(state: bool)
      modifies solenoid
      ensures solenoid != null ==> solenoid.state == state && solenoid.writes == old(solenoid.writes) + 1
    {
      if solenoid != null {
        solenoid.Set(state);
      }
    }
  }
}
