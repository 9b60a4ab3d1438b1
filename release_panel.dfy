/** Holds the panel grabber closed while the command runs and releases the panel when it stops. */
module ReleasePanelCommand {
  import opened Wrappers
  import opened PanelGrabberSubsystem
  import opened Lifecycle

  class ReleasePanel {
    const panelGrabber: PanelGrabber
    const name: string
    const timeout: Option<real>
    const requirements: set<object>

    constructor (panelGrabber: PanelGrabber, name: Option<string> := None, timeout: Option<real> := None)
      ensures this.panelGrabber == panelGrabber
      ensures this.name == name.GetOr("ReleasePanel") && this.timeout == timeout
      ensures requirements == {panelGrabber}
    {
      this.panelGrabber := panelGrabber;
      this.name := name.GetOr("ReleasePanel");
      this.timeout := timeout;
      requirements := {panelGrabber};
    }

    method Execute()
      modifies panelGrabber.solenoid
      ensures panelGrabber.solenoid != null ==>
        !panelGrabber.solenoid.state && panelGrabber.solenoid.writes == old(panelGrabber.solenoid.writes) + 1
    {
      panelGrabber.SetPanelRelease(false);
    }

    predicate IsFinished() {
      false
    }

    method End()
      modifies panelGrabber.solenoid
      ensures panelGrabber.solenoid != null ==>
        panelGrabber.solenoid.state && panelGrabber.solenoid.writes == old(panelGrabber.solenoid.writes) + 1
    {
      panelGrabber.SetPanelRelease(true);
    }

    /** Same effect as End. */
    method Interrupted()
      modifies panelGrabber.solenoid
      ensures panelGrabber.solenoid != null ==>
        panelGrabber.solenoid.state && panelGrabber.solenoid.writes == old(panelGrabber.solenoid.writes) + 1
    {
      End();
    }

    /** The event a pass produces: isFinished always answers false, so a pass never ends the command. */
    function EventFor(p: Pass<()>): (e: Event)
      ensures e != Tick(true)
    {
      match p
      case Scheduled(_) => Tick(IsFinished())
      case Cancelled => Cancel
    }

    /**
     * One scheduler pass over the command in the lifecycle state `t`, which
     * has not terminated. A cancellation calls interrupted when the command is
     * running. Otherwise the command is initialized on its first pass (it
     * defines no initialize of its own), executed and asked isFinished, which
     * never answers true. The hooks called are exactly those the lifecycle's
     * step appends for the event the pass produces.
     */
    method OnePass(t: Trace, p: Pass<()>) returns (e: Event, called: seq<Hook>)
      requires !Terminated(t.phase)
      modifies panelGrabber.solenoid
      ensures e == EventFor(p)
      ensures Step(t, e).hooks == t.hooks + called
      ensures Terminated(Step(t, e).phase) ==> panelGrabber.solenoid != null ==> panelGrabber.solenoid.state
      ensures Step(t, e).phase == Running ==> panelGrabber.solenoid != null ==> !panelGrabber.solenoid.state
    {
      called := [];
      match p {
        case Cancelled =>
          e := Cancel;
          if t.phase == Running {
            Interrupted();
            called := [OnInterrupted];
          }
        case Scheduled(_) =>
          if t.phase == Idle {
            called := [OnInitialize];
          }
          Execute();
          called := called + [OnExecute];
          e := Tick(IsFinished());
      }
    }

    /**
     * The scheduler running this command over a sequence of passes, one
     * OnePass each, until it is cancelled: isFinished never answers true, so
     * end is never called. The hooks called are those of the lifecycle's run,
     * and the grabber holds the panel while the command runs and has released
     * it once the command is interrupted.
     */
    method Schedule(passes: seq<Pass<()>>) returns (events: seq<Event>, hooks: seq<Hook>)
      modifies panelGrabber.solenoid
      ensures |events| <= |passes|
      ensures forall k :: 0 <= k < |events| ==> events[k] == EventFor(passes[k])
      ensures |events| < |passes| ==> Terminated(Run(events).phase)
      ensures hooks == Run(events).hooks
      ensures Run(events).phase != Finished && OnEnd !in hooks
      ensures Terminated(Run(events).phase) ==> panelGrabber.solenoid != null ==> panelGrabber.solenoid.state
      ensures Run(events).phase == Running ==> panelGrabber.solenoid != null ==> !panelGrabber.solenoid.state
    {
      var t := Initial;
      events, hooks := [], [];
      while |events| < |passes| && !Terminated(t.phase)
        invariant |events| <= |passes|
        invariant forall k :: 0 <= k < |events| ==> events[k] == EventFor(passes[k])
        invariant t == Run(events) && hooks == t.hooks
        invariant Terminated(t.phase) ==> panelGrabber.solenoid != null ==> panelGrabber.solenoid.state
        invariant t.phase == Running ==> panelGrabber.solenoid != null ==> !panelGrabber.solenoid.state
        decreases |passes| - |events|
      {
        var e, called := OnePass(t, passes[|events|]);
        RunExtends(events, e);
        t := Step(t, e);
        events, hooks := events + [e], hooks + called;
      }
      NeverFinishedWithoutReport(events);
    }
  }
}
