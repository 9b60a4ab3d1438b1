/** Turns the control panel from the scoring controller's right stick. */
module MoveControlPanelCommand {
  import opened Wrappers
  import opened ControlPanelSubsystem
  import opened OperatorInput
  import opened Lifecycle

  class MoveControlPanel {
    const controlPanel: ControlPanel
    const oi: OI
    const name: string
    const timeout: Option<real>
    const requirements: set<object>

    constructor (controlPanel: ControlPanel, oi: OI, name: Option<string> := Some("MoveControlPanel"),
                 timeout: Option<real> := Some(15.0))
      ensures this.controlPanel == controlPanel && this.oi == oi
      ensures this.name == name.GetOr("MoveControlPanel") && this.timeout == timeout
      ensures requirements == {controlPanel}
    {
      this.controlPanel := controlPanel;
      this.oi := oi;
      this.name := name.GetOr("MoveControlPanel");
      this.timeout := timeout;
      requirements := {controlPanel};
    }

    /** The scoring right-stick horizontal value goes to the panel. */
    method Execute()
      requires oi.Valid() && controlPanel.Valid()
      modifies controlPanel.motor
      ensures controlPanel.enabled ==>
        controlPanel.motor.output == PanelMotorValue(oi.GetAxis(Scoring, oi.axes.rightX), controlPanel.maxSpeed) &&
        controlPanel.motor.writes == old(controlPanel.motor.writes) + 1
      ensures !controlPanel.enabled && controlPanel.motor != null ==>
        controlPanel.motor.output == old(controlPanel.motor.output) &&
        controlPanel.motor.writes == old(controlPanel.motor.writes)
    {
      var speed := oi.GetAxis(Scoring, oi.axes.rightX);
      controlPanel.Move(speed);
    }

    predicate IsFinished() {
      false
    }

    method End()
      requires controlPanel.Valid()
      modifies controlPanel.motor
      ensures controlPanel.enabled ==>
        controlPanel.motor.output == 0.0 && controlPanel.motor.writes == old(controlPanel.motor.writes) + 1
      ensures !controlPanel.enabled && controlPanel.motor != null ==>
        controlPanel.motor.output == old(controlPanel.motor.output) &&
        controlPanel.motor.writes == old(controlPanel.motor.writes)
    {
      controlPanel.Move(0.0);
    }

    /** Same effect as End. */
    method Interrupted()
      requires controlPanel.Valid()
      modifies controlPanel.motor
      ensures controlPanel.enabled ==>
        controlPanel.motor.output == 0.0 && controlPanel.motor.writes == old(controlPanel.motor.writes) + 1
      ensures !controlPanel.enabled && controlPanel.motor != null ==>
        controlPanel.motor.output == old(controlPanel.motor.output) &&
        controlPanel.motor.writes == old(controlPanel.motor.writes)
    {
      End();
    }

    /** The event a pass produces: isFinished always answers false, so a pass never ends the command. */
    function EventFor(p: Pass<()>): (e: Event)
      ensures e != Tick(true)
    {
      match p
      case Scheduled(_) => Tick(IsFinished())
      case Cancelled => Cancel
    }

    /**
     * One scheduler pass over the command in the lifecycle state `t`, which
     * has not terminated. A cancellation calls interrupted when the command is
     * running. Otherwise the command is initialized on its first pass (it
     * defines no initialize of its own), executed and asked isFinished, which
     * never answers true. The hooks called are exactly those the lifecycle's
     * step appends for the event the pass produces.
     */
    method OnePass(t: Trace, p: Pass<()>) returns (e: Event, called: seq<Hook>)
      requires !Terminated(t.phase) && oi.Valid() && controlPanel.Valid()
      modifies controlPanel.motor
      ensures e == EventFor(p)
      ensures Step(t, e).hooks == t.hooks + called
      ensures Terminated(Step(t, e).phase) ==> controlPanel.enabled ==> controlPanel.motor.output == 0.0
      ensures Step(t, e).phase == Running ==> controlPanel.enabled ==> controlPanel.motor.output == PanelMotorValue(oi.GetAxis(Scoring, oi.axes.rightX), controlPanel.maxSpeed)
    {
      called := [];
      match p {
        case Cancelled =>
          e := Cancel;
          if t.phase == Running {
            Interrupted();
            called := [OnInterrupted];
          }
        case Scheduled(_) =>
          if t.phase == Idle {
            called := [OnInitialize];
          }
          Execute();
          called := called + [OnExecute];
          e := Tick(IsFinished());
      }
    }

    /**
     * The scheduler running this command over a sequence of passes, one
     * OnePass each, until it is cancelled: isFinished never answers true, so
     * end is never called. The hooks called are those of the lifecycle's run,
     * and an interrupted run leaves an enabled panel's motor at 0.
     */
    method Schedule(passes: seq<Pass<()>>) returns (events: seq<Event>, hooks: seq<Hook>)
      requires oi.Valid() && controlPanel.Valid()
      modifies controlPanel.motor
      ensures |events| <= |passes|
      ensures forall k :: 0 <= k < |events| ==> events[k] == EventFor(passes[k])
      ensures |events| < |passes| ==> Terminated(Run(events).phase)
      ensures hooks == Run(events).hooks
      ensures Run(events).phase != Finished && OnEnd !in hooks
      ensures Terminated(Run(events).phase) ==> controlPanel.enabled ==> controlPanel.motor.output == 0.0
      ensures Run(events).phase == Running ==> controlPanel.enabled ==> controlPanel.motor.output == PanelMotorValue(oi.GetAxis(Scoring, oi.axes.rightX), controlPanel.maxSpeed)
    {
      ghost var turning := PanelMotorValue(oi.GetAxis(Scoring, oi.axes.rightX), controlPanel.maxSpeed);
      var t := Initial;
      events, hooks := [], [];
      while |events| < |passes| && !Terminated(t.phase)
        invariant |events| <= |passes|
        invariant forall k :: 0 <= k < |events| ==> events[k] == EventFor(passes[k])
        invariant t == Run(events) && hooks == t.hooks
        invariant Terminated(t.phase) ==> controlPanel.enabled ==> controlPanel.motor.output == 0.0
        invariant t.phase == Running ==> controlPanel.enabled ==> controlPanel.motor.output == turning
        decreases |passes| - |events|
      {
        var e, called := OnePass(t, passes[|events|]);
        RunExtends(events, e);
        t := Step(t, e);
        events, hooks := events + [e], hooks + called;
      }
      NeverFinishedWithoutReport(events);
    }
  }
}
