/** Drives the climbing winch from the scoring controller's left stick. */
module MoveWinchCommand {
  import opened Wrappers
  import opened ClimbingSubsystem
  import opened OperatorInput
  import opened Lifecycle

  class MoveWinch {
    const climbing: Climbing
    const oi: OI
    const name: string
    const timeout: Option<real>
    const requirements: set<object>

    constructor (climbing: Climbing, oi: OI, name: Option<string> := None,
                 timeout: Option<real> := Some(15.0))
      ensures this.climbing == climbing && this.oi == oi
      ensures this.name == name.GetOr("MoveWinch") && this.timeout == timeout
      ensures requirements == {climbing}
    {
      this.climbing := climbing;
      this.oi := oi;
      this.name := name.GetOr("MoveWinch");
      this.timeout := timeout;
      requirements := {climbing};
    }

    /** The scoring left-stick value goes to the winch unmodified. */
    method Execute()
      requires oi.Valid()
      modifies climbing.motor
      ensures climbing.motor != null ==>
        climbing.motor.output == WinchSpeed(oi.GetAxis(Scoring, oi.axes.leftY), climbing.maxSpeed,
                                            climbing.IsRetracted()) &&
        climbing.motor.writes == old(climbing.motor.writes) + 1
    {
      var moveSpeed := oi.GetAxis(Scoring, oi.axes.leftY);
      var _ := climbing.MoveWinch(moveSpeed);
    }

    predicate IsFinished() {
      false
    }

    /** Moving the winch at 0.0 always writes 0. */
    method End()
      modifies climbing.motor
      ensures climbing.motor != null ==>
        climbing.motor.output == 0.0 && climbing.motor.writes == old(climbing.motor.writes) + 1
    {
      var _ := climbing.MoveWinch(0.0);
    }

    /** Same effect as End. */
    method Interrupted()
      modifies climbing.motor
      ensures climbing.motor != null ==>
        climbing.motor.output == 0.0 && climbing.motor.writes == old(climbing.motor.writes) + 1
    {
      End();
    }

    /** The event a pass produces: isFinished always answers false, so a pass never ends the command. */
    function EventFor(p: Pass<()>): (e: Event)
      ensures e != Tick(true)
    {
      match p
      case Scheduled(_) => Tick(IsFinished())
      case Cancelled => Cancel
    }

    /**
     * One scheduler pass over the command in the lifecycle state `t`, which
     * has not terminated. A cancellation calls interrupted when the command is
     * running. Otherwise the command is initialized on its first pass (it
     * defines no initialize of its own), executed and asked isFinished, which
     * never answers true. The hooks called are exactly those the lifecycle's
     * step appends for the event the pass produces.
     */
    method OnePass(t: Trace, p: Pass<()>) returns (e: Event, called: seq<Hook>)
      requires !Terminated(t.phase) && oi.Valid()
      modifies climbing.motor
      ensures e == EventFor(p)
      ensures Step(t, e).hooks == t.hooks + called
      ensures Terminated(Step(t, e).phase) ==> climbing.motor != null ==> climbing.motor.output == 0.0
      ensures Step(t, e).phase == Running ==> climbing.motor != null ==> climbing.motor.output == WinchSpeed(oi.GetAxis(Scoring, oi.axes.leftY), climbing.maxSpeed, climbing.IsRetracted())
    {
      called := [];
      match p {
        case Cancelled =>
          e := Cancel;
          if t.phase == Running {
            Interrupted();
            called := [OnInterrupted];
          }
        case Scheduled(_) =>
          if t.phase == Idle {
            called := [OnInitialize];
          }
          Execute();
          called := called + [OnExecute];
          e := Tick(IsFinished());
      }
    }

    /**
     * The scheduler running this command over a sequence of passes, one
     * OnePass each, until it is cancelled: isFinished never answers true, so
     * end is never called. The hooks called are those of the lifecycle's run,
     * and an interrupted run leaves the winch motor at 0.
     */
    method Schedule(passes: seq<Pass<()>>) returns (events: seq<Event>, hooks: seq<Hook>)
      requires oi.Valid()
      modifies climbing.motor
      ensures |events| <= |passes|
      ensures forall k :: 0 <= k < |events| ==> events[k] == EventFor(passes[k])
      ensures |events| < |passes| ==> Terminated(Run(events).phase)
      ensures hooks == Run(events).hooks
      ensures Run(events).phase != Finished && OnEnd !in hooks
      ensures Terminated(Run(events).phase) ==> climbing.motor != null ==> climbing.motor.output == 0.0
      ensures Run(events).phase == Running ==> climbing.motor != null ==> climbing.motor.output == WinchSpeed(oi.GetAxis(Scoring, oi.axes.leftY), climbing.maxSpeed, climbing.IsRetracted())
    {
      ghost var winding := WinchSpeed(oi.GetAxis(Scoring, oi.axes.leftY), climbing.maxSpeed, climbing.IsRetracted());
      var t := Initial;
      events, hooks := [], [];
      while |events| < |passes| && !Terminated(t.phase)
        invariant |events| <= |passes|
        invariant forall k :: 0 <= k < |events| ==> events[k] == EventFor(passes[k])
        invariant t == Run(events) && hooks == t.hooks
        invariant Terminated(t.phase) ==> climbing.motor != null ==> climbing.motor.output == 0.0
        invariant t.phase == Running ==> climbing.motor != null ==> climbing.motor.output == winding
        decreases |passes| - |events|
      {
        var e, called := OnePass(t, passes[|events|]);
        RunExtends(events, e);
        t := Step(t, e);
        events, hooks := events + [e], hooks + called;
      }
      NeverFinishedWithoutReport(events);
    }
  }
}
