/** Moves the arm sideways at a fixed speed, given with the opposite sign. */
module MoveArmLaterallyCommand {
  import opened Wrappers
  import opened BoundedActuator
  import opened ArmSubsystem
  import opened Lifecycle

  class MoveArmLaterally {
    const arm: Arm
    const armSpeed: real
    const name: string
    const timeout: Option<real>
    const requirements: set<object>

    constructor (arm: Arm, speed: real := 0.0, name: Option<string> := None,
                 timeout: Option<real> := Some(5.0))
      ensures this.arm == arm && armSpeed == -speed
      ensures this.name == name.GetOr("MoveArmLaterally") && this.timeout == timeout
      ensures requirements == {arm}
    {
      this.arm := arm;
      armSpeed := speed * -1.0;
      this.name := name.GetOr("MoveArmLaterally");
      this.timeout := timeout;
      requirements := {arm};
    }

    /** Every pass requests the stored speed, subject to the arm's limit switches. */
    method Execute()
      requires arm.Valid()
      modifies arm.lateral
      ensures arm.lateral != null ==>
        var w := LateralDecision(armSpeed, arm.moveSpeedScale, arm.IsOpen(), arm.IsClosed());
        arm.lateral.output == OutputAfter(w, old(arm.lateral.output)) &&
        arm.lateral.writes == old(arm.lateral.writes) + WritesOf(w)
    {
      arm.MoveArmLaterally(armSpeed);
    }

    predicate IsFinished() {
      false
    }

    /** A zero request is never blocked, so the lateral motor is always set to 0. */
    method End()
      requires arm.Valid()
      modifies arm.lateral
      ensures arm.lateral != null ==>
        arm.lateral.output == 0.0 && arm.lateral.writes == old(arm.lateral.writes) + 1
    {
      ZeroAlwaysWritesZero(arm.moveSpeedScale, arm.IsOpen(), arm.IsClosed());
      arm.MoveArmLaterally(0.0);
    }

    /** Same effect as End. */
    method Interrupted()
      requires arm.Valid()
      modifies arm.lateral
      ensures arm.lateral != null ==>
        arm.lateral.output == 0.0 && arm.lateral.writes == old(arm.lateral.writes) + 1
    {
      End();
    }

    /** The event a pass produces: isFinished always answers false, so a pass never ends the command. */
    function EventFor(p: Pass<()>): (e: Event)
      ensures e != Tick(true)
    {
      match p
      case Scheduled(_) => Tick(IsFinished())
      case Cancelled => Cancel
    }

    /**
     * One scheduler pass over the command in the lifecycle state `t`, which
     * has not terminated. A cancellation calls interrupted when the command is
     * running. Otherwise the command is initialized on its first pass (it
     * defines no initialize of its own), executed and asked isFinished, which
     * never answers true. The hooks called are exactly those the lifecycle's
     * step appends for the event the pass produces.
     */
    method OnePass(t: Trace, p: Pass<()>) returns (e: Event, called: seq<Hook>)
      requires !Terminated(t.phase) && arm.Valid()
      modifies arm.lateral
      ensures e == EventFor(p)
      ensures Step(t, e).hooks == t.hooks + called
      ensures Terminated(Step(t, e).phase) ==> arm.lateral != null ==> arm.lateral.output == 0.0
    {
      called := [];
      match p {
        case Cancelled =>
          e := Cancel;
          if t.phase == Running {
            Interrupted();
            called := [OnInterrupted];
          }
        case Scheduled(_) =>
          if t.phase == Idle {
            called := [OnInitialize];
          }
          Execute();
          called := called + [OnExecute];
          e := Tick(IsFinished());
      }
    }

    /**
     * The scheduler running this command over a sequence of passes, one
     * OnePass each, until it is cancelled: isFinished never answers true, so
     * end is never called. The hooks called are those of the lifecycle's run,
     * and an interrupted run leaves the lateral motor at 0.
     */
    method Schedule(passes: seq<Pass<()>>) returns (events: seq<Event>, hooks: seq<Hook>)
      requires arm.Valid()
      modifies arm.lateral
      ensures |events| <= |passes|
      ensures forall k :: 0 <= k < |events| ==> events[k] == EventFor(passes[k])
      ensures |events| < |passes| ==> Terminated(Run(events).phase)
      ensures hooks == Run(events).hooks
      ensures Run(events).phase != Finished && OnEnd !in hooks
      ensures Terminated(Run(events).phase) ==> arm.lateral != null ==> arm.lateral.output == 0.0
    {
      var t := Initial;
      events, hooks := [], [];
      while |events| < |passes| && !Terminated(t.phase)
        invariant |events| <= |passes|
        invariant forall k :: 0 <= k < |events| ==> events[k] == EventFor(passes[k])
        invariant t == Run(events) && hooks == t.hooks
        invariant Terminated(t.phase) ==> arm.lateral != null ==> arm.lateral.output == 0.0
        decreases |passes| - |events|
      {
        var e, called := OnePass(t, passes[|events|]);
        RunExtends(events, e);
        t := Step(t, e);
        events, hooks := events + [e], hooks + called;
      }
      NeverFinishedWithoutReport(events);
    }
  }
}
