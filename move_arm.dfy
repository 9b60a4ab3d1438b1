/** Drives the arm from the scoring controller's right stick, upward only. */
module MoveArmCommand {
  import opened Wrappers
  import opened ArmDriveInterface
  import opened OperatorInput
  import opened Lifecycle

  /** Only a positive stick value moves the arm; anything else requests 0. */
  function PositivePart(stick: real): (r: real)
    ensures r >= 0.0
    ensures r == 0.0 || r == stick
    ensures stick > 0.0 <==> r > 0.0
  {
    if stick > 0.0 then stick else 0.0
  }

  class MoveArm {
    const arm: ArmDrive
    const oi: OI
    /** Stored by the constructor; it never affects the output. */
    const speed: real
    const name: string
    const timeout: Option<real>
    const requirements: set<object>

    constructor (arm: ArmDrive, oi: OI, speed: real, name: Option<string> := None,
                 timeout: Option<real> := Some(15.0))
      ensures this.arm == arm && this.oi == oi && this.speed == speed
      ensures this.name == name.GetOr("MoveArm") && this.timeout == timeout
      ensures requirements == {arm}
    {
      this.arm := arm;
      this.oi := oi;
      this.speed := speed;
      this.name := name.GetOr("MoveArm");
      this.timeout := timeout;
      requirements := {arm};
    }

    method Execute()
      requires oi.Valid()
      modifies arm`requested, arm`moveCalls
      ensures arm.requested == PositivePart(oi.GetAxis(Scoring, oi.axes.rightY))
      ensures arm.moveCalls == old(arm.moveCalls) + 1
    {
      var rightStick := oi.GetAxis(Scoring, oi.axes.rightY);
      if rightStick > 0.0 {
        arm.MoveArm(rightStick);
      } else {
        arm.MoveArm(0.0);
      }
    }

    predicate IsFinished() {
      false
    }

    method End()
    {
    }

    /** Same effect as End. */
    method Interrupted()
    {
      End();
    }

    /** The event a pass produces: isFinished always answers false, so a pass never ends the command. */
    function EventFor(p: Pass<()>): (e: Event)
      ensures e != Tick(true)
    {
      match p
      case Scheduled(_) => Tick(IsFinished())
      case Cancelled => Cancel
    }

    /**
     * One scheduler pass over the command in the lifecycle state `t`, which
     * has not terminated. A cancellation calls interrupted when the command is
     * running. Otherwise the command is initialized on its first pass (it
     * defines no initialize of its own), executed and asked isFinished, which
     * never answers true. The hooks called are exactly those the lifecycle's
     * step appends for the event the pass produces.
     */
    method OnePass(t: Trace, p: Pass<()>) returns (e: Event, called: seq<Hook>)
      requires !Terminated(t.phase) && oi.Valid()
      requires t.phase != Idle ==> arm.requested == PositivePart(oi.GetAxis(Scoring, oi.axes.rightY))
      modifies arm`requested, arm`moveCalls
      ensures e == EventFor(p)
      ensures Step(t, e).hooks == t.hooks + called
      ensures Step(t, e).phase != Idle ==> arm.requested == PositivePart(oi.GetAxis(Scoring, oi.axes.rightY))
    {
      called := [];
      match p {
        case Cancelled =>
          e := Cancel;
          if t.phase == Running {
            Interrupted();
            called := [OnInterrupted];
          }
        case Scheduled(_) =>
          if t.phase == Idle {
            called := [OnInitialize];
          }
          Execute();
          called := called + [OnExecute];
          e := Tick(IsFinished());
      }
    }

    /**
     * The scheduler running this command over a sequence of passes, one
     * OnePass each, until it is cancelled: isFinished never answers true, so
     * end is never called. The hooks called are those of the lifecycle's run,
     * and end and interrupted do nothing, so the last requested speed stays in
     * force even after the command is interrupted.
     */
    method Schedule(passes: seq<Pass<()>>) returns (events: seq<Event>, hooks: seq<Hook>)
      requires oi.Valid()
      modifies arm`requested, arm`moveCalls
      ensures |events| <= |passes|
      ensures forall k :: 0 <= k < |events| ==> events[k] == EventFor(passes[k])
      ensures |events| < |passes| ==> Terminated(Run(events).phase)
      ensures hooks == Run(events).hooks
      ensures Run(events).phase != Finished && OnEnd !in hooks
      ensures Run(events).phase != Idle ==> arm.requested == PositivePart(oi.GetAxis(Scoring, oi.axes.rightY))
    {
      var t := Initial;
      events, hooks := [], [];
      while |events| < |passes| && !Terminated(t.phase)
        invariant |events| <= |passes|
        invariant forall k :: 0 <= k < |events| ==> events[k] == EventFor(passes[k])
        invariant t == Run(events) && hooks == t.hooks
        invariant t.phase != Idle ==> arm.requested == PositivePart(oi.GetAxis(Scoring, oi.axes.rightY))
        decreases |passes| - |events|
      {
        var e, called := OnePass(t, passes[|events|]);
        RunExtends(events, e);
        t := Step(t, e);
        events, hooks := events + [e], hooks + called;
      }
      NeverFinishedWithoutReport(events);
    }
  }
}
