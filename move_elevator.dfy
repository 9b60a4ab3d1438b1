/** Drives the elevator from the scoring controller's left stick, negated. */
module MoveElevatorCommand {
  import opened Wrappers
  import opened ElevatorInterface
  import opened OperatorInput
  import opened Lifecycle

  class MoveElevator {
    const elevator: Elevator
    const oi: OI
    const name: string
    const timeout: Option<real>
    const requirements: set<object>

    constructor (elevator: Elevator, oi: OI, name: Option<string> := None,
                 timeout: Option<real> := Some(15.0))
      ensures this.elevator == elevator && this.oi == oi
      ensures this.name == name.GetOr("MoveElevator") && this.timeout == timeout
      ensures requirements == {elevator}
    {
      this.elevator := elevator;
      this.oi := oi;
      this.name := name.GetOr("MoveElevator");
      this.timeout := timeout;
      requirements := {elevator};
    }

    /** Requests the negated scoring left-stick value: pushing the stick forward (negative) raises. */
    method Execute()
      requires oi.Valid()
      modifies elevator`requested, elevator`moveCalls
      ensures elevator.requested == -oi.GetAxis(Scoring, oi.axes.leftY)
      ensures elevator.moveCalls == old(elevator.moveCalls) + 1
    {
      var moveSpeed := oi.GetAxis(Scoring, oi.axes.leftY) * -1.0;
      elevator.MoveElevator(moveSpeed);
    }

    predicate IsFinished() {
      false
    }

    /** Nothing: the last requested speed persists after the command ends. */
    method End()
    {
    }

    /** Nothing either, like End. */
    method Interrupted()
    {
    }

    /** The event a pass produces: isFinished always answers false, so a pass never ends the command. */
    function EventFor(p: Pass<()>): (e: Event)
      ensures e != Tick(true)
    {
      match p
      case Scheduled(_) => Tick(IsFinished())
      case Cancelled => Cancel
    }

    /**
     * One scheduler pass over the command in the lifecycle state `t`, which
     * has not terminated. A cancellation calls interrupted when the command is
     * running. Otherwise the command is initialized on its first pass (it
     * defines no initialize of its own), executed and asked isFinished, which
     * never answers true. The hooks called are exactly those the lifecycle's
     * step appends for the event the pass produces.
     */
    method OnePass(t: Trace, p: Pass<()>) returns (e: Event, called: seq<Hook>)
      requires !Terminated(t.phase) && oi.Valid()
      requires t.phase != Idle ==> elevator.requested == -oi.GetAxis(Scoring, oi.axes.leftY)
      modifies elevator`requested, elevator`moveCalls
      ensures e == EventFor(p)
      ensures Step(t, e).hooks == t.hooks + called
      ensures Step(t, e).phase != Idle ==> elevator.requested == -oi.GetAxis(Scoring, oi.axes.leftY)
    {
      called := [];
      match p {
        case Cancelled =>
          e := Cancel;
          if t.phase == Running {
            Interrupted();
            called := [OnInterrupted];
          }
        case Scheduled(_) =>
          if t.phase == Idle {
            called := [OnInitialize];
          }
          Execute();
          called := called + [OnExecute];
          e := Tick(IsFinished());
      }
    }

    /**
     * The scheduler running this command over a sequence of passes, one
     * OnePass each, until it is cancelled: isFinished never answers true, so
     * end is never called. The hooks called are those of the lifecycle's run,
     * and end and interrupted do nothing, so the last requested speed stays in
     * force even after the command is interrupted.
     */
    method Schedule(passes: seq<Pass<()>>) returns (events: seq<Event>, hooks: seq<Hook>)
      requires oi.Valid()
      modifies elevator`requested, elevator`moveCalls
      ensures |events| <= |passes|
      ensures forall k :: 0 <= k < |events| ==> events[k] == EventFor(passes[k])
      ensures |events| < |passes| ==> Terminated(Run(events).phase)
      ensures hooks == Run(events).hooks
      ensures Run(events).phase != Finished && OnEnd !in hooks
      ensures Run(events).phase != Idle ==> elevator.requested == -oi.GetAxis(Scoring, oi.axes.leftY)
    {
      var t := Initial;
      events, hooks := [], [];
      while |events| < |passes| && !Terminated(t.phase)
        invariant |events| <= |passes|
        invariant forall k :: 0 <= k < |events| ==> events[k] == EventFor(passes[k])
        invariant t == Run(events) && hooks == t.hooks
        invariant t.phase != Idle ==> elevator.requested == -oi.GetAxis(Scoring, oi.axes.leftY)
        decreases |passes| - |events|
      {
        var e, called := OnePass(t, passes[|events|]);
        RunExtends(events, e);
        t := Step(t, e);
        events, hooks := events + [e], hooks + called;
      }
      NeverFinishedWithoutReport(events);
    }
  }
}
