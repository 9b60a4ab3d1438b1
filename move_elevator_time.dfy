/** Moves the elevator at a constant speed for a fixed time. */
module MoveElevatorTimeCommand {
  import opened Wrappers
  import opened Devices
  import opened ElevatorInterface
  import opened Completion
  import opened Lifecycle

  class MoveElevatorTime {
    const elevator: Elevator
    const speed: real
    const duration: real
    const stopwatch: Stopwatch
    const name: string
    const timeout: Option<real>
    const requirements: set<object>

    constructor (elevator: Elevator, directionalSpeed: real, duration: real,
                 name: Option<string> := None, timeout: Option<real> := Some(15.0))
      ensures this.elevator == elevator && speed == directionalSpeed && this.duration == duration
      ensures fresh(stopwatch) && !stopwatch.running
      ensures this.name == name.GetOr("MoveElevatorTime") && this.timeout == timeout
      ensures requirements == {elevator}
    {
      this.elevator := elevator;
      speed := directionalSpeed;
      this.duration := duration;
      stopwatch := new Stopwatch();
      this.name := name.GetOr("MoveElevatorTime");
      this.timeout := timeout;
      requirements := {elevator};
    }

    /** Starts the clock at 0. */
    method Initialize()
      modifies stopwatch
      ensures stopwatch.running && stopwatch.elapsed == 0.0
    {
      stopwatch.Start();
    }

    /** Every pass requests the same constant speed. */
    method Execute()
      modifies elevator`requested, elevator`moveCalls
      ensures elevator.requested == speed && elevator.moveCalls == old(elevator.moveCalls) + 1
    {
      elevator.MoveElevator(speed);
    }

    /** Done once the elapsed time reaches the duration; the timeout plays no part. */
    predicate IsFinished()
      reads stopwatch
      ensures IsFinished() <==> TimeUp(stopwatch.elapsed, duration)
    {
      TimeUp(stopwatch.ElapsedTimeInSecs(), duration)
    }

    method End()
      modifies stopwatch, elevator`requested, elevator`moveCalls
      ensures !stopwatch.running && stopwatch.elapsed == old(stopwatch.elapsed)
      ensures elevator.requested == 0.0 && elevator.moveCalls == old(elevator.moveCalls) + 1
    {
      stopwatch.Stop();
      elevator.MoveElevator(0.0);
    }

    /** Same effect as End. */
    method Interrupted()
      modifies stopwatch, elevator`requested, elevator`moveCalls
      ensures !stopwatch.running && stopwatch.elapsed == old(stopwatch.elapsed)
      ensures elevator.requested == 0.0 && elevator.moveCalls == old(elevator.moveCalls) + 1
    {
      End();
    }

    /** The event a pass produces: whether its stopwatch reading has reached the duration, or the cancellation. */
    function EventFor(p: Pass<real>): (e: Event)
      ensures p.Cancelled? <==> e == Cancel
      ensures p.Scheduled? ==> (e.finished <==> TimeUp(p.inputs, duration))
    {
      match p
      case Scheduled(elapsed) => Tick(TimeUp(elapsed, duration))
      case Cancelled => Cancel
    }

    /**
     * One scheduler pass over the command in the lifecycle state `t`, which
     * has not terminated. A cancellation calls interrupted when the command is
     * running. Otherwise the command is initialized on its first pass, which
     * starts the clock; the environment then advances the stopwatch to the
     * pass's reading, and the command is executed and asked isFinished; end
     * follows a finished answer. The hooks called are exactly those the
     * lifecycle's step appends for the event the pass produces.
     */
    method OnePass(t: Trace, p: Pass<real>) returns (e: Event, called: seq<Hook>)
      requires !Terminated(t.phase)
      requires t.phase == Running ==> stopwatch.running
      modifies stopwatch, elevator`requested, elevator`moveCalls
      ensures e == EventFor(p)
      ensures Step(t, e).hooks == t.hooks + called
      ensures Terminated(Step(t, e).phase) ==> elevator.requested == 0.0 && !stopwatch.running
      ensures Step(t, e).phase == Running ==> elevator.requested == speed && stopwatch.running
    {
      called := [];
      match p {
        case Cancelled =>
          e := Cancel;
          if t.phase == Running {
            Interrupted();
            called := [OnInterrupted];
          }
        case Scheduled(elapsed) =>
          if t.phase == Idle {
            Initialize();
            called := [OnInitialize];
          }
          stopwatch.elapsed := elapsed;
          Execute();
          called := called + [OnExecute];
          var done := IsFinished();
          e := Tick(done);
          if done {
            End();
            called := called + [OnEnd];
          }
      }
    }

    /**
     * The scheduler running this command over a sequence of passes, one
     * OnePass each, until it terminates. The events are those the passes
     * produce, the hooks called are those of the lifecycle's run, and a
     * terminated run leaves the elevator asked for 0 and the clock stopped.
     */
    method Schedule(passes: seq<Pass<real>>) returns (events: seq<Event>, hooks: seq<Hook>)
      modifies stopwatch, elevator`requested, elevator`moveCalls
      ensures |events| <= |passes|
      ensures forall k :: 0 <= k < |events| ==> events[k] == EventFor(passes[k])
      ensures |events| < |passes| ==> Terminated(Run(events).phase)
      ensures hooks == Run(events).hooks
      ensures Terminated(Run(events).phase) ==> elevator.requested == 0.0 && !stopwatch.running
      ensures Run(events).phase == Running ==> elevator.requested == speed && stopwatch.running
    {
      var t := Initial;
      events, hooks := [], [];
      while |events| < |passes| && !Terminated(t.phase)
        invariant |events| <= |passes|
        invariant forall k :: 0 <= k < |events| ==> events[k] == EventFor(passes[k])
        invariant t == Run(events) && hooks == t.hooks
        invariant Terminated(t.phase) ==> elevator.requested == 0.0 && !stopwatch.running
        invariant t.phase == Running ==> elevator.requested == speed && stopwatch.running
        decreases |passes| - |events|
      {
        var e, called := OnePass(t, passes[|events|]);
        RunExtends(events, e);
        t := Step(t, e);
        events, hooks := events + [e], hooks + called;
      }
    }
  }
}
