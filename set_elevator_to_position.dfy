/** Drives the elevator toward an encoder target until it is within a threshold of it. */
module SetElevatorToPositionCommand {
  import opened Wrappers
  import opened ElevatorInterface
  import opened Lifecycle

  function Abs(x: real): real {
    if x < 0.0 then -x else x
  }

  /** Up (+1) when the target is at or above the current count, down (-1) otherwise. */
  function Direction(target: real, current: real): (d: real)
    ensures d == 1.0 || d == -1.0
    ensures d == 1.0 <==> current <= target
    ensures d * (target - current) == Abs(target - current)
  {
    if target - current >= 0.0 then 1.0 else -1.0
  }

  /** What one pass reads: the encoder count and the framework's timed-out flag. */
  datatype Reading = Reading(encoder: real, timedOut: bool)

  class SetElevatorToPosition {
    const elevator: Elevator
    const speed: real
    const encoderTarget: real
    const encoderThreshold: real
    const name: string
    const timeout: Option<real>
    const requirements: set<object>

    constructor (elevator: Elevator, speed: real, encoderPosition: real, threshold: real,
                 name: Option<string> := None, timeout: Option<real> := Some(15.0))
      ensures this.elevator == elevator && this.speed == speed
      ensures encoderTarget == encoderPosition && encoderThreshold == threshold
      ensures this.name == name.GetOr("SetElevatorToPosition") && this.timeout == timeout
      ensures requirements == {elevator}
    {
      this.elevator := elevator;
      this.speed := speed;
      encoderTarget := encoderPosition;
      encoderThreshold := threshold;
      this.name := name.GetOr("SetElevatorToPosition");
      this.timeout := timeout;
      requirements := {elevator};
    }

    /** Moves at the configured speed in the direction of the target. */
    method Execute()
      modifies elevator`requested, elevator`moveCalls
      ensures elevator.requested == speed * Direction(encoderTarget, elevator.encoderValue)
      ensures elevator.moveCalls == old(elevator.moveCalls) + 1
    {
      var current := elevator.GetEncoderValue();
      var distanceLeft := encoderTarget - current;
      var direction: real;
      if distanceLeft >= 0.0 {
        direction := 1.0;
      } else {
        direction := -1.0;
      }
      var directionalSpeed := speed * direction;
      elevator.MoveElevator(directionalSpeed);
    }

    /** Done once the count lies in [target - threshold, target + threshold], or on timeout. */
    predicate IsFinished(timedOut: bool)
      reads elevator
      ensures timedOut ==> IsFinished(timedOut)
      ensures !timedOut ==> (IsFinished(timedOut) <==>
        encoderTarget - encoderThreshold <= elevator.encoderValue <= encoderTarget + encoderThreshold)
    {
      Abs(encoderTarget - elevator.GetEncoderValue()) <= encoderThreshold || timedOut
    }

    method End()
      modifies elevator`requested, elevator`moveCalls
      ensures elevator.requested == 0.0 && elevator.moveCalls == old(elevator.moveCalls) + 1
    {
      elevator.MoveElevator(0.0);
    }

    /** Same effect as End. */
    method Interrupted()
      modifies elevator`requested, elevator`moveCalls
      ensures elevator.requested == 0.0 && elevator.moveCalls == old(elevator.moveCalls) + 1
    {
      End();
    }

    /** The event a pass produces: what isFinished answers for its readings, or the cancellation. */
    function EventFor(p: Pass<Reading>): (e: Event)
      ensures p.Cancelled? <==> e == Cancel
      ensures p.Scheduled? ==> (e.finished <==>
        encoderTarget - encoderThreshold <= p.inputs.encoder <= encoderTarget + encoderThreshold ||
        p.inputs.timedOut)
    {
      match p
      case Scheduled(r) => Tick(Abs(encoderTarget - r.encoder) <= encoderThreshold || r.timedOut)
      case Cancelled => Cancel
    }

    /**
     * One scheduler pass over the command in the lifecycle state `t`, which
     * has not terminated. A cancellation calls interrupted when the command is
     * running. Otherwise the environment sets the encoder to the pass's
     * reading; the command is initialized on its first pass (it defines no
     * initialize of its own), executed and asked isFinished, and end follows a
     * finished answer. The hooks called are exactly those the lifecycle's step
     * appends for the event the pass produces.
     */
    method OnePass(t: Trace, p: Pass<Reading>) returns (e: Event, called: seq<Hook>)
      requires !Terminated(t.phase)
      modifies elevator
      ensures e == EventFor(p)
      ensures Step(t, e).hooks == t.hooks + called
      ensures Terminated(Step(t, e).phase) ==> elevator.requested == 0.0
      ensures Step(t, e).phase == Running ==> elevator.requested == speed * Direction(encoderTarget, elevator.encoderValue)
    {
      called := [];
      match p {
        case Cancelled =>
          e := Cancel;
          if t.phase == Running {
            Interrupted();
            called := [OnInterrupted];
          }
        case Scheduled(r) =>
          elevator.encoderValue := r.encoder;
          if t.phase == Idle {
            called := [OnInitialize];
          }
          Execute();
          called := called + [OnExecute];
          var done := IsFinished(r.timedOut);
          e := Tick(done);
          if done {
            End();
            called := called + [OnEnd];
          }
      }
    }

    /**
     * The scheduler running this command over a sequence of passes, one
     * OnePass each, until it terminates. The events are those the passes
     * produce, the hooks called are those of the lifecycle's run, and a
     * terminated run leaves the elevator asked for 0.
     */
    method Schedule(passes: seq<Pass<Reading>>) returns (events: seq<Event>, hooks: seq<Hook>)
      modifies elevator
      ensures |events| <= |passes|
      ensures forall k :: 0 <= k < |events| ==> events[k] == EventFor(passes[k])
      ensures |events| < |passes| ==> Terminated(Run(events).phase)
      ensures hooks == Run(events).hooks
      ensures Terminated(Run(events).phase) ==> elevator.requested == 0.0
      ensures Run(events).phase == Running ==> elevator.requested == speed * Direction(encoderTarget, elevator.encoderValue)
    {
      var t := Initial;
      events, hooks := [], [];
      while |events| < |passes| && !Terminated(t.phase)
        invariant |events| <= |passes|
        invariant forall k :: 0 <= k < |events| ==> events[k] == EventFor(passes[k])
        invariant t == Run(events) && hooks == t.hooks
        invariant Terminated(t.phase) ==> elevator.requested == 0.0
        invariant t.phase == Running ==> elevator.requested == speed * Direction(encoderTarget, elevator.encoderValue)
        decreases |passes| - |events|
      {
        var e, called := OnePass(t, passes[|events|]);
        RunExtends(events, e);
        t := Step(t, e);
        events, hooks := events + [e], hooks + called;
      }
    }

    /**
     * While the command is not finished (and the threshold is not negative),
     * a positive speed always pushes the elevator toward the target.
     */
    lemma UnfinishedMovesTowardTarget()
      requires encoderThreshold >= 0.0 && speed > 0.0 && !IsFinished(false)
      ensures speed * Direction(encoderTarget, elevator.encoderValue) * (encoderTarget - elevator.encoderValue) > 0.0
    {
      var d := Direction(encoderTarget, elevator.encoderValue);
      var gap := encoderTarget - elevator.encoderValue;
      assert Abs(gap) > 0.0;
      assert speed * d * gap == speed * (d * gap);
    }
  }
}
