/** Retracts the arm at a fixed speed until its encoder reaches a target. */
module RetractArmToPositionCommand {
  import opened Wrappers
  import opened ArmDriveInterface
  import opened Lifecycle

  /** What one pass reads: the encoder count and the framework's timed-out flag. */
  datatype Reading = Reading(encoder: real, timedOut: bool)

  class RetractArmToPosition {
    const arm: ArmDrive
    const speed: real
    const encoderTarget: real
    const name: string
    const timeout: Option<real>
    const requirements: set<object>

    constructor (arm: ArmDrive, speed: real, encoderPosition: real,
                 name: Option<string> := None, timeout: Option<real> := Some(15.0))
      ensures this.arm == arm && this.speed == speed && encoderTarget == encoderPosition
      ensures this.name == name.GetOr("RetractArmToPosition") && this.timeout == timeout
      ensures requirements == {arm}
    {
      this.arm := arm;
      this.speed := speed;
      encoderTarget := encoderPosition;
      this.name := name.GetOr("RetractArmToPosition");
      this.timeout := timeout;
      requirements := {arm};
    }

    /** Always requests the negated speed, whatever the encoder reads. */
    method Execute()
      modifies arm`requested, arm`moveCalls
      ensures arm.requested == -speed && arm.moveCalls == old(arm.moveCalls) + 1
    {
      arm.MoveArm(speed * -1.0);
    }

    /** Done once the encoder is at or past the target, or on timeout. */
    predicate IsFinished(timedOut: bool)
      reads arm
      ensures !IsFinished(timedOut) <==> arm.encoderValue < encoderTarget && !timedOut
    {
      arm.GetEncoderValue() >= encoderTarget || timedOut
    }

    method End()
      modifies arm`requested, arm`moveCalls
      ensures arm.requested == 0.0 && arm.moveCalls == old(arm.moveCalls) + 1
    {
      arm.MoveArm(0.0);
    }

    /** Same effect as End. */
    method Interrupted()
      modifies arm`requested, arm`moveCalls
      ensures arm.requested == 0.0 && arm.moveCalls == old(arm.moveCalls) + 1
    {
      End();
    }

    /** The event a pass produces: what isFinished answers for its readings, or the cancellation. */
    function EventFor(p: Pass<Reading>): (e: Event)
      ensures p.Cancelled? <==> e == Cancel
      ensures p.Scheduled? ==> (e.finished <==> p.inputs.encoder >= encoderTarget || p.inputs.timedOut)
    {
      match p
      case Scheduled(r) => Tick(r.encoder >= encoderTarget || r.timedOut)
      case Cancelled => Cancel
    }

    /**
     * One scheduler pass over the command in the lifecycle state `t`, which
     * has not terminated. A cancellation calls interrupted when the command is
     * running. Otherwise the environment sets the encoder to the pass's
     * reading; the command is initialized on its first pass (it defines no
     * initialize of its own), executed and asked isFinished, and end follows a
     * finished answer. The hooks called are exactly those the lifecycle's step
     * appends for the event the pass produces.
     */
    method OnePass(t: Trace, p: Pass<Reading>) returns (e: Event, called: seq<Hook>)
      requires !Terminated(t.phase)
      modifies arm
      ensures e == EventFor(p)
      ensures Step(t, e).hooks == t.hooks + called
      ensures Terminated(Step(t, e).phase) ==> arm.requested == 0.0
      ensures Step(t, e).phase == Running ==> arm.requested == -speed
    {
      called := [];
      match p {
        case Cancelled =>
          e := Cancel;
          if t.phase == Running {
            Interrupted();
            called := [OnInterrupted];
          }
        case Scheduled(r) =>
          arm.encoderValue := r.encoder;
          if t.phase == Idle {
            called := [OnInitialize];
          }
          Execute();
          called := called + [OnExecute];
          var done := IsFinished(r.timedOut);
          e := Tick(done);
          if done {
            End();
            called := called + [OnEnd];
          }
      }
    }

    /**
     * The scheduler running this command over a sequence of passes, one
     * OnePass each, until it terminates. The events are those the passes
     * produce, the hooks called are those of the lifecycle's run, and a
     * terminated run leaves the arm asked for 0, a running one for the retract
     * speed.
     */
    method Schedule(passes: seq<Pass<Reading>>) returns (events: seq<Event>, hooks: seq<Hook>)
      modifies arm
      ensures |events| <= |passes|
      ensures forall k :: 0 <= k < |events| ==> events[k] == EventFor(passes[k])
      ensures |events| < |passes| ==> Terminated(Run(events).phase)
      ensures hooks == Run(events).hooks
      ensures Terminated(Run(events).phase) ==> arm.requested == 0.0
      ensures Run(events).phase == Running ==> arm.requested == -speed
    {
      var t := Initial;
      events, hooks := [], [];
      while |events| < |passes| && !Terminated(t.phase)
        invariant |events| <= |passes|
        invariant forall k :: 0 <= k < |events| ==> events[k] == EventFor(passes[k])
        invariant t == Run(events) && hooks == t.hooks
        invariant Terminated(t.phase) ==> arm.requested == 0.0
        invariant t.phase == Running ==> arm.requested == -speed
        decreases |passes| - |events|
      {
        var e, called := OnePass(t, passes[|events|]);
        RunExtends(events, e);
        t := Step(t, e);
        events, hooks := events + [e], hooks + called;
      }
    }
  }
}
