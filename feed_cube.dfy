/** Feeds cubes at the scoring controller's right-stick speed; a shooting command ends once a cube is held. */
module FeedCubeCommand {
  import opened Wrappers
  import opened FeederSubsystem
  import opened OperatorInput
  import opened Lifecycle

  class FeedCube {
    const feeder: Feeder
    const oi: OI
    const feederSpeed: real
    const name: string
    const timeout: Option<real>
    const requirements: set<object>

    constructor (feeder: Feeder, oi: OI, speed: real := 0.0, name: Option<string> := None,
                 timeout: Option<real> := Some(5.0))
      ensures this.feeder == feeder && this.oi == oi && feederSpeed == speed
      ensures this.name == name.GetOr("FeedCube") && this.timeout == timeout
      ensures requirements == {feeder}
    {
      this.feeder := feeder;
      this.oi := oi;
      feederSpeed := speed;
      this.name := name.GetOr("FeedCube");
      this.timeout := timeout;
      requirements := {feeder};
    }

    /** The scoring right-stick value goes to the feeder unchanged. */
    method Execute()
      requires oi.Valid()
      modifies feeder.motor
      ensures feeder.motor != null ==>
        feeder.motor.output == FeedSpeed(oi.GetAxis(Scoring, oi.axes.rightY), feeder.shootSpeedScale,
                                         feeder.pickupSpeedScale, feeder.HasCube()) &&
        feeder.motor.writes == old(feeder.motor.writes) + 1
    {
      var moveSpeed := oi.GetAxis(Scoring, oi.axes.rightY);
      feeder.FeedCube(moveSpeed);
    }

    /** A command built with a negative speed is done once a cube is held; any other never finishes. */
    predicate IsFinished()
      reads feeder.cubeSwitch
      ensures feederSpeed < 0.0 ==> (IsFinished() <==> feeder.HasCube())
      ensures feederSpeed >= 0.0 ==> !IsFinished()
    {
      if feederSpeed < 0.0 then feeder.HasCube() else false
    }

    /** No actuation. */
    method End()
    {
    }

    /** Same effect as End. */
    method Interrupted()
    {
      End();
    }

    /**
     * The event a pass produces, given what the cube switch reads on it:
     * finished only for a negative speed with a cube held, or the cancellation.
     */
    function EventFor(p: Pass<bool>): (e: Event)
      ensures p.Cancelled? <==> e == Cancel
      ensures feederSpeed >= 0.0 ==> e != Tick(true)
    {
      match p
      case Scheduled(cubeSwitchLevel) =>
        Tick(feederSpeed < 0.0 && feeder.cubeSwitch != null && !cubeSwitchLevel)
      case Cancelled => Cancel
    }

    /**
     * One scheduler pass over the command in the lifecycle state `t`, which
     * has not terminated. A cancellation calls interrupted when the command is
     * running. Otherwise the environment sets the cube switch to the pass's
     * reading; the command is initialized on its first pass (it defines no
     * initialize of its own), executed and asked isFinished, and end, which
     * does nothing, follows a finished answer. The hooks called are exactly
     * those the lifecycle's step appends for the event the pass produces.
     */
    method OnePass(t: Trace, p: Pass<bool>) returns (e: Event, called: seq<Hook>)
      requires !Terminated(t.phase) && oi.Valid()
      requires t.phase != Idle ==> feeder.motor != null ==>
        feeder.motor.output == FeedSpeed(oi.GetAxis(Scoring, oi.axes.rightY), feeder.shootSpeedScale,
                                         feeder.pickupSpeedScale, feeder.HasCube())
      modifies feeder.motor, feeder.cubeSwitch
      ensures e == EventFor(p)
      ensures Step(t, e).hooks == t.hooks + called
      ensures Step(t, e).phase != Idle ==> feeder.motor != null ==>
        feeder.motor.output == FeedSpeed(oi.GetAxis(Scoring, oi.axes.rightY), feeder.shootSpeedScale,
                                         feeder.pickupSpeedScale, feeder.HasCube())
    {
      called := [];
      match p {
        case Cancelled =>
          e := Cancel;
          if t.phase == Running {
            Interrupted();
            called := [OnInterrupted];
          }
        case Scheduled(cubeSwitchLevel) =>
          if feeder.cubeSwitch != null {
            feeder.cubeSwitch.level := cubeSwitchLevel;
          }
          if t.phase == Idle {
            called := [OnInitialize];
          }
          Execute();
          called := called + [OnExecute];
          var done := IsFinished();
          e := Tick(done);
          if done {
            End();
            called := called + [OnEnd];
          }
      }
    }

    /**
     * The scheduler running this command over a sequence of passes, one
     * OnePass each, until it terminates. The events are those the passes
     * produce and the hooks called are those of the lifecycle's run. At the
     * default speed 0.0 the command never reaches end; end and interrupted do
     * nothing, so the feeder keeps the last speed execute gave it.
     */
    method Schedule(passes: seq<Pass<bool>>) returns (events: seq<Event>, hooks: seq<Hook>)
      requires oi.Valid()
      modifies feeder.motor, feeder.cubeSwitch
      ensures |events| <= |passes|
      ensures forall k :: 0 <= k < |events| ==> events[k] == EventFor(passes[k])
      ensures |events| < |passes| ==> Terminated(Run(events).phase)
      ensures hooks == Run(events).hooks
      ensures feederSpeed >= 0.0 ==> Run(events).phase != Finished && OnEnd !in hooks
      ensures Run(events).phase != Idle ==> feeder.motor != null ==>
        feeder.motor.output == FeedSpeed(oi.GetAxis(Scoring, oi.axes.rightY), feeder.shootSpeedScale,
                                         feeder.pickupSpeedScale, feeder.HasCube())
    {
      var t := Initial;
      events, hooks := [], [];
      while |events| < |passes| && !Terminated(t.phase)
        invariant |events| <= |passes|
        invariant forall k :: 0 <= k < |events| ==> events[k] == EventFor(passes[k])
        invariant t == Run(events) && hooks == t.hooks
        invariant t.phase != Idle ==> feeder.motor != null ==>
        feeder.motor.output == FeedSpeed(oi.GetAxis(Scoring, oi.axes.rightY), feeder.shootSpeedScale,
                                         feeder.pickupSpeedScale, feeder.HasCube())
        decreases |passes| - |events|
      {
        var e, called := OnePass(t, passes[|events|]);
        RunExtends(events, e);
        t := Step(t, e);
        events, hooks := events + [e], hooks + called;
      }
      if feederSpeed >= 0.0 {
        NeverFinishedWithoutReport(events);
      }
    }
  }
}
