/** Runs the feeder at a fixed speed for a fixed time. */
module ShootLoadCommand {
  import opened Wrappers
  import opened Devices
  import opened FeederSubsystem
  import opened Completion
  import opened Lifecycle

  class ShootLoad {
    const feeder: Feeder
    const duration: real
    const speed: real
    const stopwatch: Stopwatch
    const name: string
    const timeout: Option<real>
    const requirements: set<object>

    constructor (feeder: Feeder, duration: real, speed: real := 0.0,
                 name: Option<string> := None, timeout: Option<real> := Some(5.0))
      ensures this.feeder == feeder && this.duration == duration && this.speed == speed
      ensures fresh(stopwatch) && !stopwatch.running
      ensures this.name == name.GetOr("ShootLoad") && this.timeout == timeout
      ensures requirements == {feeder}
    {
      this.feeder := feeder;
      this.duration := duration;
      this.speed := speed;
      stopwatch := new Stopwatch();
      this.name := name.GetOr("ShootLoad");
      this.timeout := timeout;
      requirements := {feeder};
    }

    method Initialize()
      modifies stopwatch
      ensures stopwatch.running && stopwatch.elapsed == 0.0
    {
      stopwatch.Start();
    }

    /** Every pass feeds at the configured speed. */
    method Execute()
      modifies feeder.motor
      ensures feeder.motor != null ==>
        feeder.motor.output == FeedSpeed(speed, feeder.shootSpeedScale, feeder.pickupSpeedScale, feeder.HasCube()) &&
        feeder.motor.writes == old(feeder.motor.writes) + 1
    {
      feeder.FeedCube(speed);
    }

    /** Done once the elapsed time reaches the duration; the timeout plays no part. */
    predicate IsFinished()
      reads stopwatch
      ensures IsFinished() <==> TimeUp(stopwatch.elapsed, duration)
    {
      TimeUp(stopwatch.ElapsedTimeInSecs(), duration)
    }

    /** Stops the clock and the feeder: feeding at 0.0 always writes 0. */
    method End()
      modifies stopwatch, feeder.motor
      ensures !stopwatch.running && stopwatch.elapsed == old(stopwatch.elapsed)
      ensures feeder.motor != null ==>
        feeder.motor.output == 0.0 && feeder.motor.writes == old(feeder.motor.writes) + 1
    {
      stopwatch.Stop();
      feeder.FeedCube(0.0);
    }

    /** Same effect as End. */
    method Interrupted()
      modifies stopwatch, feeder.motor
      ensures !stopwatch.running && stopwatch.elapsed == old(stopwatch.elapsed)
      ensures feeder.motor != null ==>
        feeder.motor.output == 0.0 && feeder.motor.writes == old(feeder.motor.writes) + 1
    {
      End();
    }

    /** The event a pass produces: whether its stopwatch reading has reached the duration, or the cancellation. */
    function EventFor(p: Pass<real>): (e: Event)
      ensures p.Cancelled? <==> e == Cancel
      ensures p.Scheduled? ==> (e.finished <==> TimeUp(p.inputs, duration))
    {
      match p
      case Scheduled(elapsed) => Tick(TimeUp(elapsed, duration))
      case Cancelled => Cancel
    }

    /**
     * One scheduler pass over the command in the lifecycle state `t`, which
     * has not terminated. A cancellation calls interrupted when the command is
     * running. Otherwise the command is initialized on its first pass, which
     * starts the clock; the environment then advances the stopwatch to the
     * pass's reading, and the command is executed and asked isFinished; end
     * follows a finished answer. The hooks called are exactly those the
     * lifecycle's step appends for the event the pass produces.
     */
    method OnePass(t: Trace, p: Pass<real>) returns (e: Event, called: seq<Hook>)
      requires !Terminated(t.phase)
      requires t.phase == Running ==> stopwatch.running
      modifies stopwatch, feeder.motor
      ensures e == EventFor(p)
      ensures Step(t, e).hooks == t.hooks + called
      ensures Terminated(Step(t, e).phase) ==> !stopwatch.running && (feeder.motor != null ==> feeder.motor.output == 0.0)
      ensures Step(t, e).phase == Running ==> stopwatch.running && (feeder.motor != null ==> feeder.motor.output == FeedSpeed(speed, feeder.shootSpeedScale, feeder.pickupSpeedScale, feeder.HasCube()))
    {
      called := [];
      match p {
        case Cancelled =>
          e := Cancel;
          if t.phase == Running {
            Interrupted();
            called := [OnInterrupted];
          }
        case Scheduled(elapsed) =>
          if t.phase == Idle {
            Initialize();
            called := [OnInitialize];
          }
          stopwatch.elapsed := elapsed;
          Execute();
          called := called + [OnExecute];
          var done := IsFinished();
          e := Tick(done);
          if done {
            End();
            called := called + [OnEnd];
          }
      }
    }

    /**
     * The scheduler running this command over a sequence of passes, one
     * OnePass each, until it terminates. The events are those the passes
     * produce, the hooks called are those of the lifecycle's run, and a
     * terminated run leaves the feeder motor at 0 and the clock stopped.
     */
    method Schedule(passes: seq<Pass<real>>) returns (events: seq<Event>, hooks: seq<Hook>)
      modifies stopwatch, feeder.motor
      ensures |events| <= |passes|
      ensures forall k :: 0 <= k < |events| ==> events[k] == EventFor(passes[k])
      ensures |events| < |passes| ==> Terminated(Run(events).phase)
      ensures hooks == Run(events).hooks
      ensures Terminated(Run(events).phase) ==> !stopwatch.running && (feeder.motor != null ==> feeder.motor.output == 0.0)
      ensures Run(events).phase == Running ==>
        stopwatch.running &&
        (feeder.motor != null ==>
           feeder.motor.output == FeedSpeed(speed, feeder.shootSpeedScale, feeder.pickupSpeedScale, feeder.HasCube()))
    {
      ghost var feeding := FeedSpeed(speed, feeder.shootSpeedScale, feeder.pickupSpeedScale, feeder.HasCube());
      var t := Initial;
      events, hooks := [], [];
      while |events| < |passes| && !Terminated(t.phase)
        invariant |events| <= |passes|
        invariant forall k :: 0 <= k < |events| ==> events[k] == EventFor(passes[k])
        invariant t == Run(events) && hooks == t.hooks
        invariant Terminated(t.phase) ==> !stopwatch.running && (feeder.motor != null ==> feeder.motor.output == 0.0)
        invariant t.phase == Running ==> stopwatch.running && (feeder.motor != null ==> feeder.motor.output == feeding)
        decreases |passes| - |events|
      {
        var e, called := OnePass(t, passes[|events|]);
        RunExtends(events, e);
        t := Step(t, e);
        events, hooks := events + [e], hooks + called;
      }
    }
  }
}
