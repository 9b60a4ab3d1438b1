/** Runs the shooter at full request while the command runs. */
module ShootCommand {
  import opened Wrappers
  import opened ShooterSubsystem
  import opened Lifecycle

  class Shoot {
    const shooter: Shooter
    const name: string
    const timeout: Option<real>
    const requirements: set<object>

    constructor (shooter: Shooter, name: Option<string> := Some("Shoot"), timeout: Option<real> := Some(15.0))
      ensures this.shooter == shooter
      ensures this.name == name.GetOr("Shoot") && this.timeout == timeout
      ensures requirements == {shooter}
    {
      this.shooter := shooter;
      this.name := name.GetOr("Shoot");
      this.timeout := timeout;
      requirements := {shooter};
    }

    method Execute()
      modifies shooter.motor
      ensures shooter.motor != null ==>
        shooter.motor.output == shooter.maxSpeed && shooter.motor.writes == old(shooter.motor.writes) + 1
    {
      var _ := shooter.Move(1.0);
    }

    predicate IsFinished() {
      false
    }

    method End()
      modifies shooter.motor
      ensures shooter.motor != null ==>
        shooter.motor.output == 0.0 && shooter.motor.writes == old(shooter.motor.writes) + 1
    {
      var _ := shooter.Move(0.0);
    }

    /** Same effect as End. */
    method Interrupted()
      modifies shooter.motor
      ensures shooter.motor != null ==>
        shooter.motor.output == 0.0 && shooter.motor.writes == old(shooter.motor.writes) + 1
    {
      End();
    }

    /** The event a pass produces: isFinished always answers false, so a pass never ends the command. */
    function EventFor(p: Pass<()>): (e: Event)
      ensures e != Tick(true)
    {
      match p
      case Scheduled(_) => Tick(IsFinished())
      case Cancelled => Cancel
    }

    /**
     * One scheduler pass over the command in the lifecycle state `t`, which
     * has not terminated. A cancellation calls interrupted when the command is
     * running. Otherwise the command is initialized on its first pass (it
     * defines no initialize of its own), executed and asked isFinished, which
     * never answers true. The hooks called are exactly those the lifecycle's
     * step appends for the event the pass produces.
     */
    method OnePass(t: Trace, p: Pass<()>) returns (e: Event, called: seq<Hook>)
      requires !Terminated(t.phase)
      modifies shooter.motor
      ensures e == EventFor(p)
      ensures Step(t, e).hooks == t.hooks + called
      ensures Terminated(Step(t, e).phase) ==> shooter.motor != null ==> shooter.motor.output == 0.0
      ensures Step(t, e).phase == Running ==> shooter.motor != null ==> shooter.motor.output == shooter.maxSpeed
    {
      called := [];
      match p {
        case Cancelled =>
          e := Cancel;
          if t.phase == Running {
            Interrupted();
            called := [OnInterrupted];
          }
        case Scheduled(_) =>
          if t.phase == Idle {
            called := [OnInitialize];
          }
          Execute();
          called := called + [OnExecute];
          e := Tick(IsFinished());
      }
    }

    /**
     * The scheduler running this command over a sequence of passes, one
     * OnePass each, until it is cancelled: isFinished never answers true, so
     * end is never called. The hooks called are those of the lifecycle's run,
     * and the shooter runs at its maximum speed while the command runs and is
     * at 0 once it is interrupted.
     */
    method Schedule(passes: seq<Pass<()>>) returns (events: seq<Event>, hooks: seq<Hook>)
      modifies shooter.motor
      ensures |events| <= |passes|
      ensures forall k :: 0 <= k < |events| ==> events[k] == EventFor(passes[k])
      ensures |events| < |passes| ==> Terminated(Run(events).phase)
      ensures hooks == Run(events).hooks
      ensures Run(events).phase != Finished && OnEnd !in hooks
      ensures Terminated(Run(events).phase) ==> shooter.motor != null ==> shooter.motor.output == 0.0
      ensures Run(events).phase == Running ==> shooter.motor != null ==> shooter.motor.output == shooter.maxSpeed
    {
      var t := Initial;
      events, hooks := [], [];
      while |events| < |passes| && !Terminated(t.phase)
        invariant |events| <= |passes|
        invariant forall k :: 0 <= k < |events| ==> events[k] == EventFor(passes[k])
        invariant t == Run(events) && hooks == t.hooks
        invariant Terminated(t.phase) ==> shooter.motor != null ==> shooter.motor.output == 0.0
        invariant t.phase == Running ==> shooter.motor != null ==> shooter.motor.output == shooter.maxSpeed
        decreases |passes| - |events|
      {
        var e, called := OnePass(t, passes[|events|]);
        RunExtends(events, e);
        t := Step(t, e);
        events, hooks := events + [e], hooks + called;
      }
      NeverFinishedWithoutReport(events);
    }
  }
}
