/** Spins the control panel at a fixed speed for a fixed time. */
module TimedSpinCommand {
  import opened Wrappers
  import opened Devices
  import opened ControlPanelSubsystem
  import opened Completion
  import opened Lifecycle

  /** What one pass reads: the stopwatch and the framework's timed-out flag. */
  datatype Reading = Reading(elapsed: real, timedOut: bool)

  class TimedSpin {
    const controlPanel: ControlPanel
    const duration: real
    const speed: real
    const stopwatch: Stopwatch
    const name: string
    const timeout: Option<real>
    const requirements: set<object>

    constructor (controlPanel: ControlPanel, duration: real, speed: real,
                 name: Option<string> := Some("TimedSpin"), timeout: Option<real> := Some(32.0))
      ensures this.controlPanel == controlPanel && this.duration == duration && this.speed == speed
      ensures fresh(stopwatch) && !stopwatch.running
      ensures this.name == name.GetOr("TimedSpin") && this.timeout == timeout
      ensures requirements == {controlPanel}
    {
      this.controlPanel := controlPanel;
      this.duration := duration;
      this.speed := speed;
      stopwatch := new Stopwatch();
      this.name := name.GetOr("TimedSpin");
      this.timeout := timeout;
      requirements := {controlPanel};
    }

    method Initialize()
      modifies stopwatch
      ensures stopwatch.running && stopwatch.elapsed == 0.0
    {
      stopwatch.Start();
    }

    /** Every pass moves the panel at the configured speed. */
    method Execute()
      requires controlPanel.Valid()
      modifies controlPanel.motor
      ensures controlPanel.enabled ==>
        controlPanel.motor.output == PanelMotorValue(speed, controlPanel.maxSpeed) &&
        controlPanel.motor.writes == old(controlPanel.motor.writes) + 1
      ensures !controlPanel.enabled && controlPanel.motor != null ==>
        controlPanel.motor.output == old(controlPanel.motor.output) &&
        controlPanel.motor.writes == old(controlPanel.motor.writes)
    {
      controlPanel.Move(speed);
    }

    /** Done once the elapsed time reaches the duration, or on timeout. */
    predicate IsFinished(timedOut: bool)
      reads stopwatch
      ensures IsFinished(timedOut) <==> TimeUp(stopwatch.elapsed, duration) || timedOut
    {
      TimeUp(stopwatch.ElapsedTimeInSecs(), duration) || timedOut
    }

    /** Stops the clock and stops the panel. */
    method End()
      requires controlPanel.Valid()
      modifies stopwatch, controlPanel.motor
      ensures !stopwatch.running && stopwatch.elapsed == old(stopwatch.elapsed)
      ensures controlPanel.enabled ==>
        controlPanel.motor.output == 0.0 && controlPanel.motor.writes == old(controlPanel.motor.writes) + 1
      ensures !controlPanel.enabled && controlPanel.motor != null ==>
        controlPanel.motor.output == old(controlPanel.motor.output) &&
        controlPanel.motor.writes == old(controlPanel.motor.writes)
    {
      stopwatch.Stop();
      controlPanel.Move(0.0);
    }

    /** Same effect as End. */
    method Interrupted()
      requires controlPanel.Valid()
      modifies stopwatch, controlPanel.motor
      ensures !stopwatch.running && stopwatch.elapsed == old(stopwatch.elapsed)
      ensures controlPanel.enabled ==>
        controlPanel.motor.output == 0.0 && controlPanel.motor.writes == old(controlPanel.motor.writes) + 1
      ensures !controlPanel.enabled && controlPanel.motor != null ==>
        controlPanel.motor.output == old(controlPanel.motor.output) &&
        controlPanel.motor.writes == old(controlPanel.motor.writes)
    {
      End();
    }

    /** The event a pass produces: whether its time is up or it timed out, or the cancellation. */
    function EventFor(p: Pass<Reading>): (e: Event)
      ensures p.Cancelled? <==> e == Cancel
    {
      match p
      case Scheduled(r) => Tick(TimeUp(r.elapsed, duration) || r.timedOut)
      case Cancelled => Cancel
    }

    /**
     * One scheduler pass over the command in the lifecycle state `t`, which
     * has not terminated. A cancellation calls interrupted when the command is
     * running. Otherwise the command is initialized on its first pass, which
     * starts the clock; the environment then advances the stopwatch to the
     * pass's reading, and the command is executed and asked isFinished; end
     * follows a finished answer. The hooks called are exactly those the
     * lifecycle's step appends for the event the pass produces.
     */
    method OnePass(t: Trace, p: Pass<Reading>) returns (e: Event, called: seq<Hook>)
      requires !Terminated(t.phase) && controlPanel.Valid()
      requires t.phase == Running ==> stopwatch.running
      modifies stopwatch, controlPanel.motor
      ensures e == EventFor(p)
      ensures Step(t, e).hooks == t.hooks + called
      ensures Terminated(Step(t, e).phase) ==> !stopwatch.running && (controlPanel.enabled ==> controlPanel.motor.output == 0.0)
      ensures Step(t, e).phase == Running ==> stopwatch.running && (controlPanel.enabled ==> controlPanel.motor.output == PanelMotorValue(speed, controlPanel.maxSpeed))
    {
      called := [];
      match p {
        case Cancelled =>
          e := Cancel;
          if t.phase == Running {
            Interrupted();
            called := [OnInterrupted];
          }
        case Scheduled(r) =>
          if t.phase == Idle {
            Initialize();
            called := [OnInitialize];
          }
          stopwatch.elapsed := r.elapsed;
          Execute();
          called := called + [OnExecute];
          var done := IsFinished(r.timedOut);
          e := Tick(done);
          if done {
            End();
            called := called + [OnEnd];
          }
      }
    }

    /**
     * The scheduler running this command over a sequence of passes, one
     * OnePass each, until it terminates. The events are those the passes
     * produce, the hooks called are those of the lifecycle's run, and a
     * terminated run leaves an enabled panel's motor at 0 and the clock
     * stopped.
     */
    method Schedule(passes: seq<Pass<Reading>>) returns (events: seq<Event>, hooks: seq<Hook>)
      requires controlPanel.Valid()
      modifies stopwatch, controlPanel.motor
      ensures |events| <= |passes|
      ensures forall k :: 0 <= k < |events| ==> events[k] == EventFor(passes[k])
      ensures |events| < |passes| ==> Terminated(Run(events).phase)
      ensures hooks == Run(events).hooks
      ensures Terminated(Run(events).phase) ==> !stopwatch.running && (controlPanel.enabled ==> controlPanel.motor.output == 0.0)
      ensures Run(events).phase == Running ==>
        stopwatch.running &&
        (controlPanel.enabled ==> controlPanel.motor.output == PanelMotorValue(speed, controlPanel.maxSpeed))
    {
      ghost var spinning := PanelMotorValue(speed, controlPanel.maxSpeed);
      var t := Initial;
      events, hooks := [], [];
      while |events| < |passes| && !Terminated(t.phase)
        invariant |events| <= |passes|
        invariant forall k :: 0 <= k < |events| ==> events[k] == EventFor(passes[k])
        invariant t == Run(events) && hooks == t.hooks
        invariant Terminated(t.phase) ==> !stopwatch.running && (controlPanel.enabled ==> controlPanel.motor.output == 0.0)
        invariant t.phase == Running ==> stopwatch.running && (controlPanel.enabled ==> controlPanel.motor.output == spinning)
        decreases |passes| - |events|
      {
        var e, called := OnePass(t, passes[|events|]);
        RunExtends(events, e);
        t := Step(t, e);
        events, hooks := events + [e], hooks + called;
      }
    }
  }
}
