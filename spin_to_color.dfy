/** Spins the control panel until the colour the game message asks for is under the scoring sensor. */
module SpinToColorCommand {
  import opened Wrappers
  import opened ControlPanelSubsystem
  import opened Lifecycle

  /** The game message is a single character naming the target colour; it is empty until stage 3. */
  const ColorTargetMap: map<string, PanelColor> :=
    map["" := NoColor, "R" := Red, "G" := Green, "B" := Blue, "Y" := Yellow]

  /** The colour a game message asks for, if the message is one the map knows. */
  function TargetFor(message: string): (c: Option<PanelColor>)
    ensures c.Some? <==> message in {"", "R", "G", "B", "Y"}
    ensures c == Some(NoColor) <==> message == ""
    ensures c == Some(Red) <==> message == "R"
    ensures c == Some(Green) <==> message == "G"
    ensures c == Some(Blue) <==> message == "B"
    ensures c == Some(Yellow) <==> message == "Y"
  {
    if message in ColorTargetMap then Some(ColorTargetMap[message]) else None
  }

  /** Every colour is asked for by exactly one message. */
  lemma EveryColorHasOneMessage(c: PanelColor)
    ensures exists m :: TargetFor(m) == Some(c)
    ensures forall m1, m2 :: TargetFor(m1) == Some(c) && TargetFor(m2) == Some(c) ==> m1 == m2
  {
    match c
    case NoColor => assert TargetFor("") == Some(c);
    case Red => assert TargetFor("R") == Some(c);
    case Green => assert TargetFor("G") == Some(c);
    case Blue => assert TargetFor("B") == Some(c);
    case Yellow => assert TargetFor("Y") == Some(c);
  }

  /** What one pass reads: the game message, the colour sensor's match result and the timed-out flag. */
  datatype Reading = Reading(gameMessage: string, matchResult: Color, timedOut: bool)

  class SpinToColor {
    const controlPanel: ControlPanel
    const speed: real
    var targetColor: PanelColor
    const name: string
    const timeout: Option<real>
    const requirements: set<object>

    constructor (controlPanel: ControlPanel, speed: real,
                 name: Option<string> := Some("SpinToColor"), timeout: Option<real> := Some(16.0))
      ensures this.controlPanel == controlPanel && this.speed == speed && targetColor == NoColor
      ensures this.name == name.GetOr("SpinToColor") && this.timeout == timeout
      ensures requirements == {controlPanel}
    {
      this.controlPanel := controlPanel;
      this.speed := speed;
      targetColor := NoColor;
      this.name := name.GetOr("SpinToColor");
      this.timeout := timeout;
      requirements := {controlPanel};
    }

    /** Takes the target from the game message; a message the map does not know keeps the old target. */
    method Initialize(gameMessage: string)
      modifies this`targetColor
      ensures targetColor == TargetFor(gameMessage).GetOr(old(targetColor))
    {
      if gameMessage in ColorTargetMap {
        targetColor := ColorTargetMap[gameMessage];
      }
    }

    method Execute()
      requires controlPanel.Valid()
      modifies controlPanel.motor
      ensures controlPanel.enabled ==>
        controlPanel.motor.output == PanelMotorValue(speed, controlPanel.maxSpeed) &&
        controlPanel.motor.writes == old(controlPanel.motor.writes) + 1
      ensures !controlPanel.enabled && controlPanel.motor != null ==>
        controlPanel.motor.output == old(controlPanel.motor.output) &&
        controlPanel.motor.writes == old(controlPanel.motor.writes)
    {
      controlPanel.Move(speed);
    }

    /**
     * Done at once when there is no target; otherwise once the scored
     * colour of the current reading is the target, or on timeout.
     */
    predicate IsFinished(matchResult: Color, timedOut: bool)
      requires controlPanel.Valid()
      reads this
      ensures targetColor == NoColor ==> IsFinished(matchResult, timedOut)
      ensures targetColor != NoColor ==> (IsFinished(matchResult, timedOut) <==>
        timedOut || (controlPanel.enabled &&
          controlPanel.scoringMap[MatchedColor(matchResult, controlPanel.redTarget, controlPanel.blueTarget,
                                               controlPanel.yellowTarget, controlPanel.greenTarget)] == targetColor))
    {
      FinishedFor(targetColor, matchResult, timedOut)
    }

    /** What isFinished answers when the target is `target`. */
    predicate FinishedFor(target: PanelColor, matchResult: Color, timedOut: bool)
      requires controlPanel.Valid()
    {
      var currentColor := controlPanel.GetCurrentColor(matchResult);
      target == NoColor || controlPanel.GetScoredColor(currentColor) == target || timedOut
    }

    /** With the panel disabled and a real target, only the timeout ends the command. */
    lemma DisabledPanelWaitsForTimeout(matchResult: Color, timedOut: bool)
      requires controlPanel.Valid() && !controlPanel.enabled && targetColor != NoColor
      ensures IsFinished(matchResult, timedOut) <==> timedOut
    {
    }

    method End()
      requires controlPanel.Valid()
      modifies controlPanel.motor
      ensures controlPanel.enabled ==>
        controlPanel.motor.output == 0.0 && controlPanel.motor.writes == old(controlPanel.motor.writes) + 1
      ensures !controlPanel.enabled && controlPanel.motor != null ==>
        controlPanel.motor.output == old(controlPanel.motor.output) &&
        controlPanel.motor.writes == old(controlPanel.motor.writes)
    {
      controlPanel.Move(0.0);
    }

    /** Same effect as End. */
    method Interrupted()
      requires controlPanel.Valid()
      modifies controlPanel.motor
      ensures controlPanel.enabled ==>
        controlPanel.motor.output == 0.0 && controlPanel.motor.writes == old(controlPanel.motor.writes) + 1
      ensures !controlPanel.enabled && controlPanel.motor != null ==>
        controlPanel.motor.output == old(controlPanel.motor.output) &&
        controlPanel.motor.writes == old(controlPanel.motor.writes)
    {
      End();
    }

    /** The event a pass produces: what isFinished answers for its readings and the target, or the cancellation. */
    function EventFor(p: Pass<Reading>, target: PanelColor): (e: Event)
      requires controlPanel.Valid()
      ensures p.Cancelled? <==> e == Cancel
    {
      match p
      case Scheduled(r) => Tick(FinishedFor(target, r.matchResult, r.timedOut))
      case Cancelled => Cancel
    }

    /**
     * One scheduler pass over the command in the lifecycle state `t`, which
     * has not terminated. A cancellation calls interrupted when the command is
     * running. Otherwise the command is initialized on its first pass, which
     * takes the target from the pass's game message; it is then executed and
     * asked isFinished with the pass's match result and timed-out flag, and
     * end follows a finished answer. The hooks called are exactly those the
     * lifecycle's step appends for the event the pass produces.
     */
    method OnePass(t: Trace, p: Pass<Reading>) returns (e: Event, called: seq<Hook>)
      requires !Terminated(t.phase) && controlPanel.Valid()
      modifies this`targetColor, controlPanel.motor
      ensures e == EventFor(p, targetColor)
      ensures Step(t, e).hooks == t.hooks + called
      ensures Terminated(Step(t, e).phase) ==> controlPanel.enabled ==> controlPanel.motor.output == 0.0
      ensures Step(t, e).phase == Running ==> controlPanel.enabled ==> controlPanel.motor.output == PanelMotorValue(speed, controlPanel.maxSpeed)
      ensures t.phase == Idle && p.Scheduled? ==> targetColor == TargetFor(p.inputs.gameMessage).GetOr(old(targetColor))
      ensures !(t.phase == Idle && p.Scheduled?) ==> targetColor == old(targetColor)
    {
      called := [];
      match p {
        case Cancelled =>
          e := Cancel;
          if t.phase == Running {
            Interrupted();
            called := [OnInterrupted];
          }
        case Scheduled(r) =>
          if t.phase == Idle {
            Initialize(r.gameMessage);
            called := [OnInitialize];
          }
          Execute();
          called := called + [OnExecute];
          var done := IsFinished(r.matchResult, r.timedOut);
          e := Tick(done);
          if done {
            End();
            called := called + [OnEnd];
          }
      }
    }

    /**
     * The scheduler running this command over a sequence of passes, one
     * OnePass each, until it terminates. The events are those the passes
     * produce, the hooks called are those of the lifecycle's run, and a
     * terminated run leaves an enabled panel's motor at 0. Every pass's event
     * is judged against the target the first scheduled pass set, which OnePass
     * states.
     */
    method Schedule(passes: seq<Pass<Reading>>) returns (events: seq<Event>, hooks: seq<Hook>)
      requires controlPanel.Valid()
      modifies this`targetColor, controlPanel.motor
      ensures |events| <= |passes|
      ensures forall k :: 0 <= k < |events| ==> events[k] == EventFor(passes[k], targetColor)
      ensures |events| < |passes| ==> Terminated(Run(events).phase)
      ensures hooks == Run(events).hooks
      ensures Terminated(Run(events).phase) ==> controlPanel.enabled ==> controlPanel.motor.output == 0.0
      ensures Run(events).phase == Running ==> controlPanel.enabled ==> controlPanel.motor.output == PanelMotorValue(speed, controlPanel.maxSpeed)
    {
      ghost var spinning := PanelMotorValue(speed, controlPanel.maxSpeed);
      var t := Initial;
      events, hooks := [], [];
      while |events| < |passes| && !Terminated(t.phase)
        invariant |events| <= |passes|
        invariant forall k :: 0 <= k < |events| ==> events[k] == EventFor(passes[k], targetColor)
        invariant t == Run(events) && hooks == t.hooks
        invariant Terminated(t.phase) ==> controlPanel.enabled ==> controlPanel.motor.output == 0.0
        invariant t.phase == Running ==> controlPanel.enabled ==> controlPanel.motor.output == spinning
        invariant t.phase == Idle ==> forall k :: 0 <= k < |events| ==> passes[k].Cancelled?
        decreases |passes| - |events|
      {
        var e, called := OnePass(t, passes[|events|]);
        RunExtends(events, e);
        t := Step(t, e);
        events, hooks := events + [e], hooks + called;
      }
    }
  }
}
