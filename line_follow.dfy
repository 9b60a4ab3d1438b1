/**
 * Follows a floor line with five sensors, steering by the first sensor
 * (from the far left) that sees the line; without five sensors it stops.
 */
module LineFollowCommand {
  import opened Wrappers
  import opened Devices
  import opened DrivetrainSubsystem
  import opened Lifecycle

  /** The index of the first active reading, if any. */
  function FirstActive(readings: seq<bool>): (r: Option<nat>)
    ensures r.Some? ==> r.value < |readings| && readings[r.value]
    ensures r.Some? ==> forall j :: 0 <= j < r.value ==> !readings[j]
    ensures r.None? <==> forall j :: 0 <= j < |readings| ==> !readings[j]
    decreases |readings|
  {
    if readings == [] then None
    else if readings[0] then Some(0)
    else match FirstActive(readings[1..])
      case None => None
      case Some(k) => Some(k + 1)
  }

  /**
   * The steering table, by the position of the first active sensor in the
   * order far left, left, center, right, far right: (forward speed, turn).
   */
  function Steering(first: Option<nat>, speed: real): (real, real)
  {
    match first
    case Some(0) => (0.0, -0.2)
    case Some(1) => (speed, -0.1)
    case Some(2) => (speed, 0.0)
    case Some(3) => (speed, 0.1)
    case Some(4) => (0.0, 0.2)
    case _ => (0.0, 0.3)
  }

  /** Only the three inner sensors let the robot move forward; the far sensors and "none" turn in place. */
  lemma ForwardOnlyOnInnerSensors(readings: seq<bool>, speed: real)
    requires |readings| == 5
    ensures Steering(FirstActive(readings), speed).0 != 0.0 ==>
              speed != 0.0 && (readings[1] || readings[2] || readings[3]) && !readings[0]
    ensures (readings[1] || readings[2] || readings[3]) && !readings[0] ==>
              Steering(FirstActive(readings), speed).0 == speed
  {
  }

  /** The turn is to the left exactly when a left-hand sensor is the first to see the line. */
  lemma TurnsTowardTheLine(readings: seq<bool>, speed: real)
    requires |readings| == 5
    ensures Steering(FirstActive(readings), speed).1 < 0.0 <==> readings[0] || readings[1]
    ensures Steering(FirstActive(readings), speed).1 == 0.0 <==> !readings[0] && !readings[1] && readings[2]
  {
  }

  /** The latch after one execute: it is set by any reading count other than five and never cleared. */
  function Latch(finished: bool, readingCount: nat): bool {
    finished || readingCount != 5
  }

  /** The latch after a sequence of executes with the given reading counts. */
  function LatchAfter(finished: bool, counts: seq<nat>): bool
    decreases |counts|
  {
    if counts == [] then finished
    else Latch(LatchAfter(finished, counts[..|counts| - 1]), counts[|counts| - 1])
  }

  /** After any run of executes the latch is set exactly when it started set or some pass lacked five readings. */
  lemma {:induction false} LatchAfterIsAnyShortPass(finished: bool, counts: seq<nat>)
    ensures LatchAfter(finished, counts) <==> finished || exists i :: 0 <= i < |counts| && counts[i] != 5
    decreases |counts|
  {
    if counts != [] {
      var init := counts[..|counts| - 1];
      LatchAfterIsAnyShortPass(finished, init);
      if exists i :: 0 <= i < |init| && init[i] != 5 {
        var i :| 0 <= i < |init| && init[i] != 5;
        assert counts[i] == init[i];
      }
      if exists i :: 0 <= i < |counts| && counts[i] != 5 {
        var i :| 0 <= i < |counts| && counts[i] != 5;
        if i < |init| {
          assert init[i] == counts[i];
        }
      }
    }
  }

  /** Once set, the latch stays set whatever follows. */
  lemma {:induction false} LatchNeverClears(counts: seq<nat>)
    ensures LatchAfter(true, counts)
    decreases |counts|
  {
    if counts != [] {
      LatchNeverClears(counts[..|counts| - 1]);
    }
  }

  class LineFollow {
    const drivetrain: Drivetrain
    const speed: real
    var finished: bool
    const name: string
    const timeout: Option<real>
    const requirements: set<object>

    constructor (drivetrain: Drivetrain, speed: real, name: Option<string> := None,
                 timeout: Option<real> := Some(15.0))
      ensures this.drivetrain == drivetrain && this.speed == speed && !finished
      ensures this.name == name.GetOr("LineFollow") && this.timeout == timeout
      ensures requirements == {drivetrain}
    {
      this.drivetrain := drivetrain;
      this.speed := speed;
      finished := false;
      this.name := name.GetOr("LineFollow");
      this.timeout := timeout;
      requirements := {drivetrain};
    }

    /**
     * With five readings, drives by the steering table (no squaring) and
     * leaves the latch alone; with any other number, sets the latch and
     * makes no drive call.
     */
    method Execute()
      requires drivetrain.Valid()
      modifies this`finished, drivetrain.drive, drivetrain`gyroAngle, drivetrain`sonarDistance
      ensures var readings := drivetrain.GetLineFollowState();
        finished == Latch(old(finished), |readings|) &&
        (|readings| == 5 && drivetrain.drive != null ==>
           var (linear, turn) := Steering(FirstActive(readings), speed);
           drivetrain.drive.calls == old(drivetrain.drive.calls) + [Arcade(linear, -turn, false)]) &&
        (|readings| != 5 ==>
           drivetrain.gyroAngle == old(drivetrain.gyroAngle) &&
           drivetrain.sonarDistance == old(drivetrain.sonarDistance) &&
           (drivetrain.drive != null ==> drivetrain.drive.calls == old(drivetrain.drive.calls)))
    {
      var lineSensors := drivetrain.GetLineFollowState();
      if |lineSensors| == 5 {
        if lineSensors[0] {
          drivetrain.ArcadeDrive(0.0, -0.2, false);
        } else if lineSensors[1] {
          drivetrain.ArcadeDrive(speed, -0.1, false);
        } else if lineSensors[2] {
          drivetrain.ArcadeDrive(speed, 0.0, false);
        } else if lineSensors[3] {
          drivetrain.ArcadeDrive(speed, 0.1, false);
        } else if lineSensors[4] {
          drivetrain.ArcadeDrive(0.0, 0.2, false);
        } else {
          drivetrain.ArcadeDrive(0.0, 0.3, false);
        }
      } else {
        finished := true;
      }
    }

    predicate IsFinished()
      reads this
      ensures IsFinished() <==> finished
    {
      finished
    }

    /** Drives (0, 0) without squaring. */
    method End()
      modifies drivetrain.drive, drivetrain`gyroAngle, drivetrain`sonarDistance
      ensures drivetrain.drive != null ==>
        drivetrain.drive.calls == old(drivetrain.drive.calls) + [Arcade(0.0, 0.0, false)]
    {
      drivetrain.ArcadeDrive(0.0, 0.0, false);
    }

    /** Same effect as End. */
    method Interrupted()
      modifies drivetrain.drive, drivetrain`gyroAngle, drivetrain`sonarDistance
      ensures drivetrain.drive != null ==>
        drivetrain.drive.calls == old(drivetrain.drive.calls) + [Arcade(0.0, 0.0, false)]
    {
      End();
    }

    /** The last drive call, if there is a drive, is (0, 0) without squaring. */
    predicate LastDriveStops()
      reads drivetrain.drive
    {
      drivetrain.drive != null ==>
        |drivetrain.drive.calls| > 0 &&
        drivetrain.drive.calls[|drivetrain.drive.calls| - 1] == Arcade(0.0, 0.0, false)
    }

    /**
     * The event a pass produces when the latch after execute is `latched`,
     * or the cancellation.
     */
    function EventFor(p: Pass<()>, latched: bool): (e: Event)
      ensures p.Cancelled? <==> e == Cancel
    {
      match p
      case Scheduled(_) => Tick(latched)
      case Cancelled => Cancel
    }

    /**
     * One scheduler pass over the command in the lifecycle state `t`, which
     * has not terminated. A cancellation calls interrupted when the command is
     * running. Otherwise the command is initialized on its first pass (it
     * defines no initialize of its own), executed and asked isFinished, and
     * end follows a finished answer. The line sensors read what the
     * environment leaves them at; only their number decides the latch. The
     * hooks called are exactly those the lifecycle's step appends for the
     * event the pass produces.
     */
    method OnePass(t: Trace, p: Pass<()>) returns (e: Event, called: seq<Hook>)
      requires !Terminated(t.phase) && drivetrain.Valid()
      modifies this`finished, drivetrain.drive, drivetrain`gyroAngle, drivetrain`sonarDistance
      ensures e == EventFor(p, Latch(old(finished), |drivetrain.GetLineFollowState()|))
      ensures Step(t, e).hooks == t.hooks + called
      ensures Terminated(Step(t, e).phase) ==> LastDriveStops()
      ensures finished == (if p.Scheduled? then Latch(old(finished), |drivetrain.GetLineFollowState()|) else old(finished))
    {
      called := [];
      match p {
        case Cancelled =>
          e := Cancel;
          if t.phase == Running {
            Interrupted();
            called := [OnInterrupted];
          }
        case Scheduled(_) =>
          if t.phase == Idle {
            called := [OnInitialize];
          }
          Execute();
          called := called + [OnExecute];
          var done := IsFinished();
          e := Tick(done);
          if done {
            End();
            called := called + [OnEnd];
          }
      }
    }

    /**
     * The scheduler running this command over a sequence of passes, one
     * OnePass each, until it terminates. The events are those the passes
     * produce, the hooks called are those of the lifecycle's run, and a
     * terminated run's last drive call is (0, 0) without squaring.
     */
    method Schedule(passes: seq<Pass<()>>) returns (events: seq<Event>, hooks: seq<Hook>)
      requires drivetrain.Valid()
      modifies this`finished, drivetrain.drive, drivetrain`gyroAngle, drivetrain`sonarDistance
      ensures |events| <= |passes|
      ensures forall k :: 0 <= k < |events| ==> events[k] == EventFor(passes[k], Latch(old(finished), |drivetrain.GetLineFollowState()|))
      ensures |events| < |passes| ==> Terminated(Run(events).phase)
      ensures hooks == Run(events).hooks
      ensures Terminated(Run(events).phase) ==> LastDriveStops()
      ensures Run(events).phase != Idle ==> finished == Latch(old(finished), |drivetrain.GetLineFollowState()|)
    {
      ghost var latched := Latch(finished, |drivetrain.GetLineFollowState()|);
      var t := Initial;
      events, hooks := [], [];
      while |events| < |passes| && !Terminated(t.phase)
        invariant |events| <= |passes|
        invariant forall k :: 0 <= k < |events| ==> events[k] == EventFor(passes[k], latched)
        invariant t == Run(events) && hooks == t.hooks
        invariant Terminated(t.phase) ==> LastDriveStops()
        invariant latched == Latch(old(finished), |drivetrain.GetLineFollowState()|)
        invariant t.phase == Idle ==> finished == old(finished)
        invariant t.phase != Idle ==> finished == latched
        decreases |passes| - |events|
      {
        var e, called := OnePass(t, passes[|events|]);
        RunExtends(events, e);
        t := Step(t, e);
        events, hooks := events + [e], hooks + called;
      }
    }
  }
}
