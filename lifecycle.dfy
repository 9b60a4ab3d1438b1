/**
 * The life of one scheduled command, as the command framework drives it:
 * on each scheduler pass the command is initialized (first pass only) and
 * executed, then asked whether it is finished; a finished command gets
 * `end`, a cancelled one gets `interrupted`. Which of the hooks a command
 * defines and what each one does is stated by that command's class; here
 * only their order is modelled.
 */
module Lifecycle {
  datatype Phase = Idle | Running | Finished | Interrupted

  /** One scheduler pass, carrying what isFinished answered after execute, or a cancellation. */
  datatype Event = Tick(finished: bool) | Cancel

  datatype Hook = OnInitialize | OnExecute | OnEnd | OnInterrupted

  /** The phase reached and the hooks called so far, oldest first. */
  datatype Trace = Trace(phase: Phase, hooks: seq<Hook>)

  predicate Terminated(p: Phase) {
    p == Finished || p == Interrupted
  }

  predicate IsCleanup(h: Hook) {
    h == OnEnd || h == OnInterrupted
  }

  const Initial: Trace := Trace(Idle, [])

  /** One event. A command cancelled before its first pass was never initialized and gets no hook. */
  function Step(t: Trace, e: Event): (t': Trace)
    ensures Terminated(t.phase) ==> t' == t
    ensures |t.hooks| <= |t'.hooks| && t'.hooks[..|t.hooks|] == t.hooks
  {
    match t.phase
    case Idle =>
      if e.Tick? then
        var started := t.hooks + [OnInitialize, OnExecute];
        if e.finished then Trace(Finished, started + [OnEnd]) else Trace(Running, started)
      else t
    case Running =>
      if e.Tick? then
        if e.finished then Trace(Finished, t.hooks + [OnExecute, OnEnd])
        else Trace(Running, t.hooks + [OnExecute])
      else Trace(Interrupted, t.hooks + [OnInterrupted])
    case Finished => t
    case Interrupted => t
  }

  /** The trace after a sequence of events, starting idle. */
  function Run(events: seq<Event>): Trace
    decreases |events|
  {
    if events == [] then Initial
    else Step(Run(events[..|events| - 1]), events[|events| - 1])
  }

  predicate OnlyExecutes(s: seq<Hook>) {
    forall i :: 0 <= i < |s| ==> s[i] == OnExecute
  }

  /**
   * The shape of every reachable trace: nothing while idle; once started,
   * one initialize, then at least one execute, then, once terminated,
   * exactly one cleanup hook matching the way it terminated.
   */
  predicate WellFormed(t: Trace) {
    var h := t.hooks;
    match t.phase
    case Idle => h == []
    case Running => |h| >= 2 && h[0] == OnInitialize && OnlyExecutes(h[1..])
    case Finished =>
      |h| >= 3 && h[0] == OnInitialize && OnlyExecutes(h[1..|h| - 1]) && h[|h| - 1] == OnEnd
    case Interrupted =>
      |h| >= 3 && h[0] == OnInitialize && OnlyExecutes(h[1..|h| - 1]) && h[|h| - 1] == OnInterrupted
  }

  function CleanupCount(s: seq<Hook>): nat
    decreases |s|
  {
    if s == [] then 0
    else CleanupCount(s[..|s| - 1]) + (if IsCleanup(s[|s| - 1]) then 1 else 0)
  }

  lemma StepPreservesShape(t: Trace, e: Event)
    requires WellFormed(t)
    ensures WellFormed(Step(t, e))
  {
    var h := t.hooks;
    var t' := Step(t, e);
    if t.phase == Running {
      var h' := t'.hooks;
      assert h'[0] == OnInitialize;
      if e.Tick? && e.finished {
        assert h' == (h + [OnExecute]) + [OnEnd];
        assert h'[..|h'| - 1] == h + [OnExecute];
        assert h'[1..|h'| - 1] == h[1..] + [OnExecute];
      } else if e.Tick? {
        assert h' == h + [OnExecute];
        assert h'[1..] == h[1..] + [OnExecute];
      } else {
        assert h' == h + [OnInterrupted];
        assert h'[1..|h'| - 1] == h[1..];
      }
    } else if t.phase == Idle && e.Tick? {
      var h' := t'.hooks;
      assert h == [];
      if e.finished {
        assert h' == [OnInitialize, OnExecute, OnEnd];
        assert h'[1..|h'| - 1] == [OnExecute];
      } else {
        assert h' == [OnInitialize, OnExecute];
        assert h'[1..] == [OnExecute];
      }
    }
  }

  /** Every run of events yields a well-formed trace. */
  lemma {:induction false} RunIsWellFormed(events: seq<Event>)
    ensures WellFormed(Run(events))
  {
    if events != [] {
      RunIsWellFormed(events[..|events| - 1]);
      StepPreservesShape(Run(events[..|events| - 1]), events[|events| - 1]);
    }
  }

  lemma {:induction false} OnlyExecutesHasNoCleanup(s: seq<Hook>)
    requires OnlyExecutes(s)
    ensures CleanupCount(s) == 0
    decreases |s|
  {
    if s != [] {
      OnlyExecutesHasNoCleanup(s[..|s| - 1]);
    }
  }

  /** Cleanup happens exactly once in a terminated run and never before termination. */
  lemma {:induction false} CleanupRunsOnce(events: seq<Event>)
    ensures CleanupCount(Run(events).hooks) == (if Terminated(Run(events).phase) then 1 else 0)
  {
    RunIsWellFormed(events);
    var t := Run(events);
    var h := t.hooks;
    match t.phase
    case Idle =>
    case Running =>
      assert h[..1] == [OnInitialize];
      OnlyExecutesHasNoCleanup(h[1..]);
      PrefixThenRest(h, 1);
      assert CleanupCount(h) == CleanupCount(h[..1]) + CleanupCount(h[1..]);
    case Finished =>
      CleanupAtEnd(h);
    case Interrupted =>
      CleanupAtEnd(h);
  }

  lemma CleanupAtEnd(h: seq<Hook>)
    requires |h| >= 3 && h[0] == OnInitialize && OnlyExecutes(h[1..|h| - 1]) && IsCleanup(h[|h| - 1])
    ensures CleanupCount(h) == 1
  {
    var body := h[..|h| - 1];
    assert body[1..] == h[1..|h| - 1];
    assert body[..1] == [OnInitialize];
    OnlyExecutesHasNoCleanup(body[1..]);
    PrefixThenRest(body, 1);
  }

  /** The cleanup count of a sequence splits over any cut point. */
  lemma {:induction false} PrefixThenRest(s: seq<Hook>, k: nat)
    requires k <= |s|
    ensures CleanupCount(s) == CleanupCount(s[..k]) + CleanupCount(s[k..])
    decreases |s|
  {
    if k < |s| {
      var init := s[..|s| - 1];
      PrefixThenRest(init, k);
      assert init[..k] == s[..k];
      assert init[k..] == s[k..][..|s[k..]| - 1];
    } else {
      assert s[..k] == s;
    }
  }

  /** A terminated command stays terminated and gets no further hook, whatever the scheduler does next. */
  lemma {:induction false} TerminationIsFinal(events: seq<Event>, more: seq<Event>)
    requires Terminated(Run(events).phase)
    ensures Run(events + more) == Run(events)
    decreases |more|
  {
    if more != [] {
      var shorter := more[..|more| - 1];
      assert (events + more)[..|events + more| - 1] == events + shorter;
      TerminationIsFinal(events, shorter);
    } else {
      assert events + more == events;
    }
  }

  /** The last hook of a terminated run is its cleanup: `end` when it finished, `interrupted` when cancelled. */
  lemma LastHookIsCleanup(events: seq<Event>)
    requires Terminated(Run(events).phase)
    ensures |Run(events).hooks| >= 3
    ensures Run(events).hooks[|Run(events).hooks| - 1] ==
              (if Run(events).phase == Finished then OnEnd else OnInterrupted)
  {
    RunIsWellFormed(events);
  }

  predicate NeverReportsFinished(events: seq<Event>) {
    forall i :: 0 <= i < |events| ==> events[i] != Tick(true)
  }

  /** A command whose isFinished never answers true (the teleop commands) never reaches end. */
  lemma {:induction false} NeverFinishedWithoutReport(events: seq<Event>)
    requires NeverReportsFinished(events)
    ensures Run(events).phase != Finished
    ensures OnEnd !in Run(events).hooks
    decreases |events|
  {
    if events != [] {
      var init := events[..|events| - 1];
      assert NeverReportsFinished(init) by {
        forall i | 0 <= i < |init| ensures init[i] != Tick(true) {
          assert init[i] == events[i];
        }
      }
      NeverFinishedWithoutReport(init);
      assert events[|events| - 1] != Tick(true);
    }
  }

  /** One step of the run: the trace after one more event is one more Step. */
  lemma RunExtends(events: seq<Event>, e: Event)
    ensures Run(events + [e]) == Step(Run(events), e)
  {
    assert (events + [e])[..|events + [e]| - 1] == events;
  }

  /**
   * What one scheduler pass offers a command: a pass, with the inputs the
   * command reads on it (sensor readings, the timed-out flag), or a
   * cancellation. Each command's `Schedule` method turns passes into events,
   * taking the `finished` bit of a `Tick` from its own isFinished.
   */
  datatype Pass<I> = Scheduled(inputs: I) | Cancelled

  /** Cancelling a running command interrupts it, and its cleanup is then the last hook run. */
  lemma CancelInterruptsRunning(events: seq<Event>)
    requires Run(events).phase == Running
    ensures Run(events + [Cancel]).phase == Interrupted
    ensures Run(events + [Cancel]).hooks == Run(events).hooks + [OnInterrupted]
  {
    assert (events + [Cancel])[..|events + [Cancel]| - 1] == events;
  }
}
