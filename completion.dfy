/** The completion rule shared by the timed commands. */
module Completion {
  /** A timed command is done once its stopwatch reads at least its duration; the boundary itself counts. */
  predicate TimeUp(elapsed: real, duration: real) {
    elapsed >= duration
  }

  /** Time only moves forward, so a timed command that is done stays done. */
  lemma TimeUpStaysUp(duration: real, earlier: real, later: real)
    requires earlier <= later && TimeUp(earlier, duration)
    ensures TimeUp(later, duration)
  {
  }

  /** The comparison is inclusive: done exactly at the duration, not before it. */
  lemma TimeUpAtDuration(duration: real, early: real)
    requires early < duration
    ensures TimeUp(duration, duration)
    ensures !TimeUp(early, duration)
  {
  }
}
