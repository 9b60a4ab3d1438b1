/**
 * The guard every subsystem applies before it drives a motor: a request that
 * pushes toward an active hard stop is not passed on; any other request is
 * scaled. This module is the reference the subsystem variants are compared with.
 */
module BoundedActuator {
  import opened Devices

  /** True when the request moves toward a hard stop that is currently active. */
  predicate IntoStop(speed: real, upperStop: bool, lowerStop: bool) {
    (speed > 0.0 && upperStop) || (speed < 0.0 && lowerStop)
  }

  /** The reference guard: zero against an active stop, else the scaled request. */
  function Guarded(speed: real, scale: real, upperStop: bool, lowerStop: bool): real {
    if IntoStop(speed, upperStop, lowerStop) then 0.0 else speed * scale
  }

  /** What one call decides about a motor: leave it alone, or write a value. */
  datatype Write = NoWrite | Put(value: real)

  /** The motor's output after a decision, given its output before. */
  function OutputAfter(w: Write, before: real): real {
    match w
    case NoWrite => before
    case Put(v) => v
  }

  /** How many set() calls a decision makes. */
  function WritesOf(w: Write): nat {
    if w.Put? then 1 else 0
  }

  /** A zero request never pushes into a stop, so it always yields output zero. */
  lemma ZeroIsNeverBlocked(scale: real, upperStop: bool, lowerStop: bool)
    ensures !IntoStop(0.0, upperStop, lowerStop)
    ensures Guarded(0.0, scale, upperStop, lowerStop) == 0.0
  {
  }

  /**
   * With a non-negative scale, the guarded output never drives toward an
   * active stop: an active upper stop gives an output <= 0, an active lower
   * stop an output >= 0.
   */
  lemma GuardedNeverPushesIntoStop(speed: real, scale: real, upperStop: bool, lowerStop: bool)
    requires scale >= 0.0
    ensures upperStop ==> Guarded(speed, scale, upperStop, lowerStop) <= 0.0
    ensures lowerStop ==> Guarded(speed, scale, upperStop, lowerStop) >= 0.0
  {
    if !IntoStop(speed, upperStop, lowerStop) {
      if upperStop {
        assert speed <= 0.0;
        assert speed * scale <= 0.0 * scale;
      }
      if lowerStop {
        assert speed >= 0.0;
        assert speed * scale >= 0.0 * scale;
      }
    }
  }
}
