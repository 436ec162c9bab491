/**
 The host clock: the factor that turns seconds into `mach_absolute_time` ticks, derived
 from the platform timebase, and the two directions in which the program uses it.
 */
module HostClock {

  const NanosecondsPerSecond: real := 1_000_000_000.0

  /** The `mach_timebase_info` pair: `numer / denom` nanoseconds per tick. */
  datatype Timebase = Timebase(numer: nat, denom: nat)

  /**
   `calculateSecondsToTicks`: `denom / numer * 1e9` ticks per second. The platform
   never reports a zero numerator; division by it is not modelled.
   */
  function SecondsToTicksFactor(tb: Timebase): (f: real)
    requires tb.numer > 0
    ensures f * tb.numer as real == tb.denom as real * NanosecondsPerSecond
    ensures tb.denom > 0 ==> f > 0.0
    ensures tb.denom == 0 ==> f == 0.0
    ensures tb.numer == tb.denom ==> f == NanosecondsPerSecond
  {
    tb.denom as real / tb.numer as real * NanosecondsPerSecond
  }

  /** Seconds covered by a tick delta: the direction of the sample-offset computation. */
  function TicksToSeconds(ticks: real, f: real): real
    requires f != 0.0
  {
    ticks / f
  }

  /** Ticks covered by a span of seconds: the direction of the playback delay. */
  function SecondsToTicks(seconds: real, f: real): real
  {
    seconds * f
  }

  /** Converting ticks to seconds and back returns the original tick delta. */
  lemma TicksSecondsRoundTrip(ticks: real, f: real)
    requires f != 0.0
    ensures SecondsToTicks(TicksToSeconds(ticks, f), f) == ticks
  {
  }

  /** Converting seconds to ticks and back returns the original span. */
  lemma SecondsTicksRoundTrip(seconds: real, f: real)
    requires f != 0.0
    ensures TicksToSeconds(SecondsToTicks(seconds, f), f) == seconds
  {
  }

  /** With a positive factor, the tick-to-second conversion keeps the sign of the delta. */
  lemma TicksToSecondsSign(ticks: real, f: real)
    requires f > 0.0
    ensures TicksToSeconds(ticks, f) > 0.0 <==> ticks > 0.0
    ensures TicksToSeconds(ticks, f) < 0.0 <==> ticks < 0.0
    ensures TicksToSeconds(ticks, f) == 0.0 <==> ticks == 0.0
  {
  }
}
