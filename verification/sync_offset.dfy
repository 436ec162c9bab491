/**
 The synchronisation arithmetic of `createResultFile`: the signed host-time distance of
 each tap's first callback from the scheduled playback time, that distance in sample
 frames, and the frame position the offline render schedules each recording at.
 */
module SyncOffset {
  import opened SwiftNumerics
  import HostClock
  import SessionTiming

  /**
   `Int64(tap) - Int64(scheduled)`: both conversions trap above `Int64.max`; when they do
   not, the subtraction of two non-negative `Int64`s cannot overflow.
   */
  function HostTimeDiff(tap: nat, scheduled: nat): (d: int)
    requires IsInt64(tap) && IsInt64(scheduled)
    ensures IsInt64(d)
    ensures d > 0 <==> tap > scheduled
    ensures d < 0 <==> tap < scheduled
    ensures d == 0 <==> tap == scheduled
  {
    tap - scheduled
  }

  /** A tap that began 100 ms (at one tick per nanosecond) before the scheduled time is shifted left by that much. */
  lemma HostTimeDiffExample()
    ensures HostTimeDiff(900_000_000, 1_000_000_000) == -100_000_000
  {
  }

  /** `Double(diff) / secondsToTicks * sampleRate`: a host-time difference in sample frames. */
  function DiffInSamples(diff: int, secondsToTicks: real, sampleRate: real): (x: real)
    requires secondsToTicks != 0.0
    ensures secondsToTicks > 0.0 && sampleRate > 0.0 ==>
              && (x > 0.0 <==> diff > 0)
              && (x < 0.0 <==> diff < 0)
              && (x == 0.0 <==> diff == 0)
    ensures sampleRate == 0.0 ==> x == 0.0
  {
    HostClock.TicksToSeconds(diff as real, secondsToTicks) * sampleRate
  }

  /** The inverse of `DiffInSamples`: sample frames back to host ticks. */
  function SamplesToTicks(samples: real, secondsToTicks: real, sampleRate: real): real
    requires sampleRate != 0.0
  {
    HostClock.SecondsToTicks(samples / sampleRate, secondsToTicks)
  }

  /** Converting a tick difference to samples and back returns it unchanged. */
  lemma DiffInSamplesRoundTrip(diff: int, secondsToTicks: real, sampleRate: real)
    requires secondsToTicks != 0.0 && sampleRate != 0.0
    ensures SamplesToTicks(DiffInSamples(diff, secondsToTicks, sampleRate), secondsToTicks, sampleRate) == diff as real
  {
  }

  /** A later first callback never gets a smaller sample offset. */
  lemma DiffInSamplesMonotone(d1: int, d2: int, secondsToTicks: real, sampleRate: real)
    requires d1 <= d2
    requires secondsToTicks > 0.0 && sampleRate >= 0.0
    ensures DiffInSamples(d1, secondsToTicks, sampleRate) <= DiffInSamples(d2, secondsToTicks, sampleRate)
  {
  }

  /** `AVAudioFramePosition(offset)`: the render start frame, the offset truncated toward zero. */
  function StartFrame(offset: real): (f: int)
    requires Int64Convertible(offset)
    ensures IsInt64(f)
    ensures offset >= 0.0 ==> 0 <= f && f as real <= offset < f as real + 1.0
    ensures offset <= 0.0 ==> f <= 0 && f as real - 1.0 < offset <= f as real
  {
    Int64FromDouble(offset)
  }

  /** The sample offsets of the two recordings relative to the scheduled reference playback. */
  datatype SyncOffsets = SyncOffsets(inputSamples: real, outputSamples: real)

  /** The conversions in `createResultFile` that can trap, and the division by the clock factor. */
  predicate SyncDefined(s: SessionTiming.AudioManagerState) {
    && s.secondsToTicks != 0.0
    && IsInt64(s.scheduledAt)
    && IsInt64(s.inputTapBeganAt)
    && IsInt64(s.outputTapBeganAt)
  }

  /**
   Each recording's offset has the sign of "its first callback came after the scheduled
   time" and is 0 exactly when the two coincide.
   */
  function ComputeSyncOffsets(s: SessionTiming.AudioManagerState, inputRate: real, outputRate: real): (o: SyncOffsets)
    requires SyncDefined(s)
    ensures s.secondsToTicks > 0.0 && inputRate > 0.0 ==>
              && (o.inputSamples > 0.0 <==> s.inputTapBeganAt > s.scheduledAt)
              && (o.inputSamples < 0.0 <==> s.inputTapBeganAt < s.scheduledAt)
              && (o.inputSamples == 0.0 <==> s.inputTapBeganAt == s.scheduledAt)
    ensures s.secondsToTicks > 0.0 && outputRate > 0.0 ==>
              && (o.outputSamples > 0.0 <==> s.outputTapBeganAt > s.scheduledAt)
              && (o.outputSamples < 0.0 <==> s.outputTapBeganAt < s.scheduledAt)
              && (o.outputSamples == 0.0 <==> s.outputTapBeganAt == s.scheduledAt)
  {
    var inputDiff := HostTimeDiff(s.inputTapBeganAt, s.scheduledAt);
    var outputDiff := HostTimeDiff(s.outputTapBeganAt, s.scheduledAt);
    SyncOffsets(DiffInSamples(inputDiff, s.secondsToTicks, inputRate),
                DiffInSamples(outputDiff, s.secondsToTicks, outputRate))
  }

  /** Converting each offset back to ticks from the scheduled time lands on that tap's first callback. */
  lemma SyncOffsetsRoundTrip(s: SessionTiming.AudioManagerState, inputRate: real, outputRate: real)
    requires SyncDefined(s)
    requires inputRate != 0.0 && outputRate != 0.0
    ensures SamplesToTicks(ComputeSyncOffsets(s, inputRate, outputRate).inputSamples, s.secondsToTicks, inputRate)
            + s.scheduledAt as real == s.inputTapBeganAt as real
    ensures SamplesToTicks(ComputeSyncOffsets(s, inputRate, outputRate).outputSamples, s.secondsToTicks, outputRate)
            + s.scheduledAt as real == s.outputTapBeganAt as real
  {
  }

  /**
   Reference scheduled at tick 1,000,000, input tap first called at tick 950,000, one tick per
   nanosecond, 44.1 kHz: the input offset is -2.205 frames and the render start frame is -2.
   */
  lemma InputOffsetExample()
    ensures SyncDefined(SessionTiming.AudioManagerState(HostClock.NanosecondsPerSecond, 1_000_000, 950_000, 1_000_000, 0, 0))
    ensures ComputeSyncOffsets(SessionTiming.AudioManagerState(HostClock.NanosecondsPerSecond, 1_000_000, 950_000, 1_000_000, 0, 0),
                               44100.0, 44100.0) == SyncOffsets(-2.205, 0.0)
    ensures StartFrame(-2.205) == -2
  {
  }

  /**
   Over a whole run from unset markers: callbacks, then scheduling. Each recording's offset is
   positive, negative or zero exactly when the first non-zero marker its tap computed lies
   after, before or at the scheduled host time.
   */
  lemma {:induction false} OffsetSignsOverRun(sess: SessionTiming.Session, events: seq<SessionTiming.TapEvent>,
                                             now: nat, inputRate: real, outputRate: real)
    requires SessionTiming.RunDefined(sess, events)
    requires sess.state.inputTapBeganAt == 0 && sess.state.outputTapBeganAt == 0
    requires sess.state.secondsToTicks > 0.0 && inputRate > 0.0 && outputRate > 0.0
    requires SessionTiming.ScheduleDefined(now, SessionTiming.Run(sess, events).state.secondsToTicks)
    requires SyncDefined(SessionTiming.ScheduleAndPlay(SessionTiming.Run(sess, events), now).state)
    ensures var s := SessionTiming.ScheduleAndPlay(SessionTiming.Run(sess, events), now).state;
            var firstIn := SessionTiming.FirstNonZero(SessionTiming.InputCandidates(events, sess.state.inputLatency));
            var firstOut := SessionTiming.FirstNonZero(SessionTiming.OutputCandidates(events, sess.state.outputLatency));
            var o := ComputeSyncOffsets(s, inputRate, outputRate);
            && s.scheduledAt == SessionTiming.ScheduledHostTime(now, SessionTiming.Run(sess, events).state.secondsToTicks)
            && (o.inputSamples > 0.0 <==> firstIn > s.scheduledAt)
            && (o.inputSamples < 0.0 <==> firstIn < s.scheduledAt)
            && (o.inputSamples == 0.0 <==> firstIn == s.scheduledAt)
            && (o.outputSamples > 0.0 <==> firstOut > s.scheduledAt)
            && (o.outputSamples < 0.0 <==> firstOut < s.scheduledAt)
            && (o.outputSamples == 0.0 <==> firstOut == s.scheduledAt)
  {
    SessionTiming.TapsKeepOtherFields(sess, events);
    SessionTiming.InputMarkerIsFirstNonZero(sess, events);
    SessionTiming.OutputMarkerIsFirstNonZero(sess, events);
  }
}
