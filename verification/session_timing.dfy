/**
 The per-session timing record of the latency test and every write the program makes
 to it: the reset in `setupAudio`, the device-latency corrections, the first-callback
 capture in the two tap closures, and the scheduled playback time.

 Tap callbacks are modelled as a sequence of events processed one at a time; the
 real-time threads that deliver them are not modelled.
 */
module SessionTiming {
  import opened SwiftNumerics
  import HostClock

  /** `AudioManagerState`: three host-time markers (0 = not yet recorded) and two corrections in ticks. */
  datatype AudioManagerState = AudioManagerState(
    secondsToTicks: real,
    scheduledAt: nat,
    inputTapBeganAt: nat,
    outputTapBeganAt: nat,
    outputLatency: nat,
    inputLatency: nat)

  /** Every integer field fits the `UInt64` it is declared as. */
  predicate Valid(s: AudioManagerState) {
    && IsUInt64(s.scheduledAt)
    && IsUInt64(s.inputTapBeganAt)
    && IsUInt64(s.outputTapBeganAt)
    && IsUInt64(s.outputLatency)
    && IsUInt64(s.inputLatency)
  }

  /** A running session: the timing record plus what each tap has written to its recording so far. */
  datatype Session = Session(state: AudioManagerState, inputRecording: seq<real>, outputRecording: seq<real>)

  /** The device properties read on macOS, in frames, each a `UInt32`. */
  datatype DeviceLatency = DeviceLatency(inputLatency: nat, inputSafety: nat, outputLatency: nat, outputSafety: nat)

  /** The latency corrections are only computed on macOS; elsewhere they stay 0. */
  datatype Platform = MacOS(device: DeviceLatency) | OtherPlatform

  /** The frame rate the corrections are converted at (the source hard-codes it). */
  const CorrectionSampleRate: real := 44100.0

  /** `AudioManagerState()`: every marker and both corrections start at the sentinel 0. */
  function FreshState(secondsToTicks: real): (s: AudioManagerState)
    ensures Valid(s)
    ensures s.secondsToTicks == secondsToTicks
    ensures s.scheduledAt == 0 && s.inputTapBeganAt == 0 && s.outputTapBeganAt == 0
    ensures s.inputLatency == 0 && s.outputLatency == 0
  {
    AudioManagerState(secondsToTicks, 0, 0, 0, 0, 0)
  }

  // ---------------------------------------------------------------------------
  // Device latency corrections
  // ---------------------------------------------------------------------------

  /** Frames of latency plus safety offset, converted to (unrounded) ticks. */
  function CorrectionInTicks(frames: nat, secondsToTicks: real): real {
    frames as real / CorrectionSampleRate * secondsToTicks
  }

  /**
   The inputs on which `UInt64((latency + safety) / 44100 * secondsToTicks)` does not
   trap: the `UInt32` sum must not overflow and the conversion must fit.
   */
  predicate CorrectionDefined(latency: nat, safety: nat, secondsToTicks: real) {
    && IsUInt32(latency) && IsUInt32(safety)
    && IsUInt32(latency + safety)
    && UInt64Convertible(CorrectionInTicks(latency + safety, secondsToTicks))
  }

  /** The correction in ticks for `latency + safety` frames, truncated toward zero. */
  function LatencyCorrection(latency: nat, safety: nat, secondsToTicks: real): (r: nat)
    requires CorrectionDefined(latency, safety, secondsToTicks)
    ensures IsUInt64(r)
    ensures secondsToTicks >= 0.0 ==>
              r as real <= (latency + safety) as real / CorrectionSampleRate * secondsToTicks < r as real + 1.0
    ensures latency + safety == 0 ==> r == 0
  {
    UInt64FromDouble(CorrectionInTicks(latency + safety, secondsToTicks))
  }

  /** More frames never give a smaller correction (for a non-negative clock factor). */
  lemma LatencyCorrectionMonotone(lat1: nat, safe1: nat, lat2: nat, safe2: nat, secondsToTicks: real)
    requires CorrectionDefined(lat1, safe1, secondsToTicks)
    requires CorrectionDefined(lat2, safe2, secondsToTicks)
    requires secondsToTicks >= 0.0
    requires lat1 + safe1 <= lat2 + safe2
    ensures LatencyCorrection(lat1, safe1, secondsToTicks) <= LatencyCorrection(lat2, safe2, secondsToTicks)
  {
    CorrectionInTicksMonotone(lat1 + safe1, lat2 + safe2, secondsToTicks);
    TruncMonotone(CorrectionInTicks(lat1 + safe1, secondsToTicks), CorrectionInTicks(lat2 + safe2, secondsToTicks));
  }

  lemma CorrectionInTicksMonotone(n1: nat, n2: nat, secondsToTicks: real)
    requires n1 <= n2 && secondsToTicks >= 0.0
    ensures CorrectionInTicks(n1, secondsToTicks) <= CorrectionInTicks(n2, secondsToTicks)
  {
  }

  /** With the identity timebase (one tick per nanosecond) 441 frames are exactly 10 ms. */
  lemma LatencyCorrectionAtNanosecondTicks()
    ensures CorrectionDefined(400, 41, HostClock.NanosecondsPerSecond)
    ensures LatencyCorrection(400, 41, HostClock.NanosecondsPerSecond) == 10_000_000
  {
  }

  /** The inputs on which the macOS branch of `printLowLevelAudioProperties` does not trap. */
  predicate PlatformDefined(p: Platform, secondsToTicks: real) {
    p.MacOS? ==>
      && CorrectionDefined(p.device.inputLatency, p.device.inputSafety, secondsToTicks)
      && CorrectionDefined(p.device.outputLatency, p.device.outputSafety, secondsToTicks)
  }

  /** The tail of `printLowLevelAudioProperties`: store both corrections, touch nothing else. */
  function ApplyDeviceLatency(s: AudioManagerState, d: DeviceLatency): (r: AudioManagerState)
    requires CorrectionDefined(d.inputLatency, d.inputSafety, s.secondsToTicks)
    requires CorrectionDefined(d.outputLatency, d.outputSafety, s.secondsToTicks)
    ensures r.inputLatency == LatencyCorrection(d.inputLatency, d.inputSafety, s.secondsToTicks)
    ensures r.outputLatency == LatencyCorrection(d.outputLatency, d.outputSafety, s.secondsToTicks)
    ensures r.secondsToTicks == s.secondsToTicks && r.scheduledAt == s.scheduledAt
    ensures r.inputTapBeganAt == s.inputTapBeganAt && r.outputTapBeganAt == s.outputTapBeganAt
    ensures Valid(s) ==> Valid(r)
  {
    s.(inputLatency := LatencyCorrection(d.inputLatency, d.inputSafety, s.secondsToTicks),
       outputLatency := LatencyCorrection(d.outputLatency, d.outputSafety, s.secondsToTicks))
  }

  /**
   `setupAudio` as far as the timing record goes: the old record is discarded, a fresh one
   with a newly derived clock factor is installed, and on macOS the corrections are stored.
   */
  function SetupAudio(previous: AudioManagerState, tb: HostClock.Timebase, p: Platform): (s: AudioManagerState)
    requires tb.numer > 0
    requires PlatformDefined(p, HostClock.SecondsToTicksFactor(tb))
    ensures Valid(s)
    ensures s.secondsToTicks == HostClock.SecondsToTicksFactor(tb)
    ensures s.scheduledAt == 0 && s.inputTapBeganAt == 0 && s.outputTapBeganAt == 0
    ensures p.OtherPlatform? ==> s.inputLatency == 0 && s.outputLatency == 0
    ensures p.MacOS? ==>
              && s.inputLatency == LatencyCorrection(p.device.inputLatency, p.device.inputSafety, s.secondsToTicks)
              && s.outputLatency == LatencyCorrection(p.device.outputLatency, p.device.outputSafety, s.secondsToTicks)
  {
    var initial := FreshState(HostClock.SecondsToTicksFactor(tb));
    match p
    case MacOS(d) => ApplyDeviceLatency(initial, d)
    case OtherPlatform => initial
  }

  /** The reset does not depend on what the previous session left behind, so repeating it changes nothing. */
  lemma SetupAudioIdempotent(a: AudioManagerState, b: AudioManagerState, tb: HostClock.Timebase, p: Platform)
    requires tb.numer > 0
    requires PlatformDefined(p, HostClock.SecondsToTicksFactor(tb))
    ensures SetupAudio(a, tb, p) == SetupAudio(b, tb, p)
    ensures SetupAudio(SetupAudio(a, tb, p), tb, p) == SetupAudio(a, tb, p)
  {
  }

  /**
   `start` up to the engine start: `setupAudio`, then `createRecordingAudioFiles`, which
   removes and recreates both recordings, so they start empty.
   */
  function BeginSession(previous: Session, tb: HostClock.Timebase, p: Platform): (sess: Session)
    requires tb.numer > 0
    requires PlatformDefined(p, HostClock.SecondsToTicksFactor(tb))
    ensures sess.state == SetupAudio(previous.state, tb, p)
    ensures sess.inputRecording == [] && sess.outputRecording == []
  {
    Session(SetupAudio(previous.state, tb, p), [], [])
  }

  // ---------------------------------------------------------------------------
  // Tap callbacks
  // ---------------------------------------------------------------------------

  /** The input tap traps only when it computes `hostTime - inputLatency` and that underflows. */
  predicate InputTapDefined(s: AudioManagerState, hostTime: nat) {
    IsUInt64(hostTime) && (s.inputTapBeganAt == 0 ==> hostTime >= s.inputLatency)
  }

  /** The output tap traps only when it computes `hostTime + outputLatency` and that overflows. */
  predicate OutputTapDefined(s: AudioManagerState, hostTime: nat) {
    IsUInt64(hostTime) && (s.outputTapBeganAt == 0 ==> hostTime + s.outputLatency <= UInt64Max)
  }

  /**
   The input tap closure: while the input marker is still the sentinel 0 it records the
   callback's host time moved earlier by the input correction; the buffer is always
   appended to the input recording.
   */
  function OnInputTap(sess: Session, hostTime: nat, buffer: seq<real>): (r: Session)
    requires InputTapDefined(sess.state, hostTime)
    ensures sess.state.inputTapBeganAt == 0 ==> r.state.inputTapBeganAt + sess.state.inputLatency == hostTime
    ensures sess.state.inputTapBeganAt != 0 ==> r.state.inputTapBeganAt == sess.state.inputTapBeganAt
    ensures r.state.(inputTapBeganAt := sess.state.inputTapBeganAt) == sess.state
    ensures r.inputRecording == sess.inputRecording + buffer
    ensures r.outputRecording == sess.outputRecording
    ensures Valid(sess.state) ==> Valid(r.state)
  {
    var s := sess.state;
    var marker := if s.inputTapBeganAt == 0 then hostTime - s.inputLatency else s.inputTapBeganAt;
    Session(s.(inputTapBeganAt := marker), sess.inputRecording + buffer, sess.outputRecording)
  }

  /**
   The output tap closure: while the output marker is still 0 it records the callback's
   host time moved later by the output correction; the buffer is always appended to the
   output recording.
   */
  function OnOutputTap(sess: Session, hostTime: nat, buffer: seq<real>): (r: Session)
    requires OutputTapDefined(sess.state, hostTime)
    ensures sess.state.outputTapBeganAt == 0 ==> r.state.outputTapBeganAt == hostTime + sess.state.outputLatency
    ensures sess.state.outputTapBeganAt != 0 ==> r.state.outputTapBeganAt == sess.state.outputTapBeganAt
    ensures r.state.(outputTapBeganAt := sess.state.outputTapBeganAt) == sess.state
    ensures r.outputRecording == sess.outputRecording + buffer
    ensures r.inputRecording == sess.inputRecording
    ensures Valid(sess.state) ==> Valid(r.state)
  {
    var s := sess.state;
    var marker := if s.outputTapBeganAt == 0 then hostTime + s.outputLatency else s.outputTapBeganAt;
    Session(s.(outputTapBeganAt := marker), sess.inputRecording, sess.outputRecording + buffer)
  }

  /** One delivered buffer, from either tap, with the host time of its callback. */
  datatype TapEvent = InputTap(hostTime: nat, buffer: seq<real>) | OutputTap(hostTime: nat, buffer: seq<real>)

  predicate StepDefined(s: AudioManagerState, e: TapEvent) {
    match e
    case InputTap(h, _) => InputTapDefined(s, h)
    case OutputTap(h, _) => OutputTapDefined(s, h)
  }

  function Step(sess: Session, e: TapEvent): Session
    requires StepDefined(sess.state, e)
  {
    match e
    case InputTap(h, b) => OnInputTap(sess, h, b)
    case OutputTap(h, b) => OnOutputTap(sess, h, b)
  }

  /** No callback of the sequence traps when they are processed in order. */
  predicate RunDefined(sess: Session, events: seq<TapEvent>)
    decreases |events|
  {
    |events| == 0 || (StepDefined(sess.state, events[0]) && RunDefined(Step(sess, events[0]), events[1..]))
  }

  /** The session after the callbacks `events`, delivered in this order. */
  function Run(sess: Session, events: seq<TapEvent>): Session
    requires RunDefined(sess, events)
    decreases |events|
  {
    if |events| == 0 then sess else Run(Step(sess, events[0]), events[1..])
  }

  // ---------------------------------------------------------------------------
  // Independent descriptions of what a sequence of callbacks leaves behind
  // ---------------------------------------------------------------------------

  /** The value each input callback would compute for the input marker, in delivery order. */
  function InputCandidates(events: seq<TapEvent>, inputLatency: nat): seq<int> {
    if |events| == 0 then []
    else if events[0].InputTap? then [events[0].hostTime - inputLatency] + InputCandidates(events[1..], inputLatency)
    else InputCandidates(events[1..], inputLatency)
  }

  /** The value each output callback would compute for the output marker, in delivery order. */
  function OutputCandidates(events: seq<TapEvent>, outputLatency: nat): seq<int> {
    if |events| == 0 then []
    else if events[0].OutputTap? then [events[0].hostTime + outputLatency] + OutputCandidates(events[1..], outputLatency)
    else OutputCandidates(events[1..], outputLatency)
  }

  /** The first non-zero element, or 0 when there is none. */
  function FirstNonZero(xs: seq<int>): int {
    if |xs| == 0 then 0 else if xs[0] != 0 then xs[0] else FirstNonZero(xs[1..])
  }

  /** The samples of every input buffer, concatenated in delivery order. */
  function InputAudio(events: seq<TapEvent>): seq<real> {
    if |events| == 0 then []
    else (if events[0].InputTap? then events[0].buffer else []) + InputAudio(events[1..])
  }

  /** The samples of every output buffer, concatenated in delivery order. */
  function OutputAudio(events: seq<TapEvent>): seq<real> {
    if |events| == 0 then []
    else (if events[0].OutputTap? then events[0].buffer else []) + OutputAudio(events[1..])
  }

  /**
   The input marker after any sequence of callbacks is the first non-zero value an input
   callback computed (output callbacks play no part), unless it was already set.
   */
  lemma {:induction false} InputMarkerIsFirstNonZero(sess: Session, events: seq<TapEvent>)
    requires RunDefined(sess, events)
    ensures Run(sess, events).state.inputTapBeganAt ==
            if sess.state.inputTapBeganAt != 0 then sess.state.inputTapBeganAt
            else FirstNonZero(InputCandidates(events, sess.state.inputLatency))
    decreases |events|
  {
    if |events| > 0 {
      var next := Step(sess, events[0]);
      InputMarkerIsFirstNonZero(next, events[1..]);
    }
  }

  /**
   The output marker after any sequence of callbacks is the first non-zero value an output
   callback computed (input callbacks play no part), unless it was already set.
   */
  lemma {:induction false} OutputMarkerIsFirstNonZero(sess: Session, events: seq<TapEvent>)
    requires RunDefined(sess, events)
    ensures Run(sess, events).state.outputTapBeganAt ==
            if sess.state.outputTapBeganAt != 0 then sess.state.outputTapBeganAt
            else FirstNonZero(OutputCandidates(events, sess.state.outputLatency))
    decreases |events|
  {
    if |events| > 0 {
      var next := Step(sess, events[0]);
      OutputMarkerIsFirstNonZero(next, events[1..]);
    }
  }

  /** First write wins: once a marker is non-zero, no later callback changes it. */
  lemma MarkersFirstWriteWins(sess: Session, events: seq<TapEvent>)
    requires RunDefined(sess, events)
    ensures sess.state.inputTapBeganAt != 0 ==> Run(sess, events).state.inputTapBeganAt == sess.state.inputTapBeganAt
    ensures sess.state.outputTapBeganAt != 0 ==> Run(sess, events).state.outputTapBeganAt == sess.state.outputTapBeganAt
  {
    InputMarkerIsFirstNonZero(sess, events);
    OutputMarkerIsFirstNonZero(sess, events);
  }

  /**
   From a fresh record, the first input callback fixes the input marker for good whenever the
   value it computes is not the sentinel 0.
   */
  lemma FirstInputCallbackWins(sess: Session, events: seq<TapEvent>, k: nat)
    requires RunDefined(sess, events)
    requires sess.state.inputTapBeganAt == 0
    requires k < |events| && events[k].InputTap?
    requires forall j :: 0 <= j < k ==> events[j].OutputTap?
    requires events[k].hostTime != sess.state.inputLatency
    ensures Run(sess, events).state.inputTapBeganAt + sess.state.inputLatency == events[k].hostTime
  {
    InputMarkerIsFirstNonZero(sess, events);
    InputCandidatesSkipOutputs(events, k, sess.state.inputLatency);
  }

  lemma {:induction false} InputCandidatesSkipOutputs(events: seq<TapEvent>, k: nat, inputLatency: nat)
    requires k < |events| && events[k].InputTap?
    requires forall j :: 0 <= j < k ==> events[j].OutputTap?
    ensures |InputCandidates(events, inputLatency)| > 0
    ensures InputCandidates(events, inputLatency)[0] == events[k].hostTime - inputLatency
  {
    if k > 0 {
      InputCandidatesSkipOutputs(events[1..], k - 1, inputLatency);
    }
  }

  /**
   From a fresh record, the first output callback fixes the output marker for good whenever the
   value it computes is not the sentinel 0.
   */
  lemma FirstOutputCallbackWins(sess: Session, events: seq<TapEvent>, k: nat)
    requires RunDefined(sess, events)
    requires sess.state.outputTapBeganAt == 0
    requires k < |events| && events[k].OutputTap?
    requires forall j :: 0 <= j < k ==> events[j].InputTap?
    requires events[k].hostTime + sess.state.outputLatency != 0
    ensures Run(sess, events).state.outputTapBeganAt == events[k].hostTime + sess.state.outputLatency
  {
    OutputMarkerIsFirstNonZero(sess, events);
    OutputCandidatesSkipInputs(events, k, sess.state.outputLatency);
  }

  lemma {:induction false} OutputCandidatesSkipInputs(events: seq<TapEvent>, k: nat, outputLatency: nat)
    requires k < |events| && events[k].OutputTap?
    requires forall j :: 0 <= j < k ==> events[j].InputTap?
    ensures |OutputCandidates(events, outputLatency)| > 0
    ensures OutputCandidates(events, outputLatency)[0] == events[k].hostTime + outputLatency
  {
    if k > 0 {
      OutputCandidatesSkipInputs(events[1..], k - 1, outputLatency);
    }
  }

  /**
   Every callback, first or not, appends its buffer to its own recording, in delivery
   order; nothing else is ever written to either recording.
   */
  lemma {:induction false} RecordingsAreConcatenations(sess: Session, events: seq<TapEvent>)
    requires RunDefined(sess, events)
    ensures Run(sess, events).inputRecording == sess.inputRecording + InputAudio(events)
    ensures Run(sess, events).outputRecording == sess.outputRecording + OutputAudio(events)
    decreases |events|
  {
    if |events| > 0 {
      var next := Step(sess, events[0]);
      RecordingsAreConcatenations(next, events[1..]);
      assert InputAudio(events) == (if events[0].InputTap? then events[0].buffer else []) + InputAudio(events[1..]);
      assert OutputAudio(events) == (if events[0].OutputTap? then events[0].buffer else []) + OutputAudio(events[1..]);
    }
  }

  /**
   Callbacks write only their own marker: the clock factor, the corrections and the
   scheduled time are never changed by a tap, and every field stays within `UInt64`.
   */
  lemma {:induction false} TapsKeepOtherFields(sess: Session, events: seq<TapEvent>)
    requires RunDefined(sess, events)
    ensures Run(sess, events).state.scheduledAt == sess.state.scheduledAt
    ensures Run(sess, events).state.secondsToTicks == sess.state.secondsToTicks
    ensures Run(sess, events).state.inputLatency == sess.state.inputLatency
    ensures Run(sess, events).state.outputLatency == sess.state.outputLatency
    ensures Valid(sess.state) ==> Valid(Run(sess, events).state)
    decreases |events|
  {
    if |events| > 0 {
      TapsKeepOtherFields(Step(sess, events[0]), events[1..]);
    }
  }

  // ---------------------------------------------------------------------------
  // Scheduling the reference playback
  // ---------------------------------------------------------------------------

  /** The fixed lead before the reference buffer plays, in seconds. */
  const PlaybackDelaySeconds: real := 0.33

  /** The inputs on which `now + UInt64(0.33 * secondsToTicks)` does not trap. */
  predicate ScheduleDefined(now: nat, secondsToTicks: real) {
    && IsUInt64(now)
    && UInt64Convertible(PlaybackDelaySeconds * secondsToTicks)
    && now + UInt64FromDouble(PlaybackDelaySeconds * secondsToTicks) <= UInt64Max
  }

  /** The host time the reference buffer is scheduled at: never earlier than `now`, 0.33 s later up to truncation. */
  function ScheduledHostTime(now: nat, secondsToTicks: real): (t: nat)
    requires ScheduleDefined(now, secondsToTicks)
    ensures IsUInt64(t)
    ensures t >= now
    ensures secondsToTicks >= 0.0 ==>
              (t - now) as real <= PlaybackDelaySeconds * secondsToTicks < (t - now) as real + 1.0
  {
    now + UInt64FromDouble(HostClock.SecondsToTicks(PlaybackDelaySeconds, secondsToTicks))
  }

  /** With one tick per nanosecond, playback is scheduled exactly 330 ms ahead. */
  lemma ScheduledHostTimeAtNanosecondTicks(now: nat)
    requires IsUInt64(now) && now + 330_000_000 <= UInt64Max
    ensures ScheduleDefined(now, HostClock.NanosecondsPerSecond)
    ensures ScheduledHostTime(now, HostClock.NanosecondsPerSecond) == now + 330_000_000
  {
  }

  /** `scheduleAndPlayAudioBuffers`: records the scheduled time and leaves everything else alone. */
  function ScheduleAndPlay(sess: Session, now: nat): (r: Session)
    requires ScheduleDefined(now, sess.state.secondsToTicks)
    ensures r.state.scheduledAt == ScheduledHostTime(now, sess.state.secondsToTicks)
    ensures r.state.(scheduledAt := sess.state.scheduledAt) == sess.state
    ensures r.inputRecording == sess.inputRecording && r.outputRecording == sess.outputRecording
    ensures Valid(sess.state) ==> Valid(r.state)
  {
    Session(sess.state.(scheduledAt := ScheduledHostTime(now, sess.state.secondsToTicks)),
            sess.inputRecording, sess.outputRecording)
  }

  /** Whether playback is scheduled before, between or after the tap callbacks makes no difference. */
  lemma {:induction false} ScheduleCommutesWithTaps(sess: Session, events: seq<TapEvent>, now: nat)
    requires RunDefined(sess, events)
    requires ScheduleDefined(now, sess.state.secondsToTicks)
    ensures RunDefined(ScheduleAndPlay(sess, now), events)
    ensures ScheduleDefined(now, Run(sess, events).state.secondsToTicks)
    ensures Run(ScheduleAndPlay(sess, now), events) == ScheduleAndPlay(Run(sess, events), now)
    decreases |events|
  {
    TapsKeepOtherFields(sess, events);
    if |events| > 0 {
      var scheduled := ScheduleAndPlay(sess, now);
      assert StepDefined(scheduled.state, events[0]);
      assert Step(scheduled, events[0]) == ScheduleAndPlay(Step(sess, events[0]), now);
      ScheduleCommutesWithTaps(Step(sess, events[0]), events[1..], now);
    }
  }
}
