# Loopback latency test: timing model

This project models the timing core of AudioEngineLoopbackLatencyTest, a Swift app that
measures round-trip audio latency. The app plays a reference buffer at a scheduled host time.
Two taps record the input node and the main mixer output. The app then works out where each
recording sits relative to the scheduled playback. The model covers four parts:

- **Session timing state** (`SessionTiming`). `AudioManagerState` holds three host-time
  markers and two latency corrections. All of them start at the sentinel 0, and `setupAudio`
  installs a fresh state. Each tap records its marker only while it is still 0. The input tap
  stores `hostTime - inputLatency` and the output tap stores `hostTime + outputLatency`.
  Every callback appends its buffer to its own recording. Tap callbacks are modelled as a
  sequence of `TapEvent`s processed by `Run`. The reference playback is scheduled at
  `now + UInt64(0.33 * secondsToTicks)`. On macOS, the latency corrections are
  `UInt64((latency + safety) / 44100 * secondsToTicks)`.
- **Sync offsets** (`SyncOffset`). For each tap, the signed host-time difference
  `Int64(marker) - Int64(scheduled)` is converted to sample frames as
  `diff / secondsToTicks * sampleRate`. It is then truncated to the render start frame
  (`AVAudioFramePosition`).
- **Host clock** (`HostClock`). The seconds-to-ticks factor `denom / numer * 1e9` comes from
  the `mach_timebase_info` pair. The model also states the two directions in which that
  factor is used.
- **Visualization** (`Visualization`). Each of the first two channels goes through
  absolute value, a clip to [0, 1], and a box-filter downsample by `kSamplesPerPixel = 10`.
  `vDSP_desamp` is given its documented sum-of-products meaning.

Swift's trapping operations become explicit preconditions: unsigned underflow and overflow,
`UInt32` addition, the `Int64(UInt64)` conversion of a host time above `Int64.max`, and
`Double`→`UInt64`/`Int64` conversions out of range (module `SwiftNumerics`). A precondition applies only on the branch where the source actually
performs the operation. `Double` arithmetic is modelled with `real`.

## Model

| member | source | states |
|---|---|---|
| HostClock.SecondsToTicksFactor | AudioEngineLoopbackLatencyTest/UtilityFunctions.swift:11-16 | The factor times `numer` equals `denom * 1e9`. It is strictly positive when `denom > 0` and exactly 1e9 (one tick per nanosecond) when `numer == denom`. |
| HostClock.TicksSecondsRoundTrip | AudioEngineLoopbackLatencyTest/UtilityFunctions.swift:14-15 | Dividing a tick delta by the factor and multiplying it back returns the original delta. |
| HostClock.SecondsTicksRoundTrip | AudioEngineLoopbackLatencyTest/AudioManager.swift:409-410 | Converting seconds to ticks (the playback delay direction) and back returns the original span. |
| HostClock.TicksToSecondsSign | AudioEngineLoopbackLatencyTest/AudioManager.swift:525 | With a positive factor, the seconds value is positive, negative or zero exactly when the tick delta is. |
| SessionTiming.FreshState | AudioEngineLoopbackLatencyTest/AudioManager.swift:14-24 | A new state has all three markers and both corrections equal to 0 and keeps the given clock factor. |
| SessionTiming.SetupAudio | AudioEngineLoopbackLatencyTest/AudioManager.swift:80-98 | The new state has zero markers and a factor freshly derived from the timebase. Its corrections are 0 off macOS and equal the device corrections on macOS. |
| SessionTiming.SetupAudioIdempotent | AudioEngineLoopbackLatencyTest/AudioManager.swift:85 | The reset result does not depend on the previous state, so a second setup yields the same state as the first. |
| SessionTiming.BeginSession | AudioEngineLoopbackLatencyTest/AudioManager.swift:49-51 | Starting a session installs the setup state and begins both recordings empty. |
| SessionTiming.LatencyCorrection | AudioEngineLoopbackLatencyTest/AudioManager.swift:390-394 | The correction fits in `UInt64` and is `(latency + safety) / 44100 * secondsToTicks` truncated toward zero. It is 0 when no frames are reported. |
| SessionTiming.LatencyCorrectionMonotone | AudioEngineLoopbackLatencyTest/AudioManager.swift:390-394 | More latency-plus-safety frames never give a smaller correction. |
| SessionTiming.LatencyCorrectionAtNanosecondTicks | AudioEngineLoopbackLatencyTest/AudioManager.swift:390-391 | At one tick per nanosecond, 400 + 41 frames give exactly 10,000,000 ticks. |
| SessionTiming.ApplyDeviceLatency | AudioEngineLoopbackLatencyTest/AudioManager.swift:389-395 | Both corrections are stored, and the markers and clock factor are unchanged. |
| SessionTiming.OnInputTap | AudioEngineLoopbackLatencyTest/AudioManager.swift:632-643 | If the input marker is 0, it becomes `hostTime - inputLatency`. Otherwise it is kept. No other field changes. The buffer is appended to the input recording only. |
| SessionTiming.OnOutputTap | AudioEngineLoopbackLatencyTest/AudioManager.swift:649-663 | If the output marker is 0, it becomes `hostTime + outputLatency`. Otherwise it is kept. No other field changes. The buffer is appended to the output recording only. |
| SessionTiming.InputMarkerIsFirstNonZero | AudioEngineLoopbackLatencyTest/AudioManager.swift:633-634 | After any sequence of callbacks, the input marker is the first non-zero value an input callback computed, unless it was already set. Output callbacks play no part. |
| SessionTiming.OutputMarkerIsFirstNonZero | AudioEngineLoopbackLatencyTest/AudioManager.swift:650-651 | After any sequence of callbacks, the output marker is the first non-zero value an output callback computed, unless it was already set. Input callbacks play no part. |
| SessionTiming.MarkersFirstWriteWins | AudioEngineLoopbackLatencyTest/AudioManager.swift:633-651 | Once a marker is non-zero, no later callback changes it. |
| SessionTiming.FirstInputCallbackWins | AudioEngineLoopbackLatencyTest/AudioManager.swift:633-636 | From a zero marker, the first input callback fixes the marker at its `hostTime - inputLatency`, provided that value is not the sentinel 0. |
| SessionTiming.FirstOutputCallbackWins | AudioEngineLoopbackLatencyTest/AudioManager.swift:650-657 | From a zero marker, the first output callback fixes the marker at its `hostTime + outputLatency`, provided that value is not 0. |
| SessionTiming.RecordingsAreConcatenations | AudioEngineLoopbackLatencyTest/AudioManager.swift:632-663 | Each recording is its initial content followed by the buffers of its own tap's callbacks, in delivery order. |
| SessionTiming.TapsKeepOtherFields | AudioEngineLoopbackLatencyTest/AudioManager.swift:629-664 | Callbacks never change the scheduled time, the clock factor or the corrections, and they keep every field within `UInt64`. |
| SessionTiming.ScheduledHostTime | AudioEngineLoopbackLatencyTest/AudioManager.swift:409-411 | The scheduled time fits in `UInt64` and is never earlier than `now`. It lies 0.33 s of ticks later, truncated toward zero. |
| SessionTiming.ScheduledHostTimeAtNanosecondTicks | AudioEngineLoopbackLatencyTest/AudioManager.swift:409-410 | At one tick per nanosecond, playback is scheduled exactly 330,000,000 ticks after `now`. |
| SessionTiming.ScheduleAndPlay | AudioEngineLoopbackLatencyTest/AudioManager.swift:403-418 | Scheduling stores the scheduled host time and changes no other field and neither recording. |
| SessionTiming.ScheduleCommutesWithTaps | AudioEngineLoopbackLatencyTest/AudioManager.swift:54-61 | Scheduling before or after any sequence of tap callbacks gives the same session, and it never makes a callback trap. |
| SyncOffset.HostTimeDiff | AudioEngineLoopbackLatencyTest/AudioManager.swift:521-522 | The `Int64` subtraction cannot overflow. The difference is positive, negative or zero exactly when the tap began after, before or at the scheduled time. |
| SyncOffset.HostTimeDiffExample | AudioEngineLoopbackLatencyTest/AudioManager.swift:518-522 | A tap at 900,000,000 against a schedule at 1,000,000,000 gives -100,000,000, a shift to the left. |
| SyncOffset.DiffInSamples | AudioEngineLoopbackLatencyTest/AudioManager.swift:525-529 | With a positive factor and sample rate, the sample offset has the sign of the tick difference and is 0 exactly when that difference is 0. |
| SyncOffset.DiffInSamplesRoundTrip | AudioEngineLoopbackLatencyTest/AudioManager.swift:525 | Converting the sample offset back to ticks returns the host-time difference. |
| SyncOffset.DiffInSamplesMonotone | AudioEngineLoopbackLatencyTest/AudioManager.swift:525 | A later first callback never gets a smaller sample offset. |
| SyncOffset.StartFrame | AudioEngineLoopbackLatencyTest/AudioManager.swift:559-567 | The render start frame fits in `Int64`. It is 0 or has the offset's sign, and lies less than one frame closer to 0. |
| SwiftNumerics.Int64FromDouble | AudioEngineLoopbackLatencyTest/AudioManager.swift:559-566 | `AVAudioFramePosition(x)` traps unless the truncated value fits in `Int64`. Otherwise the result is 0 or has the sign of `x`, and lies less than one unit closer to 0. |
| SwiftNumerics.UInt64FromDouble | AudioEngineLoopbackLatencyTest/AudioManager.swift:390-393 | `UInt64(x)` traps unless `-1 < x < 2^64`. Otherwise the result fits in `UInt64`, is the whole part of `x` for `x >= 0`, and is 0 for `x < 1`. |
| SyncOffset.OffsetSignsOverRun | AudioEngineLoopbackLatencyTest/AudioManager.swift:403-529 | Start from unset markers, run any sequence of tap callbacks, then schedule playback. Each recording's offset is then positive, negative or zero exactly when the first non-zero marker value its tap computed is after, before or at the scheduled time. |
| SyncOffset.ComputeSyncOffsets | AudioEngineLoopbackLatencyTest/AudioManager.swift:516-530 | Each recording's offset is positive, negative or zero exactly when its tap began after, before or at the scheduled time. |
| SyncOffset.SyncOffsetsRoundTrip | AudioEngineLoopbackLatencyTest/AudioManager.swift:516-530 | Each offset converted back to ticks and added to the scheduled time gives that tap's marker. |
| SyncOffset.InputOffsetExample | AudioEngineLoopbackLatencyTest/AudioManager.swift:521-567 | Schedule 1,000,000, input tap 950,000, 1e9 ticks/s and 44.1 kHz give an offset of -2.205 frames and a start frame of -2. |
| Visualization.Abs | AudioEngineLoopbackLatencyTest/AudioVisualization.swift:69-70 | The magnitude is non-negative and equals the sample or its negation. |
| Visualization.Clip | AudioEngineLoopbackLatencyTest/AudioVisualization.swift:72-76 | The result lies in [low, high], equals the input inside the range, and equals the nearer bound outside it. |
| Visualization.Magnitude | AudioEngineLoopbackLatencyTest/AudioVisualization.swift:68-76 | A processed sample lies in [0, 1]. It is the absolute value for samples in [-1, 1] and 1 beyond. |
| Visualization.Processed | AudioEngineLoopbackLatencyTest/AudioVisualization.swift:65-76 | The processed buffer has `frameLength` samples, each in [0, 1]. A sample is the input's absolute value where the input lies in [-1, 1], and exactly 1 beyond. |
| Visualization.BoxFilter | AudioEngineLoopbackLatencyTest/AudioVisualization.swift:61 | The filter has `N` taps, and each tap times `N` is 1. |
| Visualization.Desamp | AudioEngineLoopbackLatencyTest/AudioVisualization.swift:82-92 | The downsample yields exactly `count` outputs. Their values are stated by `DesampElement`. |
| Visualization.DesampElement | AudioEngineLoopbackLatencyTest/AudioVisualization.swift:82-92 | Output `n` of the downsample is the sum over `p < P` of `A[n*DF + p] * F[p]`, and its window lies inside the input. |
| Visualization.DesampBoxFilterIsWindowMean | AudioEngineLoopbackLatencyTest/AudioVisualization.swift:61-92 | With the box filter, output `n` is the arithmetic mean of inputs `n*N` to `n*N + N - 1`. |
| Visualization.PixelCount | AudioEngineLoopbackLatencyTest/AudioVisualization.swift:58-60 | The pixel count is the number of whole 10-sample windows: `count * 10 <= frameLength < (count + 1) * 10`. |
| Visualization.ReduceChannel | AudioEngineLoopbackLatencyTest/AudioVisualization.swift:65-92 | One channel after abs, clip and downsample has exactly `frameLength / 10` points. Their values are stated by `ReduceChannelIsWindowMean` and `ReduceChannelInUnitRange`. |
| Visualization.ConvertToVisualData | AudioEngineLoopbackLatencyTest/AudioVisualization.swift:53-95 | Both returned series have exactly `frameLength / 10` points. |
| Visualization.ReduceChannelIsWindowMean | AudioEngineLoopbackLatencyTest/AudioVisualization.swift:82-92 | Point `n` of a reduced channel is the mean processed magnitude of window `n`. |
| Visualization.ReduceChannelInUnitRange | AudioEngineLoopbackLatencyTest/AudioVisualization.swift:73-92 | Every point of a reduced channel lies in [0, 1]. |
| Visualization.VisualDataPoint | AudioEngineLoopbackLatencyTest/AudioVisualization.swift:69-94 | Left point `n` is the window-`n` mean of channel 0 and right point `n` is that of channel 1. Both lie in [0, 1]. |
| Visualization.ReduceChannelReadsOnlyWholeWindows | AudioEngineLoopbackLatencyTest/AudioVisualization.swift:82-92 | Two channels that agree on their first `pixelCount * 10` samples reduce to the same series. Trailing samples never matter. |
| Visualization.PanesReadOnlyTheirChannel | AudioEngineLoopbackLatencyTest/AudioVisualization.swift:69-92 | The left series depends only on channel 0 and the right only on channel 1, each only within the whole windows. |

## Left out

- AVAudioEngine graph building, node attach/connect, panning, and player scheduling and playback: these are framework behaviour.
- The offline render loop (AudioManager.swift:579-597): it ends when the engine's `lastRenderTime` passes the input length, which the engine supplies.
- Negative start frames: `AVAudioFramePosition` truncates toward zero (`SyncOffset.StartFrame`). A negative frame is handed to the engine as is, and what the engine does with it is not modelled.
- File I/O: `createRecordingAudioFiles` (modelled only as both recordings starting empty), `loadAudioFile`, `audioFileToBuffer`, writing the result file, `playResult`, and the `fatalError` on a failed recording write. A tap write is modelled as an append that always succeeds. A missing (nil) recording file is not modelled.
- CoreAudio device property queries and `AVAudioSession` setup: the four device values enter as `DeviceLatency` parameters, and the diagnostic prints are dropped.
- `mach_absolute_time`, `mach_timebase_info` and the tap timestamps: these become parameters (`now`, `Timebase`, `TapEvent.hostTime`). `AVAudioTime(hostTime:).hostTime` is taken to return its argument.
- Concurrency: the two real-time tap threads and the `DispatchQueue.main.async` in `stop` are modelled as one sequence of events processed in order. Races are not modelled.
- IEEE-754 `Double`/`Float` rounding and vDSP internals: all arithmetic is over `real`.
- SwiftUI views: ContentView.swift and the drawing in `AudioVisualization.body`.
- HostClock.SecondsToTicksFactor: requires `numer > 0`. The platform never reports 0, and the `Double` infinity or NaN it would produce is not modelled.
- SyncOffset.DiffInSamples: requires a non-zero clock factor, for the same reason.
- SyncOffset.ComputeSyncOffsets: the sign statements are made only for a positive clock factor and positive sample rates. The code never checks either.
- Visualization.ConvertToVisualData: requires at least two channels holding `frameLength` samples each (`Readable`). For a mono file, the source's `floatChannelData![1]` reads out of bounds, which is undefined behaviour and not modelled.
