# Pitchy-Pal pitch tracking, modelled in Dafny

Pitchy-Pal is a singing game for children. The microphone feeds an
autocorrelation pitch detector. A confidence gate decides whether the
detected pitch counts. The game then moves a ball up the screen on a
logarithmic scale from 100 Hz to 800 Hz and labels the sung note.

This project models three pieces of that pipeline:

- the detector `PitchDetector` (services/pitchy_shim.ts). This covers the RMS
  silence gate, the correlogram, the skip over the initial descent, the
  scan for the first strict maximum, and the division into pitch and clarity;
- the `usePitchDetection` hook (hooks/usePitchDetection.ts), as a state
  machine over its callbacks. These are the effect start, the microphone
  grant or refusal, the animation-frame tick with its 0.85 clarity gate, and
  the cleanup;
- the motion and note logic of components/GameContainer.tsx. This covers
  `getNoteFromFreq`, `isActive`, the target height, the interpolation
  factor, the smoothing step, and the starting height of 50.

Modules, one per file:

| module | file | models |
|---|---|---|
| `Options` | options.dfy | `null` as `None` |
| `JsNumbers` | js_numbers.dfy | JavaScript division, with `Infinity` and `NaN` |
| `Autocorrelation` | autocorrelation.dfy | the two summing loops of `findPitch`, and why the zero lag dominates |
| `PitchDetection` | pitch_detector.dfy | `PitchDetector`: `forFloat32Array`, `inputLength`, `findPitch` |
| `PitchSession` | pitch_session.dfy | the hook `usePitchDetection` |
| `NoteNames` | note_names.dfy | `getNoteFromFreq` |
| `BallMotion` | ball_motion.dfy | `isActive`, `targetY`, `interpolationFactor`, the 16 ms smoothing step |

Samples are exact reals, not 32-bit floats. A JavaScript number that can
be `Infinity` or `NaN` is a `Num`. `Math.log` is a parameter `ln` that
only has to be strictly increasing on the positive reals.
`Math.round(12 * Math.log2(r))` is a parameter `semitones`. The
microphone, the audio graph and the browser's scheduling are events
handed to the state machine.

The hook imports `PitchDetector` from the `pitchy` package. That package
is not part of this model. Each tick in the model runs the repository's
own `PitchDetector` from services/pitchy_shim.ts in its place; the shim
has the same interface.

Notes on how the detector behaves:

- Clarity can be negative. The scan accepts any correlation above -1,
  and the zero-lag correlation is positive, so the frame [1, -0.5]
  yields clarity -0.4 (`NegativeClarity`). The upper bound 1 does hold
  (`ClarityAtMostOne`).
- The descent loop `while (correlations[d] > correlations[d + 1]) d++`
  cannot run past the end. Reading one past the end yields `undefined`,
  and the comparison is then false, so the loop stops at the last lag at
  the latest (`Descent`). A constant signal therefore gets a period
  rather than `[0, 0]`.
- The division by `correlations[0]` is always safe. A non-empty frame
  that passes the RMS gate has positive energy (`AudibleHasEnergy`), and
  the zero-lag correlation is that energy (`ClarityAtMostOne`). The empty
  frame passes the gate too, because its RMS is `Math.sqrt(0 / 0)`, which
  is NaN, and `NaN < 0.01` is false. But its scan finds no offset, so it
  never reaches the division (`EmptyFramePassesGate`).
- A frame of one audible sample yields pitch `Infinity`
  (`OneSampleFrame`). A loud frame can still yield `[0, 0]`
  (`LoudFrameWithoutPeak`). With two samples or more, any pitch found is
  finite (`AudibleFrameDescends`).

## Model

| member | source | states |
|---|---|---|
| JsNumbers.Divide | services/pitchy_shim.ts:58-59 | JavaScript division is finite exactly when the divisor is non-zero, and then times the divisor gives the dividend back. Dividing by zero gives +Infinity for a positive dividend, -Infinity for a negative one, and NaN for 0/0. |
| PitchDetection.ForFloat32Array | services/pitchy_shim.ts:9-19 | a detector made for an FFT size reports that size as its input length |
| Autocorrelation.ComputeEnergy | services/pitchy_shim.ts:24-28 | the RMS loop accumulates the sum of squares of the frame |
| Autocorrelation.ComputeCorrelations | services/pitchy_shim.ts:34-42 | the nested loops produce one correlation per lag, each summed over the overlap of the frame with its shifted copy |
| Autocorrelation.ZeroLagIsEnergy | services/pitchy_shim.ts:26-41 | the zero-lag correlation equals the sum of squares the silence gate measures |
| Autocorrelation.EnergyBoundsLags | services/pitchy_shim.ts:36-42 | no lag correlates the frame with itself more than lag 0 does |
| Autocorrelation.LagOneBelowEnergy | services/pitchy_shim.ts:36-42 | for a frame of two or more samples with any energy, lag 1 correlates strictly less than lag 0 |
| PitchDetection.SkipDescent | services/pitchy_shim.ts:45-46 | continuing the descent loop from a point it has reached ends where the correlations stop falling |
| PitchDetection.Descent | services/pitchy_shim.ts:45-46 | the descent loop stops at the first lag that does not fall below its successor, and stays inside the array |
| PitchDetection.DescentInside | services/pitchy_shim.ts:45-46 | the loop's stopping point lies inside any non-empty array, because a read past the end compares false |
| PitchDetection.DescentEndUnique | services/pitchy_shim.ts:45-46 | only one lag can be where the descent loop stops |
| PitchDetection.FindDescentEnd | services/pitchy_shim.ts:45-46 | the loop as written computes that stopping lag |
| PitchDetection.ScanMax | services/pitchy_shim.ts:48-54 | the max scan ends with -1 and nothing above -1 seen, or with the first index of the largest correlation |
| PitchDetection.ScanFindsPeak | services/pitchy_shim.ts:48-56 | the scan leaves bestOffset at -1 exactly when no correlation after the descent beats -1; otherwise it settles on the peak |
| PitchDetection.PeakUnique | services/pitchy_shim.ts:48-54 | at most one offset is the first maximum above -1 |
| PitchDetection.PeakExists | services/pitchy_shim.ts:48-54 | if some correlation after the descent beats -1, there is a peak |
| PitchDetection.FindPeak | services/pitchy_shim.ts:48-54 | the loop as written computes the scan's bestOffset and maxCorrelation |
| PitchDetection.PeakOffset | services/pitchy_shim.ts:21-56 | no period exactly when the frame is quiet or no correlation after the descent beats -1; otherwise the period is the peak |
| PitchDetection.Silent | services/pitchy_shim.ts:24-32 | the RMS gate, squared. A silent or empty frame has no period (`PeakOffset`) and gives [0, 0] (`FindPitch`); a non-empty frame that is not silent has positive energy (`AudibleHasEnergy`) |
| PitchDetection.AudibleHasEnergy | services/pitchy_shim.ts:24-32 | a non-empty frame that passes the RMS gate has positive energy |
| PitchDetection.AudibleFrameDescends | services/pitchy_shim.ts:36-46 | with two samples or more, an audible frame descends at least one lag, so the period is never 0 |
| PitchDetection.FindPitch | services/pitchy_shim.ts:21-62 | quiet or empty frames give [0, 0]; clarity never exceeds 1; with two samples or more the pitch is finite |
| PitchDetection.ClarityAtMostOne | services/pitchy_shim.ts:56-59 | after the gate the divisor correlations[0] is positive and the clarity ratio is at most 1 |
| PitchDetection.VoicedClarity | services/pitchy_shim.ts:56-59 | when a period k is found the frame has positive energy, and the clarity is the peak correlation divided by that energy |
| PitchDetection.VoicedPitch | services/pitchy_shim.ts:56-61 | when a period k > 0 is found the pitch is finite and times k gives the sample rate back; a period of 0 happens only for one-sample frames |
| PitchDetection.Clarity | services/pitchy_shim.ts:59 | the clarity times correlations[0] gives the peak correlation back |
| PitchDetection.EmptyFramePassesGate | services/pitchy_shim.ts:26-32 | the empty frame passes the RMS gate with zero energy, but has no period and gives [0, 0], so it never divides by correlations[0] |
| PitchDetection.UnvoicedEstimate | services/pitchy_shim.ts:56 | without a period the answer is [0, 0] |
| PitchDetection.OneSampleFrame | services/pitchy_shim.ts:26-61 | one audible sample gives pitch Infinity with clarity 1 |
| PitchDetection.NegativeClarity | services/pitchy_shim.ts:48-61 | the frame [1, -0.5] gives pitch sampleRate and clarity -0.4 |
| PitchDetection.LoudFrameWithoutPeak | services/pitchy_shim.ts:44-56 | the loud frame [1, -2] still gives [0, 0], because every correlation after the descent is below -1 |
| PitchDetection.DetectPitch | services/pitchy_shim.ts:21-62 | the imperative findPitch (gate, loops, scan, divisions) returns exactly the functional estimate |
| PitchSession.Mount | hooks/usePitchDetection.ts:5-10 | the hook starts with pitch null, clarity 0 and no refs; it starts acquiring the microphone exactly when active |
| PitchSession.FillFrame | hooks/usePitchDetection.ts:16-18 | the frame has exactly the detector's input length, holding the newest samples and zeros past their end |
| PitchSession.FrameMatchesAnalyser | hooks/usePitchDetection.ts:16-18 | the frame handed to the detector is as long as the analyser's FFT |
| PitchSession.Gate | hooks/usePitchDetection.ts:25-30 | the pitch is kept exactly when clarity is above 0.85, and is then the detected pitch |
| PitchSession.Detect | hooks/usePitchDetection.ts:15-23 | the detector runs on a frame exactly as long as the analyser's FFT, at the context's sample rate; on frames of two samples or more the pitch is finite and clarity is at most 1 |
| PitchSession.Tick | hooks/usePitchDetection.ts:12-34 | with no refs a tick changes nothing; otherwise it records the detected clarity, gates the pitch, schedules the next frame and touches nothing else |
| PitchSession.Open | hooks/usePitchDetection.ts:41-50 | after the grant the refs hold a 2048-point analyser at the granted rate, the context is open, the acquisition is over and the first tick has run and scheduled the next |
| PitchSession.StepAsWritten | hooks/usePitchDetection.ts:36-62 | the hook's callbacks as written: a grant opens the capture only while acquiring and is ignored otherwise; a refusal ends the acquisition and changes no ref; a frame with nothing pending is ignored, and a pending one ticks; the cleanup cancels and closes but leaves an acquisition in flight |
| PitchSession.Step | hooks/usePitchDetection.ts:36-62 | the same callbacks with the cleanup also cancelling the acquisition: a grant after the cleanup opens nothing, and the cleanup leaves the session stopped with pitch and clarity frozen |
| PitchSession.Release | hooks/usePitchDetection.ts:58-61 | the cleanup cancels the pending frame and closes the context; pitch, clarity and refs are untouched |
| PitchSession.AnalyserPitchIsFinite | hooks/usePitchDetection.ts:15-23 | on the 2048-sample frames of the analyser the detected pitch is finite and clarity is at most 1 |
| PitchSession.MountIsValid | hooks/usePitchDetection.ts:6-10 | the initial state satisfies the session invariant |
| PitchSession.TickPreservesValid | hooks/usePitchDetection.ts:12-34 | a tick keeps the invariant: 2048-point analyser, frames pending only with a capture, accepted pitch finite and above the gate, clarity at most 1 |
| PitchSession.StepPreservesValid | hooks/usePitchDetection.ts:12-61 | every event keeps the invariant, in the code as written and in the corrected cleanup |
| PitchSession.RunPreservesValid | hooks/usePitchDetection.ts:12-61 | any sequence of events keeps the invariant |
| PitchSession.ReachableIsValid | hooks/usePitchDetection.ts:5-62 | every state reachable from mounting the hook satisfies the invariant |
| PitchSession.SilentFrameClearsPitch | hooks/usePitchDetection.ts:20-31 | a frame below the RMS gate sets pitch to null and clarity to 0 |
| PitchSession.IdleStaysIdle | hooks/usePitchDetection.ts:12-13 | a session with no refs, nothing pending and nothing being acquired stays idle under any events: no pitch, clarity 0, no refs, nothing pending or being acquired |
| PitchSession.InactiveNeverCaptures | hooks/usePitchDetection.ts:37 | with active false no capture starts and pitch and clarity stay null and 0 forever |
| PitchSession.DeniedNeverCaptures | hooks/usePitchDetection.ts:51-53 | after the microphone is refused nothing ticks and the state keeps its initial values |
| PitchSession.GrantStartsCapture | hooks/usePitchDetection.ts:41-50 | a grant opens a context, puts a 2048-point analyser at the granted rate in the refs, and schedules the next frame |
| PitchSession.StoppedStaysStopped | hooks/usePitchDetection.ts:58-61 | with the corrected cleanup, a stopped session keeps its pitch and clarity and never schedules or opens anything again |
| PitchSession.CleanupIsFinal | hooks/usePitchDetection.ts:58-61 | with the corrected cleanup, nothing that arrives after the cleanup schedules a tick, opens a context or changes pitch or clarity |
| PitchSession.StoppedStaysStoppedAsWritten | hooks/usePitchDetection.ts:58-61 | as written, a session with nothing pending, nothing open and nothing being acquired keeps its pitch and clarity and never schedules or opens again |
| PitchSession.CleanupAfterGrantIsFinalAsWritten | hooks/usePitchDetection.ts:39-61 | as written, a cleanup that comes after the grant or the refusal is final: no tick runs, no context stays open, pitch and clarity are frozen |
| PitchSession.CleanupRacesGrantAsWritten | hooks/usePitchDetection.ts:39-61 | as written, a grant that arrives after the cleanup still opens a context and schedules ticks |
| NoteNames.JsRemainder | components/GameContainer.tsx:21 | JavaScript's i % 12 is in [0, 12) for non-negative i and in (-12, 0] for negative i, and always differs from i by a multiple of 12 |
| NoteNames.Octave | components/GameContainer.tsx:20 | the octave o of key i satisfies 12(o+1) <= i < 12(o+2) |
| NoteNames.Decimal | components/GameContainer.tsx:22 | the template writes an integer with a leading minus exactly when it is negative |
| NoteNames.NoteName | components/GameContainer.tsx:18-21 | the name is one of the twelve names exactly for keys from 0 up and for negative multiples of 12; other keys print "undefined" (`NegativeKeyHasNoName`) |
| NoteNames.Label | components/GameContainer.tsx:20-22 | the label is the note name followed by the written octave, and splits back into both (`LabelRoundTrip`); key 60 is "C4" (`MiddleC`) |
| NoteNames.KeyNumber | components/GameContainer.tsx:19 | the nearest key to a frequency, counted in semitones from A4 = 69; its label for 440 Hz is "A4" (`ConcertPitchIsA4`) |
| NoteNames.NoteFromFreq | components/GameContainer.tsx:17-23 | the label of the nearest key; 440 Hz is "A4" (`ConcertPitchIsA4`) |
| NoteNames.KeySplits | components/GameContainer.tsx:20-21 | for keys from 0 up, the note index and the octave together give the key back |
| NoteNames.OctaveUp | components/GameContainer.tsx:20-21 | keys twelve apart have the same note name, one octave apart |
| NoteNames.DigitsRoundTrip | components/GameContainer.tsx:22 | the digits of a natural number read back as that number |
| NoteNames.DecimalRoundTrip | components/GameContainer.tsx:22 | the written octave, negative or not, reads back as the octave |
| NoteNames.LabelRoundTrip | components/GameContainer.tsx:17-23 | a label splits into the note name followed by the written octave |
| NoteNames.ConcertPitchIsA4 | components/GameContainer.tsx:17-23 | 440 Hz is labelled "A4" |
| NoteNames.MiddleC | components/GameContainer.tsx:20-22 | key 60 is labelled "C4" |
| NoteNames.NegativeKeyHasNoName | components/GameContainer.tsx:21 | a negative key that is not a multiple of 12 gets the name "undefined" |
| NoteNames.KeyMinusOne | components/GameContainer.tsx:20-22 | key -1 is labelled "undefined-2" |
| BallMotion.IsActive | components/GameContainer.tsx:34 | clarity above 0.85 and a pitch; on every state the hook can reach this is the same as having a pitch (`ActiveMeansPitch`) |
| BallMotion.Clamp | components/GameContainer.tsx:14-15 | the clamped pitch lies in [100, 800], is the pitch itself inside that range, and is the nearer end outside it |
| BallMotion.ClampPitch | components/GameContainer.tsx:44 | the clamp also places the infinities at the ends of [100, 800] |
| BallMotion.Factor | components/GameContainer.tsx:49 | the interpolation factor lies strictly between 0 and 1 and is the larger one exactly when active |
| BallMotion.LogPositionBounds | components/GameContainer.tsx:44-45 | the log scale maps [100, 800] Hz into [0, 100], with 100 Hz at 0 and 800 Hz at 100 |
| BallMotion.LogPositionMonotone | components/GameContainer.tsx:44-45 | a higher frequency sits strictly higher on the log scale |
| BallMotion.TargetOnScreen | components/GameContainer.tsx:43-46 | the target is in [0, 100]. It is 50 when not active, 0 for pitches up to 100 Hz and 100 for pitches from 800 Hz. |
| BallMotion.TargetFollowsPitch | components/GameContainer.tsx:43-46 | a higher active pitch never lowers the target, and between 100 and 800 Hz it raises it strictly |
| BallMotion.TargetY | components/GameContainer.tsx:43-46 | the target is on screen, in [0, 100], and is 50 when not active; its ends and its growth with the pitch are in `TargetOnScreen` and `TargetFollowsPitch` |
| BallMotion.Towards | components/GameContainer.tsx:51 | one smoothing step; it lands between the old height and the target and leaves 1 - f of the distance (`TowardsBetween`) |
| BallMotion.BallStep | components/GameContainer.tsx:43-51 | one 16 ms tick on the current reading; it keeps the ball on screen (`StepStaysOnScreen`) |
| BallMotion.Glide | components/GameContainer.tsx:50-52 | the height after a run of ticks; it stays on screen (`GlideStaysOnScreen`, `BallStaysOnScreen`) |
| BallMotion.TowardsBetween | components/GameContainer.tsx:51 | a smoothing step lands between the old height and the target, with the fraction 1 - f of the distance left to go |
| BallMotion.StepStaysOnScreen | components/GameContainer.tsx:43-51 | one 16 ms tick keeps an on-screen ball on screen |
| BallMotion.GlideStaysOnScreen | components/GameContainer.tsx:50-52 | any run of ticks keeps an on-screen ball on screen |
| BallMotion.BallStaysOnScreen | components/GameContainer.tsx:27 | from its starting height of 50 the ball never leaves [0, 100], whatever is sung |
| BallMotion.SettleFromBelow | components/GameContainer.tsx:51 | against a held target, a ball below it rises tick by tick and never overshoots |
| BallMotion.SettleFromAbove | components/GameContainer.tsx:51 | against a held target, a ball above it sinks tick by tick and never undershoots |
| BallMotion.ActiveMeansPitch | components/GameContainer.tsx:34 | on every state the hook can reach, isActive is the same as pitch !== null, and the pitch is a number the clamp can place |

## Left out

- The `pitchy` package the hook imports is not part of this model; each tick runs the repository's shim detector instead.
- Float32 rounding: samples and sums are exact reals. `Math.sqrt` in the RMS gate is replaced by the equivalent squared comparison.
- `Math.log`, `Math.log2` and `Math.round` are parameters. Only the strict growth of `Math.log` is assumed.
- The microphone, `AudioContext`, `AnalyserNode`, `requestAnimationFrame` and `setInterval` are events and parameters. Each callback is one atomic step, and React batching is not modelled.
- The 16 ms interval restarts whenever `isActive` or `pitch` changes. In the model each tick reads the current reading. The target and the factor depend only on that reading, so this is the same motion.
- BallMotion.TargetY, BallMotion.ClampPitch: a NaN pitch is excluded; `Math.max(MIN_FREQ, Math.min(MAX_FREQ, NaN))` would be NaN. It arises only from a one-sample frame at sample rate 0, never on the hook's 2048-sample frames (`ActiveMeansPitch`).
- PitchSession.Mount: `active` is fixed for the life of a mount. In the hook a change of `active` runs the cleanup and then the effect again. Going from true to false closes the capture but keeps the last pitch and clarity. Going from false to true starts a new `initAudio` without resetting them. So `InactiveNeverCaptures` covers a hook mounted inactive, not one switched off later. The only caller passes `true` (components/GameContainer.tsx:26).
- PitchSession.Release: closing the context is a flag. The promise that `close()` returns is not modelled.
- Stopping the microphone stream's tracks is not modelled. The source never stops them.
- The rest of GameContainer.tsx (the AI feedback timer, scoring, rendering) and the other components are not part of this model.

## Findings

| source | as written | input that shows it | evidently intended | confidence | as-written member | corrected member |
|---|---|---|---|---|---|---|
| hooks/usePitchDetection.ts:39-61 | The cleanup cancels only a frame already scheduled, and closes only a context already in the refs. An `initAudio` still waiting for `getUserMedia` is not cancelled. | Mount with active true, run the cleanup before the microphone is granted (the exit button pressed while the permission prompt is still open), then grant. The late grant opens a context and starts the tick loop on an unmounted hook. | After the cleanup no tick runs and no capture stays open. | medium; not executed | PitchSession.CleanupRacesGrantAsWritten | PitchSession.CleanupIsFinal |

`PitchSession.StepAsWritten` is the hook as written. `PitchSession.Step`
adds a cancelled flag that the cleanup sets and the grant checks. The
invariant (`ReachableIsValid`) is proved for both. As written, a cleanup
that comes after the grant is already final
(`PitchSession.CleanupAfterGrantIsFinalAsWritten`), so the defect is
confined to a cleanup that races the grant.
