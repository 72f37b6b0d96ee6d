# Sound-Analyzer: the per-frame metrics and the recording state, in Dafny

Sound-Analyzer is a single React component (`App.tsx`) that opens the
microphone, attaches a Web Audio `AnalyserNode` with an FFT size of 2048, and,
while recording, is meant to show two numbers per frame: a volume percentage (the
rounded RMS of the time-domain samples around the 128 bias) and a dominant
frequency (the rounded centre of the loudest spectrum bin, first one on ties).
As written, the frame loop returns at once, so both readings stay at 0; see the
`UpdateMetrics` line under "## Left out".

This project models:

- `samples.dfy`, module `Samples`: the `Byte` type of a `Uint8Array` element,
  the `Sq` function and two monotonicity lemmas.
- `loudness.dfy`, module `Loudness`: the sum-of-squares loop as a method
  proved against a recursive specification function. The rounded volume
  `Math.round(Math.sqrt(sum / n) * 100)` is expressed exactly over integers
  through the predicate `IsRoundedRoot`. Its bound, its zero case and the
  full-scale cases are proved as lemmas.
- `spectrum.dfy`, module `Spectrum`: the dominant-bin scan as a method proved
  against a recursive `Scan` function and against an independent definition
  of "first maximum" (`IsFirstPeak`), the two shown equivalent. The bin-to-Hz
  conversion is included, with its Nyquist bound.
- `app.dfy`, module `AudioAnalyzer`: class `App` with the component state
  `isRecording`, `volume` and `frequency`, the three refs, the set of streams
  whose microphone tracks are still live, and the error log. It has
  `StartRecording`, `StopRecording` and `UpdateMetrics`, which reuses one
  array for both buffers as the source does.

Modelling choices:

- The source divides each deviation by 128 in floating point. The model keeps
  the sum scaled by 128², `SumSquares`, so that source's float sum equals
  `SumSquares / 16384`.
- The sample rate, a float in the browser, is a positive integer here.
- Rounding follows `Math.round`: halves round up.

Points where the code behaves differently from what its UI suggests, all
followed by the model:

- `startRecording` has no "already recording" guard. A second call acquires
  a second stream and overwrites the stream ref. The first stream stays in
  `liveStreams`, and a later stop does not turn it off.
- `stopRecording` resets the state unconditionally and leaves the refs set.
  The audio context is not closed there.
- The time-domain window read each frame is `frequencyBinCount` = 1024
  samples, because the same 1024-element array is used for both reads. It is
  not the full 2048-sample FFT window.
- A failure after `getUserMedia` succeeded still leaves the stream in
  `mediaStreamRef` with its microphone on. If a later start succeeds, its
  stream replaces that one, so the first microphone stays on after the stop
  (the client method `AudioAnalyzer.FailedSetupLeaksStream`).

## Model

| member | source | states |
|---|---|---|
| Loudness.Deviation | App.tsx:67-68 | one sample's squared distance from 128 is at most 128², and is 0 exactly when the sample is 128 |
| Loudness.SumOfSquares | App.tsx:65-69 | the loop's final sum is the sum of squared deviations of the whole array, and is at most n·128² |
| Loudness.SumSquaresBound | App.tsx:65-69 | n samples sum to at most n·128² |
| Loudness.SumSquaresZeroIffSilent | App.tsx:65-69 | the sum is 0 if and only if every sample equals the 128 bias |
| Loudness.SumSquaresConstant | App.tsx:65-69 | a window of identical samples sums to n times that sample's deviation |
| Loudness.SumSquaresSquareWave | App.tsx:65-69 | a 0/255 square wave of even length sums to n/2·(128² + 127²) |
| Loudness.RoundedRoot | App.tsx:70-71 | the upward search returns a k with k − ½ ≤ √(num/den) < k + ½, the Math.round of the root |
| Loudness.RoundedRootUnique | App.tsx:70-71 | at most one integer is the rounded root, so the volume is fully determined |
| Loudness.RoundedRootBelow | App.tsx:70-71 | if num/den < (m + ½)², the rounded root is at most m |
| Loudness.VolumeFromSum | App.tsx:70-71 | the volume is Math.round(√(sum/(128²·n))·100), and it is at most 100 whenever sum ≤ n·128² |
| Loudness.VolumePercent | App.tsx:65-71 | a window's volume is the rounded RMS percentage of its normalised amplitudes, and it lies in [0, 100] |
| Loudness.VolumeZeroIff | App.tsx:70-71 | the shown volume is 0 if and only if 4·100²·sum < 128²·n, that is, the RMS is below half a percent |
| Loudness.SilentVolume | App.tsx:65-71 | an all-128 window has sum 0 and volume 0 |
| Loudness.FullScaleVolume | App.tsx:65-71 | an all-0 window has volume 100 |
| Loudness.SquareWaveVolume | App.tsx:65-71 | a full-scale 0/255 square wave has volume 100 |
| Spectrum.ScanFindsFirstPeak | App.tsx:75-82 | the scan's index is in range (0 for an empty spectrum), its magnitude is at least every bin's, every earlier bin is strictly smaller, and the kept value is that bin's magnitude |
| Spectrum.ScanIsFirstPeak | App.tsx:75-82 | an index is a first peak if and only if it is the scan's index |
| Spectrum.SilentSpectrum | App.tsx:75-82 | an all-zero spectrum selects bin 0 with value 0 |
| Spectrum.SinglePeak | App.tsx:75-82 | a bin strictly louder than all others is the one selected |
| Spectrum.DominantBin | App.tsx:75-82 | the loop returns the scan's index, which is the first maximum of the array |
| Spectrum.DominantHz | App.tsx:83-84 | hz − ½ ≤ index·sampleRate/fftSize < hz + ½, that is, Math.round of the bin frequency |
| Spectrum.ZeroBinZeroHz | App.tsx:83-84 | bin 0 reads as 0 Hz at every sample rate |
| Spectrum.BelowNyquist | App.tsx:32 | a bin below frequencyBinCount = fftSize/2 has exact frequency below sampleRate/2, and its rounded reading is at most sampleRate/2 |
| AudioAnalyzer.App.constructor | App.tsx:5-10 | the initial state is not recording, volume 0, frequency 0, with every ref null |
| AudioAnalyzer.App.StartRecording | App.tsx:23-43 | if acquisition fails, the error is logged and nothing else changes. If set-up fails after acquisition, the stream is held and live but recording does not start. If both succeed, recording starts with an analyser of FFT size 2048 and the context's sample rate. Volume and frequency are untouched. Each acquired stream is new, never one already live |
| AudioAnalyzer.App.StopRecording | App.tsx:45-52 | from any state: not recording, volume 0, frequency 0, and the held stream's tracks stopped; from idle the readings are already 0 and stay so; the refs and the log are unchanged |
| AudioAnalyzer.App.UpdateMetrics | App.tsx:60-84 | when not recording nothing changes. When recording, volume becomes the window's rounded RMS percentage and frequency the rounded centre of the first loudest bin, at most the Nyquist frequency, and the array is left holding the spectrum |

## Left out

- getUserMedia, AudioContext, AnalyserNode and the FFT are host calls. Their outcomes and the buffers they fill are parameters: a `Result` for each fallible step and arbitrary byte sequences for the two reads.
- requestAnimationFrame rescheduling and the useEffect unmount clean-up (App.tsx:12-21, 86) are host scheduling and React lifecycle. `UpdateMetrics` models one frame; the loop's liveness is not modelled.
- AudioAnalyzer.App.UpdateMetrics: its guard reads the current `isRecording`. In the source, `analyze` and `updateMetrics` read the `isRecording` captured by the render that created `startRecording`, which is `false`, so the frame loop returns at once (App.tsx:55, 61). React closure semantics are not modelled.
- Floating point: the division by 128, `Math.sqrt` and the float `sampleRate` are replaced by exact integer and rational arithmetic. Float rounding error near a half-way point is not captured.
- The audio-context lifecycle is not tracked. When set-up throws after `new AudioContext()` succeeded (App.tsx:28-33), that context stays open and is never stored. A second successful start overwrites `audioContextRef` (App.tsx:35) without closing the earlier context. The model only records the context the ref holds.
- The constraints the browser places on `sampleRate` beyond positivity are not modelled.
- JSX rendering, icons and styling (App.tsx:92-135) and the duplicated default export (App.tsx:138-140) are presentation only.
