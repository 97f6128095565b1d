# Real-time audio analysis of moeko-chan, modelled in Dafny

This project models the audio pipeline behind the dancing character. It has two parts.

The first part is the `analyze` tick of the `useAudioCapture` hook, `hooks/use-audio-capture.ts`. Once per animation frame it does the following:

- reads the analyser's byte-magnitude frequency bins;
- splits them into bass, mid and treble bands at the 250 Hz and 2000 Hz bins;
- derives a raw bass level and an energy capped at 1;
- counts consecutive silent frames;
- runs an adaptive-threshold beat detector with a 150 ms refractory period;
- estimates BPM from the median inter-beat interval and blends it into a running value;
- publishes an `AudioData` snapshot: a status, a display BPM, the smoothed mood and a down-sampled waveform.

Two other callbacks change the same state and are modelled too:

- the realtime BPM analyser's message handler;
- `cleanup`, the reset that `startCapture` and `stopCapture` run.

The second part is the heuristic classifier and smoother in `lib/audio-ml.ts`:

- `analyzeAudioFeatures`: band averages, spectral centroid, energy, valence and the quadrant mood rule;
- `detectGenre`: a score table and an argmax;
- `calculateDanceability`;
- `getSmoothedPrediction`, a 60-entry FIFO with a 40% majority vote for the mood and window means for energy and valence;
- `resetPredictionHistory`.

Everything is modelled as immutable values and pure functions. Each module corresponds to a piece of the program:

| module | file | what it holds |
|---|---|---|
| `Numeric` | numeric.dfy | JavaScript `Math.round` and `Math.min(1, ·)`, clamping, and numbers that may be NaN (`Level`) |
| `History` | history.dfy | the bounded push-then-shift buffers and the "last `cap` values" window they equal |
| `Frame` | frame.dfy | byte bins, range sums and index-weighted sums |
| `Sorting` | sorting.dfy | the ascending sort of the intervals and the median selection |
| `Vote` | vote.dfy | the most frequent label, ties to the label seen first (a stable sort of `Object.entries` in insertion order) |
| `AudioMl` | audio_ml.dfy | `lib/audio-ml.ts` |
| `BeatDetector` | beat_detector.dfy | the beat and BPM part of the tick, and the realtime handler's effect |
| `AudioCapture` | audio_capture.dfy | the whole tick, the session state, `cleanup`/`startCapture`, and properties of runs of ticks |

How JavaScript is represented:

- Numbers are exact `real`s, and `Math.round(x)` is `floor(x + 0.5)`.
- `a || b` on numbers is "`a` unless it is 0".
- The one NaN that reaches the state or the output is `rawBassLevel`, which is `0 / 0` when the bass band is empty. It is a value of `Level`. Every comparison with it is false, and it makes the threshold NaN while it stays in the 30-sample window.
- The waveform filter `i % step === 0` computes `i % 0`, also NaN, when a frame has fewer than 107 bins. That NaN never equals 0, so nothing is kept, and the model returns an empty waveform.
- Every band edge is an integer form of the source's floors. For example, `floor(250 / (sampleRate / 2 / n))` is modelled as the largest `b ≤ n` with `b · sampleRate ≤ 500 n`.
- Timestamps are whole milliseconds, given as inputs: `performance.now()` and `Date.now()` are separate fields of `Input`.
- Spectral flatness is an input as well.

Two consequences of the code as written are proved rather than assumed:

- The tick and the realtime handler always write `lastValidBpm` together with `currentBpm`, and `cleanup` zeroes both. So `lastValidBpm == currentBpm` between callbacks (`BeatDetector.Consistent`). As a result, the "lost" branch of the status chain can never be taken (`AudioCapture.ChainNeverLost`), and the last fallback of the display chain never decides (`AudioCapture.LastValidFallbackRedundant`). "lost" reaches the UI only through the silence snapshot (`AudioCapture.LostOnlyInSilence`).
- Recorded beats are more than 150 ms apart. Every interval is therefore positive, and the `medianInterval > 0` guard never rejects a reading (`BeatDetector.IntervalsExceedRefractory`).

## Model

| member | source | states |
|---|---|---|
| Numeric.Round | hooks/use-audio-capture.ts:294 | `Math.round(x)` is the integer within half a unit of `x`, with halves rounding up: `x − 0.5 < r ≤ x + 0.5` |
| Numeric.RoundWithin | hooks/use-audio-capture.ts:300-302 | rounding a value between two integers stays between them |
| Numeric.AtMostOne | hooks/use-audio-capture.ts:191-194 | `Math.min(1, x)` is at most 1 and at most `x`, and equals one of them |
| Numeric.Clamp01 | lib/audio-ml.ts:218 | `Math.min(1, Math.max(0, x))` lies in [0,1], leaves values already in [0,1] alone, sends negatives to 0 and values above 1 to 1 |
| Numeric.SumLevels | hooks/use-audio-capture.ts:237-239 | the `reduce` sum of the energy history is a number exactly when no entry is NaN |
| Numeric.Scale | hooks/use-audio-capture.ts:240 | `avgEnergy * 1.2` is NaN exactly when the mean is, and otherwise the product |
| Numeric.MeanLevel | hooks/use-audio-capture.ts:237-240 | the history mean, and so the threshold, is NaN exactly when some entry in the window is NaN |
| History.Push | hooks/use-audio-capture.ts:232-235 | push then shift: the length grows by one until it reaches the cap, the result is a suffix of old entries plus the new one, and the new value is last |
| History.PushKeepsWindow | lib/audio-ml.ts:225-228 | pushing onto the last-`cap` window of `xs` gives the last-`cap` window of `xs` plus the new value |
| History.PushAllIsWindow | lib/audio-ml.ts:225-228 | after any sequence of pushes, a buffer that started with at most `cap` entries holds exactly the last `min(cap, total)` values |
| Frame.Sum | hooks/use-audio-capture.ts:175-186 | a band's sum is at most 255 per bin |
| Frame.SumSplit | hooks/use-audio-capture.ts:175-186 | sums over consecutive ranges add up, so every bin is counted once |
| Frame.SumZero | lib/audio-ml.ts:48 | a range sums to 0 exactly when all of its bins are 0 |
| Frame.WeightedBound | lib/audio-ml.ts:44-47 | `Σ i·bins[i] ≤ (n − 1)·Σ bins[i]` |
| Sorting.Insert | hooks/use-audio-capture.ts:290 | inserting into a sorted list gives a sorted list with the same elements plus the new one |
| Sorting.Sort | hooks/use-audio-capture.ts:290 | `intervals.sort((a, b) => a - b)` is a sorted permutation of the intervals |
| Sorting.CountWherePermutation | hooks/use-audio-capture.ts:290-291 | how many elements satisfy a test does not depend on their order |
| Sorting.RankInSorted | hooks/use-audio-capture.ts:291 | in a sorted list, at most `k` elements are below the one at index `k`, and at most `len − 1 − k` are above it |
| Sorting.Median | hooks/use-audio-capture.ts:290-291 | the median interval is one of the intervals, at most `floor(len/2)` intervals are shorter, and at most `len − 1 − floor(len/2)` are longer |
| Vote.Plurality | lib/audio-ml.ts:230-249 | the chosen label occurs in the history, no label occurs more often, and no equally frequent label is seen earlier |
| Vote.PluralityUnique | lib/audio-ml.ts:241-249 | those three properties determine the chosen label uniquely |
| Vote.CountAtMostLength | lib/audio-ml.ts:259-260 | a label occurs at most `len` times |
| AudioMl.GenreIndex | lib/audio-ml.ts:99-111 | every genre is a key of the score table, at its declaration position |
| AudioMl.Average | lib/audio-ml.ts:37-39 | `sum / (count \|\| 1)` of values in [0,1] lies in [0,1]; an empty band gives 0, and a non-empty one gives the sum over `count` |
| AudioMl.BandAverages | lib/audio-ml.ts:21-40 | the band edges are `floor(0.1 n)` and `floor(0.5 n)`; bass, mid, high and total are the `Average` of the bins below the first edge, between the edges, above the second edge and over the whole frame, each in [0,1] |
| AudioMl.BandsPartitionFrame | lib/audio-ml.ts:24-35 | each bin falls in exactly one band: the three band sums add up to the frame's sum |
| AudioMl.Centroid | lib/audio-ml.ts:42-48 | the centroid is 0.5 for an all-zero frame; otherwise, multiplied by `Σ bins · n`, it gives `Σ i·bins[i]`, and it is at most `(n − 1)/n`; always in [0,1) |
| AudioMl.ClassifyMood | lib/audio-ml.ts:69-78 | each of the four moods holds exactly in its quadrant of energy > 0.5 and valence > 0.5 |
| AudioMl.MoodDependsOnQuadrant | lib/audio-ml.ts:69-78 | frames whose energy and valence fall on the same sides of 0.5 get the same mood |
| AudioMl.GenreScores | lib/audio-ml.ts:99-198 | one non-negative integer score for each of the ten keys |
| AudioMl.PickFrom | lib/audio-ml.ts:200-208 | the `Object.entries` scan ends with the maximum score, held by the first key that reached it, or still "pop" at score 0 |
| AudioMl.PickGenre | lib/audio-ml.ts:200-210 | the argmax has the maximal score, every earlier key has a strictly lower score, and the result is "pop" when all scores are 0 |
| AudioMl.DetectGenre | lib/audio-ml.ts:91-210 | the same three properties over the rule table |
| AudioMl.Danceability | lib/audio-ml.ts:213-219 | danceability lies in [0,1] |
| AudioMl.DanceabilityPeaksAt120 | lib/audio-ml.ts:214 | with bass and energy fixed, moving the tempo toward 120 BPM never lowers danceability |
| AudioMl.Analyze | lib/audio-ml.ts:13-89 | energy, valence and danceability lie in [0,1]; energy is `min(1, 2·mean)`; valence is `0.6·centroid + 0.4·(1 − bass)`; the mood is the quadrant of the two; the genre is `DetectGenre` of the band averages, the centroid, the flatness and the BPM; danceability is `Danceability` of the BPM, the bass average and the energy |
| AudioMl.MeanBounds | lib/audio-ml.ts:263-265 | the mean of values in [lo, hi] lies in [lo, hi] |
| AudioMl.MoodVote | lib/audio-ml.ts:249-256 | the most frequent mood wins if it reaches 40% of the history, and otherwise the result is "chill" |
| AudioMl.Share | lib/audio-ml.ts:259-260 | `count / len` of a label in the history lies in (0,1], and multiplied by `len` it gives the count |
| AudioMl.Predict | lib/audio-ml.ts:230-266 | both smoothed confidences lie in (0,1] |
| AudioMl.Smooth | lib/audio-ml.ts:224-267 | the history stays within 60 entries and ends with the new result, and the prediction is made over the updated history |
| AudioMl.SmoothedMood | lib/audio-ml.ts:241-260 | a mood other than "chill" has at least 40% of the history; if some mood reaches 40% the plurality wins, otherwise "chill"; moodConfidence is the top count over `len` |
| AudioMl.FirstPredictionAfterReset | lib/audio-ml.ts:269-271 | the first call after a reset returns the raw result's mood, genre, energy, valence and danceability, with confidence 1 |
| AudioMl.HistoryIsLastResults | lib/audio-ml.ts:224-228 | after a reset, the history is the last `min(60, k)` results passed in |
| AudioMl.SmoothedOverWindow | lib/audio-ml.ts:230-266 | the `k`-th prediction after a reset has the mean energy and valence of the last `min(60, k)` results and their mood vote, and those means stay in [0,1] |
| BeatDetector.Intervals | hooks/use-audio-capture.ts:285-288 | one interval per consecutive pair of beats, each the later time minus the earlier |
| BeatDetector.BpmReading | hooks/use-audio-capture.ts:284-295 | a reading needs at least two beats and lies in [50, 200]; from two beats on, there is a reading exactly when the median interval is positive and `round(60000 / median)` is in [50, 200], and then it is that value |
| BeatDetector.SteadyBeatsGiveReading | hooks/use-audio-capture.ts:284-295 | beats 300 to 1200 ms apart always give a reading: the rounded BPM of their median interval, which lies in [300, 1200] |
| BeatDetector.Blend | hooks/use-audio-capture.ts:296-302 | the first reading replaces a zero estimate; a later one gives `0.6·old + 0.4·reading` rounded to within half a unit, which lies between the old estimate and the reading |
| BeatDetector.Step | hooks/use-audio-capture.ts:230-306 | the energy history gains the raw level; the threshold is 1.2 × its mean; a beat fires exactly when the level is above the threshold, above 0.05 and more than 150 ms after the last beat; only a fired beat moves `lastBeatTime` and the beat log; an accepted reading sets current and last valid BPM to the blend, and nothing else changes them |
| BeatDetector.RealtimeUpdate | hooks/use-audio-capture.ts:568-578 | a message with a non-zero first tempo writes the rounded tempo to the realtime, current and last valid BPM; any other message changes nothing; the beat state is never touched |
| BeatDetector.PushKeepsBeatLog | hooks/use-audio-capture.ts:263-281 | recording a beat more than 150 ms after the last keeps the log within 20 spaced beats ending at the new one |
| BeatDetector.StepConsistent | hooks/use-audio-capture.ts:230-306 | a tick keeps the detector invariant: bounded histories, last logged beat = `lastBeatTime`, beats more than 150 ms apart, last valid = current |
| BeatDetector.RealtimeConsistent | hooks/use-audio-capture.ts:571-578 | a realtime message keeps the same invariant |
| BeatDetector.IntervalsExceedRefractory | hooks/use-audio-capture.ts:286-293 | every interval in a consistent log, and so the median, exceeds 150 ms |
| BeatDetector.StepKeepsPlausible | hooks/use-audio-capture.ts:293-305 | a tick never takes the running BPM out of {0} ∪ [50, 200] |
| BeatDetector.Refractory | hooks/use-audio-capture.ts:260-268 | no beat can fire within 150 ms after a beat |
| BeatDetector.MedianIgnoresOutlier | hooks/use-audio-capture.ts:285-294 | intervals of 500, 505, 495 and one 2000 ms gap give 119 BPM (the mean would give 69) |
| AudioCapture.EffectiveRate | hooks/use-audio-capture.ts:163 | a missing sample rate is replaced by 44100, and a present one is kept |
| AudioCapture.BandEdge | hooks/use-audio-capture.ts:163-168 | the edge is `min(floor(cutoff / binSize), n)`: at most `n`, its bins are all below the cutoff, and if it is below `n` the next bin is not |
| AudioCapture.EdgesOrdered | hooks/use-audio-capture.ts:167-168 | the 250 Hz edge never comes after the 2000 Hz edge |
| AudioCapture.Measure | hooks/use-audio-capture.ts:163-194 | the band edges are the `BandEdge`s of 250 Hz and 2000 Hz at the effective sample rate, with `0 ≤ bassEnd ≤ midEnd ≤ n`; the band loops sum exactly their ranges, and together they sum the whole frame; the raw bass level is NaN exactly when the bass band is empty and otherwise is `LevelOf(bassSum, bassEnd)`, in [0, 5]; the energy is `min(1, LevelOf(Σ bins, n))`, in [0,1] |
| AudioCapture.LevelOf | hooks/use-audio-capture.ts:190-194 | `sum / (count · 255) · 5` lies in [0, 5], is 0 exactly for an all-zero band and 5 exactly for a full-scale one |
| AudioCapture.QuietIffLowTotal | hooks/use-audio-capture.ts:190-209 | a frame is silent (energy < 0.03) exactly when `500 · Σ bins < 765 · n` |
| AudioCapture.SilentFrame | hooks/use-audio-capture.ts:190-263 | an all-zero frame is silent and can never fire a beat |
| AudioCapture.Status | hooks/use-audio-capture.ts:345-357 | never "idle"; in the order of the chain, each status holds exactly when its own test passes and every earlier one fails: "warming-up" in the first 2000 ms, then "detected" when either estimate is positive, "stabilizing" once a beat is logged, "lost" in silence with a positive last valid BPM, otherwise "detecting" |
| AudioCapture.ChainNeverLost | hooks/use-audio-capture.ts:355-356 | with last valid = current, the chain never yields "lost" |
| AudioCapture.Or | hooks/use-audio-capture.ts:376-380 | JavaScript `a \|\| b`: `a` unless it is 0, and 0 only when both are 0 |
| AudioCapture.DisplayBpm | hooks/use-audio-capture.ts:376-379 | the first non-zero of current, realtime and last valid BPM, or 0 when all three are 0 |
| AudioCapture.LastValidFallbackRedundant | hooks/use-audio-capture.ts:376-379 | with last valid = current, the display BPM is `current \|\| realtime` |
| AudioCapture.EffectiveBpm | hooks/use-audio-capture.ts:380 | the classifier gets the display BPM, or 100 when it is 0 |
| AudioCapture.SilenceSnapshot | hooks/use-audio-capture.ts:359-371 | the default data except: BPM = last valid, "lost" exactly when that is positive (else "detecting"), and the frame's peak |
| AudioCapture.MaxBin | hooks/use-audio-capture.ts:150 | `Math.max(...bins)` is a bin value and no bin exceeds it |
| AudioCapture.EveryNth | hooks/use-audio-capture.ts:408-411 | the index filter `i % step === 0` keeps `ceil(len/step)` elements, the `j`-th being element `j·step` |
| AudioCapture.ShownIsFloor | hooks/use-audio-capture.ts:409 | the waveform is drawn from `floor(0.6 n)` bins |
| AudioCapture.WaveStepIsFloor | hooks/use-audio-capture.ts:411 | the step is `floor(0.6 n / 64)`, and it is 0 exactly for frames of fewer than 107 bins |
| AudioCapture.Waveform | hooks/use-audio-capture.ts:408-412 | at most 64 points; none when `floor(0.6 n / 64)` is 0; otherwise `min(64, ceil(floor(0.6 n) / step))` points, point `j` being bin `j·step` |
| AudioCapture.Cleanup | hooks/use-audio-capture.ts:97-139 | every detector field is 0 or empty, the silence counter and prediction history are cleared, the analyser is detached, the defaults are published, and the start time is kept |
| AudioCapture.Start | hooks/use-audio-capture.ts:419-612 | a start clears everything as `cleanup` does and, once capture is up, takes the start time; a failed start leaves the session cleared and not capturing |
| AudioCapture.Realtime | hooks/use-audio-capture.ts:564-580 | a message changes only the detector, as `RealtimeUpdate` states |
| AudioCapture.Tick | hooks/use-audio-capture.ts:141-417 | without an analyser nothing changes; with one, data is always published, its status is never "idle", it shows a beat only when one fired, its waveform has at most 64 points, and the history stays within 60 |
| AudioCapture.TickSteps | hooks/use-audio-capture.ts:209-244 | the detector steps on the frame's raw bass level; the silence counter increments on a silent frame and resets to 0 on a loud one |
| AudioCapture.TickInSilence | hooks/use-audio-capture.ts:359-371 | beyond 300 silent ticks the silence snapshot is published and the prediction history is untouched |
| AudioCapture.TickActive | hooks/use-audio-capture.ts:376-413 | otherwise the classification joins the history; mood, valence and confidence come from the smoothed prediction, and BPM from the display chain; `isActive` holds exactly on a loud frame; the status is the chain's outside silence, and the frequency data is the sampled waveform |
| AudioCapture.TickHealthy | hooks/use-audio-capture.ts:141-417 | a tick keeps the session invariant: a consistent detector, and at most 60 predictions, each with values in [0,1] |
| AudioCapture.RealtimeHealthy | hooks/use-audio-capture.ts:571-578 | a realtime message keeps the session invariant |
| AudioCapture.StartHealthy | hooks/use-audio-capture.ts:129-136 | `cleanup` and a start establish the session invariant |
| AudioCapture.PublishedInRange | hooks/use-audio-capture.ts:396-406 | published energy, valence and mood confidence lie in [0,1] |
| AudioCapture.LostOnlyInSilence | hooks/use-audio-capture.ts:345-371 | "lost" is published only beyond 300 silent ticks, and then with a positive BPM |
| AudioCapture.WarmupUnlessSilent | hooks/use-audio-capture.ts:345-371 | within 2000 ms of the start, a tick reports "warming-up" unless it publishes the silence snapshot, which then shows "lost" or "detecting" |
| AudioCapture.WarmupAfterStart | hooks/use-audio-capture.ts:345-350 | the first tick after a start, if it comes within 2000 ms, reports "warming-up" |
| AudioCapture.FirstTickAfterStart | hooks/use-audio-capture.ts:394-405 | the first tick after a start publishes the frame's own mood and valence with confidence 1 |
| AudioCapture.SilenceCountIsQuietRun | hooks/use-audio-capture.ts:209-218 | the silence counter equals the number of trailing consecutive silent frames |
| AudioCapture.EnergyHistoryIsWindow | hooks/use-audio-capture.ts:232-235 | the energy history is the last `min(30, k)` raw bass levels |
| AudioCapture.TicksKeepPlausible | hooks/use-audio-capture.ts:293-305 | with no realtime messages, any run of ticks keeps the running BPM in {0} ∪ [50, 200] |
| AudioCapture.ZeroFramesKeepBpm | hooks/use-audio-capture.ts:209-213 | all-zero frames leave the current, last valid and realtime BPM alone and only advance the silence counter |
| AudioCapture.SilencePreservesBpm | hooks/use-audio-capture.ts:359-371 | after more than 300 all-zero frames, the snapshot shows the BPM known before the silence, as "lost" exactly when it is positive, with mood "chill" and not active |

## Left out

- Web Audio, `getUserMedia`/`getDisplayMedia`, the Electron loopback and the construction of the audio graph are I/O. `Start` takes only whether acquisition succeeded.
- The internals of the realtime BPM library are foreign code. Only the effect of its messages is modelled, as a list of candidate tempos where 0 stands for a missing or zero tempo.
- `requestAnimationFrame` scheduling, the 100 ms `setTimeout` that clears `beatRef` (hooks/use-audio-capture.ts:337-342), React state, and the ordering of ticks against messages are timers and concurrency. The model gives a pure step per callback.
- `lastActiveTimeRef` and `beatRef` are written but never read by the modelled code.
- The debug store, `logAudioMetrics` and the other `lib/audio-debug.ts` calls, and the console logging only observe. `lib/audio-debug.ts` is not part of this model.
- Spectral flatness (lib/audio-ml.ts:50-61) needs `Math.log` and `Math.exp`. `Analyze` and `Tick` take it as an input.
- The `Math.random()` confidences of a raw result (lib/audio-ml.ts:82, 84) are nondeterministic and never read by the smoother.
- Floating-point rounding is not modelled. Numbers are exact reals, and NaN is carried as a value only for `rawBassLevel`; the waveform's `i % 0` is modelled by its effect, an empty waveform.
- AudioCapture.Measure: requires at least one bin, because an analyser always yields at least 16 bins. With none, `Math.max()` and the divisions by `bufferLength` would give `-Infinity` and NaN.
- AudioMl.Analyze: requires at least one bin, because `totalEnergy /= bufferLength` has no guard.
- AudioMl.GenreScores: requires a non-negative mid level (`mid + 0.001` divides `bass`), which every frame's band average satisfies.
- AudioCapture.Tick: times are whole milliseconds, while `performance.now()` is fractional.
