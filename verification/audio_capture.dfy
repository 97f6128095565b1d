/** The `useAudioCapture` hook of `hooks/use-audio-capture.ts`: one `analyze` tick
    over a frame of byte-magnitude frequency bins, the realtime analyser's message
    handler, and the `cleanup` / `startCapture` resets. */
module AudioCapture {
  import opened Numeric
  import opened Frame
  import History
  import AudioMl
  import BeatDetector

  const Multiplier: real := 5.0
  const SilenceThreshold: real := 0.03
  const SilenceTimeout: nat := 300
  const WarmupMs: int := 2000
  const DefaultSampleRate: nat := 44100
  const BassCutoffHz: nat := 250
  const MidCutoffHz: nat := 2000
  const FallbackBpm: int := 100
  const WaveformPoints: nat := 64

  datatype BpmStatus = Idle | WarmingUp | Detecting | Stabilizing | Detected | Lost

  /** What the hook publishes to the UI. */
  datatype AudioData = AudioData(
    bpm: int, bpmStatus: BpmStatus, beatCount: nat, energy: real, mood: AudioMl.Mood, isActive: bool,
    valence: real, moodConfidence: real, beat: bool, maxFrequency: int, frequencyData: seq<Byte>)

  const DefaultAudioData: AudioData :=
    AudioData(0, Idle, 0, 0.0, AudioMl.Chill, false, 0.0, 0.0, false, 0, [])

  // ---------------------------------------------------------------------------
  // Band levels

  /** `audioContext.sampleRate || 44100`; a missing context reads as 0. */
  function EffectiveRate(sampleRate: nat): (r: nat)
    ensures r > 0
    ensures sampleRate > 0 ==> r == sampleRate
  {
    if sampleRate == 0 then DefaultSampleRate else sampleRate
  }

  /** `Math.min(Math.floor(cutoffHz / binSize), n)` where a bin spans
      `sampleRate / 2 / n` Hz: the number of whole bins below the cutoff. */
  function BandEdge(cutoffHz: nat, n: nat, sampleRate: nat): (b: nat)
    requires sampleRate > 0
    ensures b <= n
    ensures b * sampleRate <= 2 * cutoffHz * n
    ensures b < n ==> 2 * cutoffHz * n < (b + 1) * sampleRate
  {
    var edge := (2 * cutoffHz * n) / sampleRate;
    assert edge * sampleRate + (2 * cutoffHz * n) % sampleRate == 2 * cutoffHz * n;
    if edge < n then edge else n
  }

  /** A lower cutoff never gives a later edge. */
  lemma EdgesOrdered(lowHz: nat, highHz: nat, n: nat, sampleRate: nat)
    requires sampleRate > 0 && lowHz <= highHz
    ensures BandEdge(lowHz, n, sampleRate) <= BandEdge(highHz, n, sampleRate)
  {
    var lo := BandEdge(lowHz, n, sampleRate);
    var hi := BandEdge(highHz, n, sampleRate);
    if hi < n {
      ScaleUp(2 * lowHz, 2 * highHz, n);
      FactorLess(lo, hi + 1, sampleRate);
    }
  }

  /** Cancelling a positive factor from a strict inequality. */
  lemma FactorLess(a: nat, b: nat, c: nat)
    requires c > 0 && a * c < b * c
    ensures a < b
  {
    if a >= b {
      ScaleUp(b, a, c);
    }
  }

  /** The per-tick measurements of one frame. */
  datatype Levels = Levels(bassEnd: nat, midEnd: nat, bassSum: nat, midSum: nat, trebleSum: nat,
                           rawBass: Level, energy: real)

  /** The three band loops and the two levels derived from them: the raw bass
      level (NaN when the bass band is empty, as `0 / 0`) and the overall energy
      capped at 1. */
  function Measure(bins: seq<Byte>, sampleRate: nat): (l: Levels)
    requires |bins| > 0
    ensures l.bassEnd == BandEdge(BassCutoffHz, |bins|, EffectiveRate(sampleRate))
    ensures l.midEnd == BandEdge(MidCutoffHz, |bins|, EffectiveRate(sampleRate))
    ensures l.bassEnd <= l.midEnd <= |bins|
    ensures l.bassSum == Sum(bins, 0, l.bassEnd) && l.midSum == Sum(bins, l.bassEnd, l.midEnd)
            && l.trebleSum == Sum(bins, l.midEnd, |bins|)
    ensures l.bassSum + l.midSum + l.trebleSum == Sum(bins, 0, |bins|)
    ensures l.rawBass.NaN? <==> l.bassEnd == 0
    ensures l.rawBass.Finite? ==> 0.0 <= l.rawBass.value <= Multiplier
    ensures l.rawBass.Finite? ==> l.rawBass.value == LevelOf(l.bassSum, l.bassEnd)
    ensures l.energy == AtMostOne(LevelOf(Sum(bins, 0, |bins|), |bins|))
    ensures 0.0 <= l.energy <= 1.0
  {
    var n := |bins|;
    var rate := EffectiveRate(sampleRate);
    var bassEnd := BandEdge(BassCutoffHz, n, rate);
    var midEnd := BandEdge(MidCutoffHz, n, rate);
    EdgesOrdered(BassCutoffHz, MidCutoffHz, n, rate);
    var bassSum := Sum(bins, 0, bassEnd);
    var midSum := Sum(bins, bassEnd, midEnd);
    var trebleSum := Sum(bins, midEnd, n);
    SumSplit(bins, 0, bassEnd, midEnd);
    SumSplit(bins, 0, midEnd, n);
    var total := bassSum + midSum + trebleSum;
    var rawBass := if bassEnd == 0 then NaN else Finite(LevelOf(bassSum, bassEnd));
    Levels(bassEnd, midEnd, bassSum, midSum, trebleSum, rawBass, AtMostOne(LevelOf(total, n)))
  }

  /** `sum / (count * 255) * 5` for `count` bins of at most 255 each. */
  function LevelOf(sum: nat, count: nat): (r: real)
    requires count > 0 && sum <= 255 * count
    ensures 0.0 <= r <= Multiplier
    ensures r == 0.0 <==> sum == 0
    ensures r == Multiplier <==> sum == 255 * count
  {
    var fraction := sum as real / (count * 255) as real;
    assert fraction <= 1.0 by {
      assert sum as real <= (count * 255) as real;
    }
    assert fraction * (count * 255) as real == sum as real;
    assert fraction == 1.0 <==> sum == 255 * count;
    fraction * Multiplier
  }

  /** A frame is quiet when its energy is under the silence threshold. */
  predicate Quiet(bins: seq<Byte>, sampleRate: nat)
    requires |bins| > 0
  {
    Measure(bins, sampleRate).energy < SilenceThreshold
  }

  /** Quiet exactly when the bins average under 1.53 (= 0.03 * 255 / 5), whatever
      the sample rate. */
  lemma QuietIffLowTotal(bins: seq<Byte>, sampleRate: nat)
    requires |bins| > 0
    ensures Quiet(bins, sampleRate) <==> 500 * Sum(bins, 0, |bins|) < 765 * |bins|
  {
    var n := |bins|;
    var total := Sum(bins, 0, n);
    var x := LevelOf(total, n);
    assert Measure(bins, sampleRate).energy == AtMostOne(x);
    LevelBelow(total, n);
  }

  /** The uncapped level is under the threshold exactly when `500 sum < 765 count`. */
  lemma LevelBelow(sum: nat, count: nat)
    requires count > 0 && sum <= 255 * count
    ensures LevelOf(sum, count) < SilenceThreshold <==> 500 * sum < 765 * count
  {
    var d := (count * 255) as real;
    var f := sum as real / d;
    assert LevelOf(sum, count) == f * 5.0;
    QuotientBelow(sum as real, d, 0.006);
    assert (500 * sum) as real == 500.0 * sum as real;
    assert (765 * count) as real == 3.0 * d;
  }

  /** An all-zero frame is quiet and its bass level can never trigger a beat. */
  lemma SilentFrame(bins: seq<Byte>, sampleRate: nat)
    requires |bins| > 0
    requires forall i :: 0 <= i < |bins| ==> bins[i] == 0
    ensures Quiet(bins, sampleRate)
    ensures !Above(Measure(bins, sampleRate).rawBass, Finite(BeatDetector.MinBeatLevel))
  {
    var l := Measure(bins, sampleRate);
    SumZero(bins, 0, |bins|);
    SumZero(bins, 0, l.bassEnd);
    QuietIffLowTotal(bins, sampleRate);
  }

  lemma QuotientBelow(a: real, d: real, c: real)
    requires d > 0.0
    ensures a / d < c <==> a < c * d
  {
    assert (a / d) * d == a;
    if a / d < c {
      assert (a / d) * d < c * d;
    } else {
      assert (a / d) * d >= c * d;
    }
  }

  // ---------------------------------------------------------------------------
  // Published values

  /** The status chain: warming up for two seconds after the start, then detected
      once any estimate is positive, stabilizing once a beat is recorded, lost in
      sustained silence after a valid estimate, and detecting otherwise. */
  function Status(sinceStart: int, d: BeatDetector.Detector, inSilence: bool): (s: BpmStatus)
    ensures s != Idle
    ensures s == WarmingUp <==> sinceStart < WarmupMs
    ensures s == Detected <==> sinceStart >= WarmupMs && (d.currentBpm > 0 || d.realtimeBpm > 0)
    ensures s == Stabilizing <==> sinceStart >= WarmupMs && d.currentBpm <= 0 && d.realtimeBpm <= 0
                                  && |d.beatTimes| >= 1
    ensures s == Lost <==> sinceStart >= WarmupMs && d.currentBpm <= 0 && d.realtimeBpm <= 0
                           && |d.beatTimes| == 0 && inSilence && d.lastValidBpm > 0
    ensures s == Detecting <==> sinceStart >= WarmupMs && d.currentBpm <= 0 && d.realtimeBpm <= 0
                                && |d.beatTimes| == 0 && !(inSilence && d.lastValidBpm > 0)
  {
    if sinceStart < WarmupMs then WarmingUp
    else if d.currentBpm > 0 || d.realtimeBpm > 0 then Detected
    else if |d.beatTimes| >= 1 then Stabilizing
    else if inSilence && d.lastValidBpm > 0 then Lost
    else Detecting
  }

  /** A consistent detector never reports "lost" through the status chain: its
      last valid estimate is its current one. */
  lemma ChainNeverLost(sinceStart: int, d: BeatDetector.Detector, inSilence: bool)
    requires BeatDetector.Consistent(d)
    ensures Status(sinceStart, d, inSilence) != Lost
  {
  }

  /** JavaScript `a || b` on numbers (NaN does not arise here). */
  function Or(a: int, b: int): (r: int)
    ensures a != 0 ==> r == a
    ensures a == 0 ==> r == b
    ensures r == 0 <==> a == 0 && b == 0
  {
    if a != 0 then a else b
  }

  /** `current || realtime || lastValid`: the first non-zero estimate. */
  function DisplayBpm(d: BeatDetector.Detector): (bpm: int)
    ensures d.currentBpm != 0 ==> bpm == d.currentBpm
    ensures d.currentBpm == 0 && d.realtimeBpm != 0 ==> bpm == d.realtimeBpm
    ensures bpm == 0 <==> d.currentBpm == 0 && d.realtimeBpm == 0 && d.lastValidBpm == 0
    ensures bpm == d.currentBpm || bpm == d.realtimeBpm || bpm == d.lastValidBpm
  {
    Or(Or(d.currentBpm, d.realtimeBpm), d.lastValidBpm)
  }

  /** In a consistent detector the last-valid fallback never decides: the display
      is `current || realtime`. */
  lemma LastValidFallbackRedundant(d: BeatDetector.Detector)
    requires BeatDetector.Consistent(d)
    ensures DisplayBpm(d) == Or(d.currentBpm, d.realtimeBpm)
  {
  }

  /** The data published in sustained silence: the defaults, except that the last
      valid estimate is kept (status "lost" if there is one, else "detecting") and
      the frame's peak magnitude is reported. */
  function SilenceSnapshot(lastValid: int, maxFrequency: int): (a: AudioData)
    ensures a == DefaultAudioData.(bpm := a.bpm, bpmStatus := a.bpmStatus, maxFrequency := a.maxFrequency)
    ensures a.bpm == lastValid && a.maxFrequency == maxFrequency
    ensures a.bpmStatus == Lost <==> lastValid > 0
    ensures a.bpmStatus != Lost ==> a.bpmStatus == Detecting
  {
    AudioData(lastValid, if lastValid > 0 then Lost else Detecting, 0, 0.0, AudioMl.Chill, false,
              0.0, 0.0, false, maxFrequency, [])
  }

  /** `Math.max(...bins)` over a non-empty frame. */
  function MaxBin(bins: seq<Byte>): (m: Byte)
    requires |bins| > 0
    ensures m in bins
    ensures forall i :: 0 <= i < |bins| ==> bins[i] <= m
  {
    if |bins| == 1 then bins[0]
    else
      var rest := MaxBin(bins[..|bins| - 1]);
      assert forall i :: 0 <= i < |bins| - 1 ==> bins[..|bins| - 1][i] == bins[i];
      if bins[|bins| - 1] > rest then bins[|bins| - 1] else rest
  }

  /** `filter((_, i) => i % step === 0)`: the elements at multiples of `step`. */
  function EveryNth(s: seq<Byte>, step: nat): (r: seq<Byte>)
    requires step > 0
    ensures |r| == (|s| + step - 1) / step
    ensures forall j :: 0 <= j < |r| ==> j * step < |s| && r[j] == s[j * step]
    decreases |s|
  {
    if |s| == 0 then []
    else
      var m := |s| - 1;
      var init := s[..m];
      var rest := EveryNth(init, step);
      CountStep(m, step);
      assert forall j :: 0 <= j < |rest| ==> j * step < m && rest[j] == s[j * step];
      if m % step == 0 then rest + [s[m]] else rest
  }

  /** Multiples of `step` below `m + 1`: one more than below `m` exactly when `m`
      is one. */
  lemma CountStep(m: nat, step: nat)
    requires step > 0
    ensures (m + step) / step == (m + step - 1) / step + (if m % step == 0 then 1 else 0)
    ensures m % step == 0 ==> (m + step - 1) / step * step == m
  {
    var q := m / step;
    var r := m % step;
    assert m == q * step + r;
    assert m + step == (q + 1) * step + r;
    if r == 0 {
      assert m + step - 1 == q * step + (step - 1);
      DivOf(q, step, step - 1);
      DivOf(q + 1, step, 0);
    } else {
      assert m + step - 1 == (q + 1) * step + (r - 1);
      DivOf(q + 1, step, r - 1);
      DivOf(q + 1, step, r);
    }
  }

  lemma DivOf(q: nat, step: nat, r: nat)
    requires r < step
    ensures (q * step + r) / step == q
  {
    var x := q * step + r;
    var k := x / step;
    var rem := x % step;
    assert k * step + rem == q * step + r;
    if k > q {
      ScaleUp(q + 1, k, step);
    } else if k < q {
      ScaleUp(k + 1, q, step);
    }
  }

  /** The waveform sent to the UI: the first 60% of the bins sampled every
      `floor(0.6 n / 64)` bins, at most 64 points, and none when that step is 0
      (`i % 0` is NaN, which never equals 0). */
  function Waveform(bins: seq<Byte>): (w: seq<Byte>)
    ensures |w| <= WaveformPoints
    ensures WaveStep(|bins|) == 0 ==> w == []
    ensures forall j :: 0 <= j < |w| ==> j * WaveStep(|bins|) < |bins| && w[j] == bins[j * WaveStep(|bins|)]
    ensures WaveStep(|bins|) > 0 ==>
              |w| == Min(WaveformPoints, (Shown(|bins|) + WaveStep(|bins|) - 1) / WaveStep(|bins|))
  {
    var shown := Shown(|bins|);
    var step := WaveStep(|bins|);
    if step == 0 then []
    else
      var sampled := EveryNth(bins[..shown], step);
      SampledFromBins(bins, shown, step);
      if |sampled| <= WaveformPoints then sampled else sampled[..WaveformPoints]
  }

  lemma SampledFromBins(bins: seq<Byte>, shown: nat, step: nat)
    requires shown <= |bins| && step > 0
    ensures var sampled := EveryNth(bins[..shown], step);
      forall j :: 0 <= j < |sampled| ==> j * step < |bins| && sampled[j] == bins[j * step]
  {
    var prefix := bins[..shown];
    var sampled := EveryNth(prefix, step);
    forall j | 0 <= j < |sampled|
      ensures j * step < |bins| && sampled[j] == bins[j * step]
    {
      assert j * step < shown && sampled[j] == prefix[j * step];
    }
  }

  /** `Math.floor(n * 0.6)`: how many bins the waveform is drawn from. */
  function Shown(n: nat): (k: nat)
    ensures k <= n
  {
    (3 * n) / 5
  }

  /** `Shown(n)` is the floor of `0.6 n`. */
  lemma ShownIsFloor(n: nat)
    ensures 5 * Shown(n) <= 3 * n < 5 * Shown(n) + 5
  {
  }

  /** `Math.floor(n * 0.6 / 64)`: the sampling step. */
  function WaveStep(n: nat): nat
  {
    (3 * n) / 320
  }

  /** `WaveStep(n)` is the floor of `0.6 n / 64`, which is 0 (and so leaves the
      waveform empty) exactly for frames of fewer than 107 bins. */
  lemma WaveStepIsFloor(n: nat)
    ensures 320 * WaveStep(n) <= 3 * n < 320 * WaveStep(n) + 320
    ensures WaveStep(n) == 0 <==> n < 107
  {
  }

  function Min(a: nat, b: nat): nat
  {
    if a < b then a else b
  }

  // ---------------------------------------------------------------------------
  // The session

  /** The hook's refs between ticks: whether an analyser is attached, the beat
      detector, the silence counter, the prediction history of `lib/audio-ml.ts`
      and the wall-clock start time. */
  datatype Session = Session(capturing: bool, detector: BeatDetector.Detector, silenceCount: nat,
                             predictions: seq<AudioMl.MlResult>, startTime: int)

  /** One animation frame's inputs: the analyser's bins, the context's sample
      rate (0 when there is none), `performance.now()` and `Date.now()` in whole
      milliseconds, and the frame's spectral flatness. */
  datatype Input = Input(bins: seq<Byte>, sampleRate: nat, perfNow: int, wallNow: int, flatness: real)

  datatype Update = Unchanged | Publish(data: AudioData)

  /** The session after a tick, what was published, and whether a beat fired. */
  datatype TickResult = TickResult(session: Session, update: Update, beat: bool)

  /** `cleanup`: every detector ref, the silence counter and the prediction history
      are reset, the analyser is detached and the default data is published. The
      start time is left as it was. */
  function Cleanup(s: Session): (r: TickResult)
    ensures !r.session.capturing && r.session.silenceCount == 0 && r.session.predictions == []
    ensures r.session.detector == BeatDetector.Cleared
    ensures r.session.startTime == s.startTime
    ensures r.update == Publish(DefaultAudioData) && !r.beat
  {
    TickResult(Session(false, BeatDetector.Cleared, 0, [], s.startTime), Publish(DefaultAudioData), false)
  }

  /** `startCapture`: cleanup, then, once the audio graph is up, the start time is
      taken and capture begins; if acquiring the stream fails, cleanup again. */
  function Start(s: Session, acquired: bool, wallNow: int): (r: TickResult)
    ensures r.session.detector == BeatDetector.Cleared && r.session.silenceCount == 0 && r.session.predictions == []
    ensures r.session.capturing == acquired
    ensures acquired ==> r.session.startTime == wallNow
    ensures !acquired ==> r.session.startTime == s.startTime
    ensures r.update == Publish(DefaultAudioData) && !r.beat
  {
    var reset := Cleanup(s);
    if acquired then reset.(session := reset.session.(capturing := true, startTime := wallNow))
    else Cleanup(reset.session)
  }

  /** The realtime analyser's message: its first candidate's tempo, if any (0 for a
      missing or zero tempo), overrides the estimates. */
  function Realtime(s: Session, tempos: seq<real>): (r: Session)
    ensures r == s.(detector := r.detector)
    ensures r.detector == BeatDetector.RealtimeUpdate(s.detector, tempos)
  {
    s.(detector := BeatDetector.RealtimeUpdate(s.detector, tempos))
  }

  /** The BPM the classifier is given: the displayed one, or 100 if there is none. */
  function EffectiveBpm(d: BeatDetector.Detector): (bpm: int)
    ensures bpm != 0
    ensures DisplayBpm(d) != 0 ==> bpm == DisplayBpm(d)
    ensures DisplayBpm(d) == 0 ==> bpm == FallbackBpm
  {
    Or(DisplayBpm(d), FallbackBpm)
  }

  /** One `analyze` tick. Without an analyser nothing happens. Otherwise the frame
      is measured, the silence counter advances (or resets on a loud frame), the
      beat detector steps on the raw bass level, and either the silence snapshot
      is published (more than 300 quiet ticks in a row) or the frame is classified,
      smoothed and published with the display BPM. */
  function Tick(s: Session, input: Input): (r: TickResult)
    requires |input.bins| > 0
    ensures r.session.capturing == s.capturing && r.session.startTime == s.startTime
    ensures !s.capturing ==> r == TickResult(s, Unchanged, false)
    ensures s.capturing ==> r.update.Publish?
    ensures r.update.Publish? ==> r.update.data.bpmStatus != Idle
    ensures r.update.Publish? && r.update.data.beat ==> r.beat
    ensures r.update.Publish? ==> |r.update.data.frequencyData| <= WaveformPoints
    ensures r.update.Publish? ==> r.update.data.maxFrequency == MaxBin(input.bins)
    ensures |s.predictions| <= AudioMl.HistorySize ==> |r.session.predictions| <= AudioMl.HistorySize
  {
    if !s.capturing then TickResult(s, Unchanged, false)
    else
      var bins := input.bins;
      var levels := Measure(bins, input.sampleRate);
      var silenceCount := if levels.energy < SilenceThreshold then s.silenceCount + 1 else 0;
      var inSilence := silenceCount > SilenceTimeout;
      var outcome := BeatDetector.Step(s.detector, levels.rawBass, input.perfNow);
      var d := outcome.detector;
      var status := Status(input.wallNow - s.startTime, d, inSilence);
      if inSilence then
        TickResult(s.(detector := d, silenceCount := silenceCount),
                   Publish(SilenceSnapshot(d.lastValidBpm, MaxBin(bins))), outcome.fired)
      else
        var raw := AudioMl.Analyze(bins, EffectiveBpm(d), input.flatness);
        var smoothed := AudioMl.Smooth(s.predictions, raw);
        var data := AudioData(DisplayBpm(d), status, |d.beatTimes|, levels.energy, smoothed.prediction.mood,
                              levels.energy >= SilenceThreshold, smoothed.prediction.valence,
                              smoothed.prediction.moodConfidence, outcome.fired, MaxBin(bins), Waveform(bins));
        TickResult(s.(detector := d, silenceCount := silenceCount, predictions := smoothed.history),
                   Publish(data), outcome.fired)
  }

  /** While capturing, the detector is stepped on the frame's raw bass level and
      the silence counter counts consecutive quiet frames. */
  lemma TickSteps(s: Session, input: Input)
    requires |input.bins| > 0 && s.capturing
    ensures var r := Tick(s, input);
      var outcome := BeatDetector.Step(s.detector, Measure(input.bins, input.sampleRate).rawBass, input.perfNow);
      && r.session.detector == outcome.detector
      && r.beat == outcome.fired
      && r.session.silenceCount == (if Quiet(input.bins, input.sampleRate) then s.silenceCount + 1 else 0)
  {
  }

  /** More than 300 quiet ticks in a row: the silence snapshot is published with
      the last valid estimate, and the prediction history is left alone. */
  lemma TickInSilence(s: Session, input: Input)
    requires |input.bins| > 0 && s.capturing
    requires Quiet(input.bins, input.sampleRate) && s.silenceCount >= SilenceTimeout
    ensures var r := Tick(s, input);
      && r.update == Publish(SilenceSnapshot(r.session.detector.lastValidBpm, MaxBin(input.bins)))
      && r.session.predictions == s.predictions
  {
  }

  /** Otherwise the frame's classification joins the prediction history, and the
      published mood, valence and confidence are the smoothed prediction's; the
      BPM is the display BPM, the energy is the frame's, and the UI sees the
      capture as active exactly on a loud frame. */
  lemma TickActive(s: Session, input: Input)
    requires |input.bins| > 0 && s.capturing
    requires !Quiet(input.bins, input.sampleRate) || s.silenceCount < SilenceTimeout
    ensures var r := Tick(s, input);
      var d := r.session.detector;
      var smoothed := AudioMl.Smooth(s.predictions, AudioMl.Analyze(input.bins, EffectiveBpm(d), input.flatness));
      && r.session.predictions == smoothed.history
      && r.update.Publish?
      && r.update.data.mood == smoothed.prediction.mood
      && r.update.data.valence == smoothed.prediction.valence
      && r.update.data.moodConfidence == smoothed.prediction.moodConfidence
      && r.update.data.bpm == DisplayBpm(d)
      && r.update.data.beatCount == |d.beatTimes|
      && r.update.data.energy == Measure(input.bins, input.sampleRate).energy
      && (r.update.data.isActive <==> !Quiet(input.bins, input.sampleRate))
      && r.update.data.beat == r.beat
      && r.update.data.bpmStatus == Status(input.wallNow - s.startTime, d, false)
      && r.update.data.frequencyData == Waveform(input.bins)
  {
  }

  // ---------------------------------------------------------------------------
  // Invariants

  /** Energy, valence and danceability of a classification all lie in [0, 1]. */
  predicate Unit(m: AudioMl.MlResult)
  {
    0.0 <= m.energy <= 1.0 && 0.0 <= m.valence <= 1.0 && 0.0 <= m.danceability <= 1.0
  }

  predicate AllUnit(h: seq<AudioMl.MlResult>)
  {
    forall k :: 0 <= k < |h| ==> Unit(h[k])
  }

  /** What holds of the hook's refs between callbacks. */
  predicate Healthy(s: Session)
  {
    BeatDetector.Consistent(s.detector) && |s.predictions| <= AudioMl.HistorySize && AllUnit(s.predictions)
  }

  lemma PushAllUnit(h: seq<AudioMl.MlResult>, m: AudioMl.MlResult)
    requires AllUnit(h) && Unit(m)
    ensures AllUnit(History.Push(h, m, AudioMl.HistorySize))
  {
    var grown := h + [m];
    var r := History.Push(h, m, AudioMl.HistorySize);
    var off := |h| + 1 - |r|;
    assert forall k :: 0 <= k < |r| ==> r[k] == grown[off + k];
  }

  lemma {:induction false} TickHealthy(s: Session, input: Input)
    requires |input.bins| > 0 && Healthy(s)
    ensures Healthy(Tick(s, input).session)
  {
    if s.capturing {
      var levels := Measure(input.bins, input.sampleRate);
      TickSteps(s, input);
      BeatDetector.StepConsistent(s.detector, levels.rawBass, input.perfNow);
      TickPredictions(s, input);
      var d := Tick(s, input).session.detector;
      PushAllUnit(s.predictions, AudioMl.Analyze(input.bins, EffectiveBpm(d), input.flatness));
    }
  }

  /** A tick either leaves the prediction history alone or pushes the frame's
      classification into it. */
  lemma TickPredictions(s: Session, input: Input)
    requires |input.bins| > 0
    ensures var r := Tick(s, input);
      || r.session.predictions == s.predictions
      || r.session.predictions == History.Push(s.predictions,
           AudioMl.Analyze(input.bins, EffectiveBpm(r.session.detector), input.flatness), AudioMl.HistorySize)
  {
  }

  /** The smoothed energy and valence of a history of in-range classifications are
      in range. */
  lemma PredictWithin(h: seq<AudioMl.MlResult>)
    requires |h| > 0 && AllUnit(h)
    ensures 0.0 <= AudioMl.Predict(h).valence <= 1.0 && 0.0 <= AudioMl.Predict(h).energy <= 1.0
  {
    AudioMl.MeanBounds(AudioMl.ValencesOf(h), 0.0, 1.0);
    AudioMl.MeanBounds(AudioMl.EnergiesOf(h), 0.0, 1.0);
  }

  lemma {:induction false} RealtimeHealthy(s: Session, tempos: seq<real>)
    requires Healthy(s)
    ensures Healthy(Realtime(s, tempos))
  {
    BeatDetector.RealtimeConsistent(s.detector, tempos);
  }

  lemma {:induction false} StartHealthy(s: Session, acquired: bool, wallNow: int)
    ensures Healthy(Start(s, acquired, wallNow).session)
    ensures Healthy(Cleanup(s).session)
  {
    assert BeatDetector.Consistent(BeatDetector.Cleared);
  }

  /** Published values of a healthy session are in range: energy and valence in
      [0, 1], mood confidence in [0, 1] (0 only in the silence snapshot). */
  lemma {:induction false} PublishedInRange(s: Session, input: Input)
    requires |input.bins| > 0 && Healthy(s) && s.capturing
    ensures var data := Tick(s, input).update.data;
      && 0.0 <= data.energy <= 1.0
      && 0.0 <= data.valence <= 1.0
      && 0.0 <= data.moodConfidence <= 1.0
  {
    if Quiet(input.bins, input.sampleRate) && s.silenceCount >= SilenceTimeout {
      TickInSilence(s, input);
    } else {
      TickActive(s, input);
      var d := Tick(s, input).session.detector;
      var raw := AudioMl.Analyze(input.bins, EffectiveBpm(d), input.flatness);
      PushAllUnit(s.predictions, raw);
      PredictWithin(AudioMl.Smooth(s.predictions, raw).history);
    }
  }

  /** "lost" is published only by the silence snapshot: never while sound is
      coming in, and only with a positive BPM. */
  lemma {:induction false} LostOnlyInSilence(s: Session, input: Input)
    requires |input.bins| > 0 && Healthy(s) && s.capturing
    ensures var data := Tick(s, input).update.data;
      data.bpmStatus == Lost ==> Quiet(input.bins, input.sampleRate) && s.silenceCount >= SilenceTimeout && data.bpm > 0
  {
    var levels := Measure(input.bins, input.sampleRate);
    var d := BeatDetector.Step(s.detector, levels.rawBass, input.perfNow).detector;
    BeatDetector.StepConsistent(s.detector, levels.rawBass, input.perfNow);
    var silenceCount := if levels.energy < SilenceThreshold then s.silenceCount + 1 else 0;
    ChainNeverLost(input.wallNow - s.startTime, d, silenceCount > SilenceTimeout);
  }

  /** Within two seconds of the start, a tick that does not publish the silence
      snapshot reports "warming-up"; one that does reports "lost" or "detecting"
      instead, because the snapshot replaces the status chain. */
  lemma {:induction false} WarmupUnlessSilent(s: Session, input: Input)
    requires |input.bins| > 0 && s.capturing && input.wallNow - s.startTime < WarmupMs
    ensures var status := Tick(s, input).update.data.bpmStatus;
      && (!Quiet(input.bins, input.sampleRate) || s.silenceCount < SilenceTimeout ==> status == WarmingUp)
      && (Quiet(input.bins, input.sampleRate) && s.silenceCount >= SilenceTimeout ==>
            status == Lost || status == Detecting)
  {
    if Quiet(input.bins, input.sampleRate) && s.silenceCount >= SilenceTimeout {
      TickInSilence(s, input);
    } else {
      TickActive(s, input);
    }
  }

  /** The first tick within two seconds of a start reports "warming-up". */
  lemma {:induction false} WarmupAfterStart(s: Session, wallNow: int, input: Input)
    requires |input.bins| > 0 && input.wallNow - wallNow < WarmupMs
    ensures Tick(Start(s, true, wallNow).session, input).update.data.bpmStatus == WarmingUp
  {
    TickActive(Start(s, true, wallNow).session, input);
  }

  /** The first tick after a start publishes the frame's own mood with full
      confidence, and the history then holds just that classification. */
  lemma {:induction false} FirstTickAfterStart(s: Session, wallNow: int, input: Input)
    requires |input.bins| > 0
    ensures var r := Tick(Start(s, true, wallNow).session, input);
      var raw := AudioMl.Analyze(input.bins, EffectiveBpm(r.session.detector), input.flatness);
      && r.session.predictions == [raw]
      && r.update.data.mood == raw.mood
      && r.update.data.moodConfidence == 1.0
      && r.update.data.valence == raw.valence
  {
    var started := Start(s, true, wallNow).session;
    TickActive(started, input);
    var r := Tick(started, input);
    AudioMl.FirstPredictionAfterReset(AudioMl.Analyze(input.bins, EffectiveBpm(r.session.detector), input.flatness));
  }

  // ---------------------------------------------------------------------------
  // Runs of ticks

  predicate Frames(inputs: seq<Input>)
  {
    forall k :: 0 <= k < |inputs| ==> |inputs[k].bins| > 0
  }

  /** The session after one tick per input, in order. */
  function RunTicks(s: Session, inputs: seq<Input>): (r: Session)
    requires Frames(inputs)
    ensures r.capturing == s.capturing && r.startTime == s.startTime
    decreases |inputs|
  {
    if |inputs| == 0 then s
    else Tick(RunTicks(s, inputs[..|inputs| - 1]), inputs[|inputs| - 1]).session
  }

  /** How many of the last inputs are quiet in a row. */
  function QuietRun(inputs: seq<Input>): (k: nat)
    requires Frames(inputs)
    ensures k <= |inputs|
    decreases |inputs|
  {
    if |inputs| == 0 then 0
    else if Quiet(inputs[|inputs| - 1].bins, inputs[|inputs| - 1].sampleRate) then QuietRun(inputs[..|inputs| - 1]) + 1
    else 0
  }

  /** The silence counter is the length of the trailing run of quiet frames (added
      to its starting value when every frame was quiet). */
  lemma {:induction false} SilenceCountIsQuietRun(s: Session, inputs: seq<Input>)
    requires Frames(inputs) && s.capturing
    ensures RunTicks(s, inputs).silenceCount
            == if QuietRun(inputs) == |inputs| then s.silenceCount + |inputs| else QuietRun(inputs)
    decreases |inputs|
  {
    if |inputs| > 0 {
      var init := inputs[..|inputs| - 1];
      SilenceCountIsQuietRun(s, init);
      TickSteps(RunTicks(s, init), inputs[|inputs| - 1]);
    }
  }

  /** The raw bass levels of a run of frames. */
  function BassLevels(inputs: seq<Input>): (ls: seq<Level>)
    requires Frames(inputs)
    ensures |ls| == |inputs|
    ensures forall k :: 0 <= k < |inputs| ==> ls[k] == Measure(inputs[k].bins, inputs[k].sampleRate).rawBass
  {
    seq(|inputs|, k requires 0 <= k < |inputs| => Measure(inputs[k].bins, inputs[k].sampleRate).rawBass)
  }

  /** The detector's energy history is the last 30 raw bass levels. */
  lemma {:induction false} EnergyHistoryIsWindow(s: Session, inputs: seq<Input>)
    requires Frames(inputs) && s.capturing && |s.detector.energyHistory| <= BeatDetector.EnergyWindow
    ensures RunTicks(s, inputs).detector.energyHistory
            == History.Window(s.detector.energyHistory + BassLevels(inputs), BeatDetector.EnergyWindow)
    decreases |inputs|
  {
    var h := s.detector.energyHistory;
    if |inputs| == 0 {
      assert h + BassLevels(inputs) == h;
    } else {
      var init := inputs[..|inputs| - 1];
      var last := inputs[|inputs| - 1];
      var level := Measure(last.bins, last.sampleRate).rawBass;
      var before := RunTicks(s, init);
      EnergyHistoryIsWindow(s, init);
      TickPushesLevel(before, last);
      History.PushKeepsWindow(h + BassLevels(init), level, BeatDetector.EnergyWindow);
      BassLevelsSnoc(h, inputs);
    }
  }

  lemma TickPushesLevel(s: Session, input: Input)
    requires |input.bins| > 0 && s.capturing
    ensures Tick(s, input).session.detector.energyHistory
            == History.Push(s.detector.energyHistory, Measure(input.bins, input.sampleRate).rawBass, BeatDetector.EnergyWindow)
  {
    TickSteps(s, input);
  }

  lemma BassLevelsSnoc(h: seq<Level>, inputs: seq<Input>)
    requires Frames(inputs) && |inputs| > 0
    ensures h + BassLevels(inputs) == (h + BassLevels(inputs[..|inputs| - 1]))
              + [Measure(inputs[|inputs| - 1].bins, inputs[|inputs| - 1].sampleRate).rawBass]
  {
    assert BassLevels(inputs) == BassLevels(inputs[..|inputs| - 1])
              + [Measure(inputs[|inputs| - 1].bins, inputs[|inputs| - 1].sampleRate).rawBass];
  }

  /** Ticks alone keep the running estimate in {0} ∪ [50, 200]. */
  lemma {:induction false} TicksKeepPlausible(s: Session, inputs: seq<Input>)
    requires Frames(inputs) && BeatDetector.Plausible(s.detector.currentBpm)
    ensures BeatDetector.Plausible(RunTicks(s, inputs).detector.currentBpm)
    decreases |inputs|
  {
    if |inputs| > 0 {
      var init := inputs[..|inputs| - 1];
      var last := inputs[|inputs| - 1];
      var before := RunTicks(s, init);
      TicksKeepPlausible(s, init);
      if before.capturing {
        TickSteps(before, last);
        BeatDetector.StepKeepsPlausible(before.detector, Measure(last.bins, last.sampleRate).rawBass, last.perfNow);
      }
    }
  }

  /** A frame whose bins are all zero. */
  predicate Zero(input: Input)
  {
    |input.bins| > 0 && forall i :: 0 <= i < |input.bins| ==> input.bins[i] == 0
  }

  /** All-zero frames leave every BPM estimate alone and only count silence. */
  lemma {:induction false} ZeroFramesKeepBpm(s: Session, inputs: seq<Input>)
    requires s.capturing && forall k :: 0 <= k < |inputs| ==> Zero(inputs[k])
    ensures Frames(inputs)
    ensures var r := RunTicks(s, inputs);
      && r.detector.currentBpm == s.detector.currentBpm
      && r.detector.lastValidBpm == s.detector.lastValidBpm
      && r.detector.realtimeBpm == s.detector.realtimeBpm
      && r.silenceCount == s.silenceCount + |inputs|
    decreases |inputs|
  {
    if |inputs| > 0 {
      var init := inputs[..|inputs| - 1];
      var last := inputs[|inputs| - 1];
      assert forall k :: 0 <= k < |init| ==> init[k] == inputs[k];
      ZeroFramesKeepBpm(s, init);
      var before := RunTicks(s, init);
      TickSteps(before, last);
      SilentFrame(last.bins, last.sampleRate);
    }
  }

  /** Sustained silence (more than 300 all-zero frames in a row) publishes the BPM
      known before it began, as "lost" when there was one. */
  lemma {:induction false} SilencePreservesBpm(s: Session, inputs: seq<Input>)
    requires s.capturing && |inputs| > SilenceTimeout
    requires forall k :: 0 <= k < |inputs| ==> Zero(inputs[k])
    ensures Frames(inputs)
    ensures var init := inputs[..|inputs| - 1];
      var data := Tick(RunTicks(s, init), inputs[|inputs| - 1]).update.data;
      && data.bpm == s.detector.lastValidBpm
      && (data.bpmStatus == Lost <==> s.detector.lastValidBpm > 0)
      && data.beatCount == 0 && !data.isActive && data.mood == AudioMl.Chill
  {
    var init := inputs[..|inputs| - 1];
    var last := inputs[|inputs| - 1];
    assert forall k :: 0 <= k < |init| ==> init[k] == inputs[k];
    ZeroFramesKeepBpm(s, inputs);
    ZeroFramesKeepBpm(s, init);
    var before := RunTicks(s, init);
    SilentFrame(last.bins, last.sampleRate);
    TickSteps(before, last);
    TickInSilence(before, last);
  }
}
