/** The beat and BPM detector inside the `analyze` tick of `hooks/use-audio-capture.ts`:
    an adaptive threshold over the last 30 raw bass levels, a 150 ms refractory
    period, a 20-entry beat-time history and a median-interval BPM estimate that
    is blended into the running value. */
module BeatDetector {
  import opened Numeric
  import History
  import Sorting

  const EnergyWindow: nat := 30
  const ThresholdFactor: real := 1.2
  const MinBeatLevel: real := 0.05
  const RefractoryMs: int := 150
  const BeatHistorySize: nat := 20
  const MinBpm: int := 50
  const MaxBpm: int := 200

  /** The detector's refs: `currentBpmRef`, `lastValidBpmRef`, `realtimeBpmRef`,
      `beatTimesRef`, `lastBeatTimeRef` and `energyHistoryRef`. */
  datatype Detector = Detector(currentBpm: int, lastValidBpm: int, realtimeBpm: int,
                               beatTimes: seq<int>, lastBeatTime: int, energyHistory: seq<Level>)

  /** Every field as `cleanup` leaves it (and as the refs are created). */
  const Cleared: Detector := Detector(0, 0, 0, [], 0, [])

  /** Differences of consecutive beat times. */
  function Intervals(times: seq<int>): (ds: seq<int>)
    ensures |ds| == if |times| == 0 then 0 else |times| - 1
    ensures forall i :: 0 <= i < |ds| ==> ds[i] == times[i + 1] - times[i]
  {
    if |times| <= 1 then [] else seq(|times| - 1, i requires 0 <= i < |times| - 1 => times[i + 1] - times[i])
  }

  datatype Reading = NoReading | Reading(bpm: int)

  /** The BPM a beat history yields: `Math.round(60000 / median interval)` from at
      least two beats, accepted only within [50, 200]. */
  function BpmReading(times: seq<int>): (r: Reading)
    ensures r.Reading? ==> |times| >= 2 && MinBpm <= r.bpm <= MaxBpm
    ensures |times| >= 2 ==>
              var m := Sorting.Median(Intervals(times));
              (r.Reading? <==> m > 0 && MinBpm <= Round(60000.0 / m as real) <= MaxBpm)
              && (r.Reading? ==> m > 0 && r.bpm == Round(60000.0 / m as real))
  {
    if |times| < 2 then NoReading
    else
      var median := Sorting.Median(Intervals(times));
      if median > 0 then
        var calculated := Round(60000.0 / median as real);
        if MinBpm <= calculated <= MaxBpm then Reading(calculated) else NoReading
      else NoReading
  }

  /** The running estimate after an accepted reading: the first reading replaces a
      zero estimate, later ones move it 40% of the way toward the reading, rounded. */
  function Blend(current: int, reading: int): (r: int)
    ensures current == 0 ==> r == reading
    ensures current != 0 && current <= reading ==> current <= r <= reading
    ensures current != 0 && reading <= current ==> reading <= r <= current
    ensures current != 0 ==>
              var x := current as real * 0.6 + reading as real * 0.4;
              x - 0.5 < r as real <= x + 0.5
  {
    if current == 0 then reading
    else
      var mixed := current as real * 0.6 + reading as real * 0.4;
      assert current <= reading ==> current as real <= mixed <= reading as real;
      assert reading <= current ==> reading as real <= mixed <= current as real;
      Round(mixed)
  }

  /** What one tick does to the detector, and what it decided. */
  datatype BeatOutcome = BeatOutcome(detector: Detector, fired: bool, threshold: Level)

  /** One tick of beat detection on this tick's raw bass level at time `now`
      (`performance.now()`, in ms). */
  function Step(d: Detector, level: Level, now: int): (r: BeatOutcome)
    ensures r.detector.energyHistory == History.Push(d.energyHistory, level, EnergyWindow)
    ensures r.threshold == Scale(MeanLevel(r.detector.energyHistory), ThresholdFactor)
    ensures r.fired <==> Above(level, r.threshold) && Above(level, Finite(MinBeatLevel)) && now - d.lastBeatTime > RefractoryMs
    ensures r.fired ==> r.detector.lastBeatTime == now
                        && r.detector.beatTimes == History.Push(d.beatTimes, now, BeatHistorySize)
    ensures !r.fired ==> r.detector.lastBeatTime == d.lastBeatTime && r.detector.beatTimes == d.beatTimes
    ensures r.detector.realtimeBpm == d.realtimeBpm
    ensures r.fired && BpmReading(r.detector.beatTimes).Reading? ==>
              r.detector.currentBpm == Blend(d.currentBpm, BpmReading(r.detector.beatTimes).bpm)
              && r.detector.lastValidBpm == r.detector.currentBpm
    ensures !(r.fired && BpmReading(r.detector.beatTimes).Reading?) ==>
              r.detector.currentBpm == d.currentBpm && r.detector.lastValidBpm == d.lastValidBpm
  {
    var history := History.Push(d.energyHistory, level, EnergyWindow);
    var threshold := Scale(MeanLevel(history), ThresholdFactor);
    var listening := d.(energyHistory := history);
    if Above(level, threshold) && Above(level, Finite(MinBeatLevel)) && now - d.lastBeatTime > RefractoryMs then
      var times := History.Push(d.beatTimes, now, BeatHistorySize);
      var beat := listening.(beatTimes := times, lastBeatTime := now);
      match BpmReading(times)
      case Reading(calculated) =>
        var bpm := Blend(d.currentBpm, calculated);
        BeatOutcome(beat.(currentBpm := bpm, lastValidBpm := bpm), true, threshold)
      case NoReading =>
        BeatOutcome(beat, true, threshold)
    else
      BeatOutcome(listening, false, threshold)
  }

  /** The realtime analyser's `port.onmessage`: a message whose first candidate has
      a (non-zero) tempo writes the rounded tempo to the realtime, current and last
      valid estimates; any other message changes nothing. */
  function RealtimeUpdate(d: Detector, tempos: seq<real>): (r: Detector)
    ensures |tempos| > 0 && tempos[0] != 0.0 ==>
              r.realtimeBpm == Round(tempos[0]) && r.currentBpm == Round(tempos[0]) && r.lastValidBpm == Round(tempos[0])
    ensures !(|tempos| > 0 && tempos[0] != 0.0) ==> r == d
    ensures r.beatTimes == d.beatTimes && r.lastBeatTime == d.lastBeatTime && r.energyHistory == d.energyHistory
  {
    if |tempos| > 0 && tempos[0] != 0.0 then
      var tempo := Round(tempos[0]);
      d.(realtimeBpm := tempo, currentBpm := tempo, lastValidBpm := tempo)
    else d
  }

  // ---------------------------------------------------------------------------
  // Invariants

  /** Recorded beats are more than the refractory period apart. */
  predicate Spaced(times: seq<int>)
  {
    forall i :: 0 < i < |times| ==> times[i] - times[i - 1] > RefractoryMs
  }

  /** What holds of the detector between ticks and messages: bounded histories,
      the last recorded beat is `lastBeatTime`, recorded beats are spaced by more
      than the refractory period, and the last valid estimate is the current one. */
  predicate Consistent(d: Detector)
  {
    && |d.energyHistory| <= EnergyWindow
    && BeatLog(d.beatTimes, d.lastBeatTime)
    && d.lastValidBpm == d.currentBpm
  }

  /** A beat history of at most 20 spaced beats whose last entry is `last`. */
  predicate BeatLog(times: seq<int>, last: int)
  {
    && |times| <= BeatHistorySize
    && (|times| > 0 ==> times[|times| - 1] == last)
    && Spaced(times)
  }

  /** Recording a beat more than the refractory period after the last one keeps
      the log spaced, also when the oldest beat is dropped. */
  lemma {:induction false} PushKeepsBeatLog(times: seq<int>, last: int, now: int)
    requires BeatLog(times, last) && now - last > RefractoryMs
    ensures BeatLog(History.Push(times, now, BeatHistorySize), now)
  {
    var grown := times + [now];
    SpacedSnoc(times, now);
    var r := History.Push(times, now, BeatHistorySize);
    SpacedSuffix(grown, |times| + 1 - |r|);
  }

  lemma SpacedSnoc(times: seq<int>, now: int)
    requires Spaced(times)
    requires |times| > 0 ==> now - times[|times| - 1] > RefractoryMs
    ensures Spaced(times + [now])
  {
    var grown := times + [now];
    forall i | 0 < i < |grown|
      ensures grown[i] - grown[i - 1] > RefractoryMs
    {
      if i < |times| {
        assert grown[i] == times[i] && grown[i - 1] == times[i - 1];
      }
    }
  }

  lemma SpacedSuffix(times: seq<int>, k: nat)
    requires Spaced(times) && k <= |times|
    ensures Spaced(times[k..])
  {
    var tail := times[k..];
    forall i | 0 < i < |tail|
      ensures tail[i] - tail[i - 1] > RefractoryMs
    {
      assert tail[i] == times[k + i] && tail[i - 1] == times[k + i - 1];
    }
  }

  lemma {:induction false} StepConsistent(d: Detector, level: Level, now: int)
    requires Consistent(d)
    ensures Consistent(Step(d, level, now).detector)
  {
    StepKeepsBeatLog(d, level, now);
    StepKeepsEstimates(d, level, now);
  }

  lemma {:induction false} StepKeepsBeatLog(d: Detector, level: Level, now: int)
    requires BeatLog(d.beatTimes, d.lastBeatTime)
    ensures var e := Step(d, level, now).detector; BeatLog(e.beatTimes, e.lastBeatTime)
  {
    var r := Step(d, level, now);
    if r.fired {
      PushKeepsBeatLog(d.beatTimes, d.lastBeatTime, now);
    }
  }

  lemma {:induction false} StepKeepsEstimates(d: Detector, level: Level, now: int)
    requires d.lastValidBpm == d.currentBpm
    ensures var e := Step(d, level, now).detector; e.lastValidBpm == e.currentBpm
  {
  }

  lemma {:induction false} RealtimeConsistent(d: Detector, tempos: seq<real>)
    requires Consistent(d)
    ensures Consistent(RealtimeUpdate(d, tempos))
  {
  }

  /** `Consistent` detectors have all inter-beat intervals above the refractory
      period, so the median is positive and the `medianInterval > 0` guard never
      rejects a reading. */
  lemma IntervalsExceedRefractory(d: Detector)
    requires Consistent(d) && |d.beatTimes| >= 2
    ensures forall m :: m in Intervals(d.beatTimes) ==> m > RefractoryMs
    ensures Sorting.Median(Intervals(d.beatTimes)) > RefractoryMs
  {
  }

  /** Plausible running estimate: none yet, or within [50, 200]. */
  predicate Plausible(bpm: int)
  {
    bpm == 0 || MinBpm <= bpm <= MaxBpm
  }

  /** Ticks alone never take the running estimate out of {0} ∪ [50, 200]. */
  lemma {:induction false} StepKeepsPlausible(d: Detector, level: Level, now: int)
    requires Plausible(d.currentBpm)
    ensures Plausible(Step(d, level, now).detector.currentBpm)
  {
    var r := Step(d, level, now);
    if r.fired && BpmReading(r.detector.beatTimes).Reading? {
      var reading := BpmReading(r.detector.beatTimes).bpm;
      assert MinBpm <= reading <= MaxBpm;
    }
  }

  /** A beat blocks any other beat within the next 150 ms: two transients 50 ms
      apart register once. */
  lemma Refractory(d: Detector, first: Level, second: Level, t: int, later: int)
    requires Step(d, first, t).fired && later - t <= RefractoryMs
    ensures !Step(Step(d, first, t).detector, second, later).fired
  {
  }

  /** Beats between 300 and 1200 ms apart (50 to 200 BPM) always yield a reading:
      the rounded BPM of their median interval, which is itself in that range. */
  lemma {:induction false} SteadyBeatsGiveReading(times: seq<int>)
    requires |times| >= 2
    requires forall i :: 0 <= i < |times| - 1 ==> 300 <= times[i + 1] - times[i] <= 1200
    ensures 300 <= Sorting.Median(Intervals(times)) <= 1200
    ensures BpmReading(times) == Reading(Round(60000.0 / Sorting.Median(Intervals(times)) as real))
  {
    var ds := Intervals(times);
    var m := Sorting.Median(ds);
    var i :| 0 <= i < |ds| && ds[i] == m;
    assert m == times[i + 1] - times[i];
    QuotientBetween(m as real);
    RoundWithin(60000.0 / m as real, MinBpm, MaxBpm);
  }

  /** `60000 / m` is a BPM in [50, 200] when the interval `m` is in [300, 1200] ms. */
  lemma QuotientBetween(m: real)
    requires 300.0 <= m <= 1200.0
    ensures 50.0 <= 60000.0 / m <= 200.0
  {
  }

  /** Intervals of 500, 505, 495 and 2000 ms: the median (505 ms) gives 119 BPM,
      where the mean (875 ms) would have given 69. */
  lemma MedianIgnoresOutlier()
    ensures BpmReading([0, 500, 1005, 1500, 3500]) == Reading(119)
  {
    var times := [0, 500, 1005, 1500, 3500];
    var ds := Intervals(times);
    assert ds[0] == 500 && ds[1] == 505 && ds[2] == 495 && ds[3] == 2000;
    assert ds == [500, 505, 495, 2000];
    MedianOfOutlierIntervals();
    RoundOf60000Over505();
  }

  lemma RoundOf60000Over505()
    ensures Round(60000.0 / 505 as real) == 119
  {
    var x := 60000.0 / 505 as real;
    assert 118.5 < x < 119.5 by {
      assert x * 505.0 == 60000.0;
    }
  }

  lemma MedianOfOutlierIntervals()
    ensures Sorting.Median([500, 505, 495, 2000]) == 505
  {
    var m := Sorting.Median([500, 505, 495, 2000]);
    CountFour(500, 505, 495, 2000, x => x < m);
    CountFour(500, 505, 495, 2000, x => x > m);
  }

  lemma CountFour(a: int, b: int, c: int, e: int, p: int -> bool)
    ensures Sorting.CountWhere([a, b, c, e], p)
            == (if p(a) then 1 else 0) + (if p(b) then 1 else 0) + (if p(c) then 1 else 0) + (if p(e) then 1 else 0)
  {
    assert [a, b, c, e][..3] == [a, b, c];
    assert [a, b, c][..2] == [a, b];
    assert [a, b][..1] == [a];
    assert [a][..0] == [];
    assert Sorting.CountWhere([a], p) == if p(a) then 1 else 0;
    assert Sorting.CountWhere([a, b], p) == Sorting.CountWhere([a], p) + if p(b) then 1 else 0;
    assert Sorting.CountWhere([a, b, c], p) == Sorting.CountWhere([a, b], p) + if p(c) then 1 else 0;
  }
}
