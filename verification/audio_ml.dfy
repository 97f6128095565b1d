/** The heuristic classifier and prediction smoother of `lib/audio-ml.ts`.

    Spectral flatness is an input here (it is computed with `exp` and `log`), and
    the random `genreConfidence`/`moodConfidence` of a raw result are not
    represented: the smoother never reads them. */
module AudioMl {
  import opened Numeric
  import opened Frame
  import History
  import Vote

  datatype Mood = Chill | Energetic | Sad | Happy

  datatype Genre = Electronic | HipHop | Rock | Metal | Pop | Jazz | Classical | Reggae | Rnb | Indie

  /** The keys of the genre score table, in declaration order. */
  const Genres: seq<Genre> := [Electronic, HipHop, Rock, Metal, Pop, Jazz, Classical, Reggae, Rnb, Indie]

  function GenreIndex(g: Genre): (i: nat)
    ensures i < |Genres| && Genres[i] == g
  {
    match g
    case Electronic => 0
    case HipHop => 1
    case Rock => 2
    case Metal => 3
    case Pop => 4
    case Jazz => 5
    case Classical => 6
    case Reggae => 7
    case Rnb => 8
    case Indie => 9
  }

  // ---------------------------------------------------------------------------
  // Features

  /** Band boundaries and mean normalized magnitudes of one frame. */
  datatype Bands = Bands(bassEnd: nat, midEnd: nat, bass: real, mid: real, high: real, total: real)

  /** `(Σ value/255) / (count || 1)`: the mean normalized magnitude of a band, 0 when it is empty. */
  function Average(sum: nat, count: nat): (r: real)
    requires sum <= 255 * count
    ensures 0.0 <= r <= 1.0
    ensures count == 0 ==> r == 0.0
    ensures count > 0 ==> r * (255 * count) as real == sum as real
  {
    var d := if count == 0 then 1 else count;
    Fraction(sum, 255 * d);
    sum as real / (255 * d) as real
  }

  lemma Fraction(num: nat, den: nat)
    requires 0 < den && num <= den
    ensures 0.0 <= num as real / den as real <= 1.0
  {
  }

  /** Bass below bin `floor(0.1 n)`, mid below `floor(0.5 n)`, treble above; each
      band is averaged over its own bin count. */
  function BandAverages(bins: seq<Byte>): (b: Bands)
    requires |bins| > 0
    ensures b.bassEnd == |bins| / 10 && b.midEnd == |bins| / 2
    ensures 0.0 <= b.bass <= 1.0 && 0.0 <= b.mid <= 1.0 && 0.0 <= b.high <= 1.0
    ensures 0.0 <= b.total <= 1.0
    ensures b.bass == Average(Sum(bins, 0, b.bassEnd), b.bassEnd)
    ensures b.mid == Average(Sum(bins, b.bassEnd, b.midEnd), b.midEnd - b.bassEnd)
    ensures b.high == Average(Sum(bins, b.midEnd, |bins|), |bins| - b.midEnd)
    ensures b.total == Average(Sum(bins, 0, |bins|), |bins|)
  {
    var n := |bins|;
    var bassEnd := n / 10;
    var midEnd := n / 2;
    Bands(bassEnd, midEnd,
          Average(Sum(bins, 0, bassEnd), bassEnd),
          Average(Sum(bins, bassEnd, midEnd), midEnd - bassEnd),
          Average(Sum(bins, midEnd, n), n - midEnd),
          Average(Sum(bins, 0, n), n))
  }

  /** Every bin falls in exactly one band: the bass, mid and treble sums add up to
      the sum over the whole frame. */
  lemma {:induction false} BandsPartitionFrame(bins: seq<Byte>)
    requires |bins| > 0
    ensures var b := BandAverages(bins);
      Sum(bins, 0, b.bassEnd) + Sum(bins, b.bassEnd, b.midEnd) + Sum(bins, b.midEnd, |bins|) == Sum(bins, 0, |bins|)
  {
    var n := |bins|;
    SumSplit(bins, 0, n / 10, n / 2);
    SumSplit(bins, 0, n / 2, n);
  }

  /** Energy-weighted mean bin index divided by the bin count; 0.5 for a silent frame. */
  function Centroid(bins: seq<Byte>): (c: real)
    requires |bins| > 0
    ensures 0.0 <= c < 1.0
    ensures (forall i :: 0 <= i < |bins| ==> bins[i] == 0) ==> c == 0.5
    ensures (exists i :: 0 <= i < |bins| && bins[i] > 0) ==> 0.0 <= c <= (|bins| - 1) as real / |bins| as real
    ensures Sum(bins, 0, |bins|) > 0 ==>
              c * (Sum(bins, 0, |bins|) * |bins|) as real == Weighted(bins, |bins|) as real
  {
    var n := |bins|;
    var sum := Sum(bins, 0, n);
    SumZero(bins, 0, n);
    if sum > 0 then
      WeightedBound(bins, n);
      CentroidBound(Weighted(bins, n), sum, n);
      UndoQuotient(Weighted(bins, n), sum, n);
      Weighted(bins, n) as real / sum as real / n as real
    else 0.5
  }

  /** Dividing by `sum` and then by `n` is undone by multiplying by `sum · n`. */
  lemma UndoQuotient(w: nat, sum: nat, n: nat)
    requires sum > 0 && n > 0
    ensures (w as real / sum as real / n as real) * (sum * n) as real == w as real
  {
    var q := w as real / sum as real;
    assert q * sum as real == w as real;
    assert (q / n as real) * n as real == q;
    assert (sum * n) as real == sum as real * n as real;
  }

  lemma CentroidBound(w: nat, sum: nat, n: nat)
    requires sum > 0 && n > 0 && w <= (n - 1) * sum
    ensures 0.0 <= w as real / sum as real / n as real <= (n - 1) as real / n as real < 1.0
  {
    var q := w as real / sum as real;
    assert w as real <= (n - 1) as real * sum as real;
    assert q * sum as real == w as real;
    assert q <= (n - 1) as real;
    var c := q / n as real;
    assert c * n as real == q;
    var top := (n - 1) as real / n as real;
    assert top * n as real == (n - 1) as real;
    assert c <= top;
    assert top < 1.0;
  }

  /** The four-way quadrant rule on energy and valence. */
  function ClassifyMood(energy: real, valence: real): (m: Mood)
    ensures m == Happy <==> energy > 0.5 && valence > 0.5
    ensures m == Energetic <==> energy > 0.5 && valence <= 0.5
    ensures m == Chill <==> energy <= 0.5 && valence > 0.5
    ensures m == Sad <==> energy <= 0.5 && valence <= 0.5
  {
    if energy > 0.5 && valence > 0.5 then Happy
    else if energy > 0.5 && valence <= 0.5 then Energetic
    else if energy <= 0.5 && valence > 0.5 then Chill
    else Sad
  }

  /** The mood only depends on which side of 0.5 energy and valence fall. */
  lemma MoodDependsOnQuadrant(e1: real, v1: real, e2: real, v2: real)
    requires (e1 > 0.5 <==> e2 > 0.5) && (v1 > 0.5 <==> v2 > 0.5)
    ensures ClassifyMood(e1, v1) == ClassifyMood(e2, v2)
  {
  }

  // ---------------------------------------------------------------------------
  // Genre

  function Points(condition: bool, points: nat): nat
  {
    if condition then points else 0
  }

  /** The genre score table after every rule has fired, one entry per key of
      `Genres`; each entry adds up the points the rules award that genre. */
  function GenreScores(bass: real, mid: real, high: real, brightness: real, flatness: real, bpm: int): (s: seq<nat>)
    requires mid >= 0.0
    ensures |s| == |Genres|
  {
    var bassHeavy := bass / (mid + 0.001) > 1.5;
    var midDominant := mid > bass && mid > high;
    var dance := 120 <= bpm <= 140;
    var groove := 85 <= bpm <= 115;
    var driving := 100 <= bpm <= 130;
    var fast := bpm >= 140;
    var slow := 60 <= bpm <= 90;
    var swing := 70 <= bpm <= 120;
    [ /* electronic */ Points(dance, 3) + Points(fast, 1) + Points(bass > 0.5, 2) + Points(brightness > 0.6, 2)
                       + Points(flatness > 0.4, 1) + Points(bass > 0.4 && high > 0.3 && flatness > 0.3, 2),
      /* hip-hop */    Points(groove, 2) + Points(bass > 0.5, 2) + Points(bassHeavy, 2) + Points(brightness < 0.35, 1),
      /* rock */       Points(driving, 2) + Points(mid > 0.5, 2) + Points(flatness > 0.4, 2)
                       + Points(flatness > 0.35 && mid > 0.4 && bpm >= 110, 2),
      /* metal */      Points(fast, 3) + Points(brightness > 0.6, 1) + Points(flatness > 0.4, 3),
      /* pop */        Points(dance, 2) + Points(mid > 0.5, 2) + Points(midDominant, 2) + Points(brightness > 0.6, 1),
      /* jazz */       Points(slow, 1) + Points(swing, 2) + Points(bass < 0.3, 1) + Points(midDominant, 1)
                       + Points(brightness < 0.35, 1) + Points(flatness < 0.2, 2),
      /* classical */  Points(slow, 1) + Points(bass < 0.3, 2) + Points(flatness < 0.2, 3),
      /* reggae */     Points(slow, 2) + Points(bass > 0.5, 1) + Points(brightness < 0.35, 2),
      /* rnb */        Points(groove, 2) + Points(bassHeavy, 1) + Points(flatness < 0.2, 1),
      /* indie */      Points(driving, 2) + Points(bass < 0.3, 1) + Points(mid > 0.5, 1) + Points(midDominant, 2)
    ]
  }

  /** The scan's state after visiting keys `0 .. i-1`: `maxScore` bounds them all,
      and unless it is still 0 (leaving the default "pop"), `best` is the first key
      that reached it. */
  predicate PickedSoFar(scores: seq<nat>, i: nat, maxScore: nat, best: Genre)
    requires |scores| == |Genres| && i <= |Genres|
  {
    && (forall j :: 0 <= j < i ==> scores[j] <= maxScore)
    && (maxScore == 0 ==> best == Pop)
    && (maxScore > 0 ==>
          && GenreIndex(best) < i
          && scores[GenreIndex(best)] == maxScore
          && forall j :: 0 <= j < GenreIndex(best) ==> scores[j] < maxScore)
  }

  /** The running maximum and the genre holding it. */
  datatype Pick = Pick(maxScore: nat, best: Genre)

  /** The `for (const [genre, score] of Object.entries(scores))` loop: replace the
      pick only when a score is strictly greater. */
  function PickFrom(scores: seq<nat>, i: nat, p: Pick): (r: Pick)
    requires |scores| == |Genres| && i <= |Genres|
    requires PickedSoFar(scores, i, p.maxScore, p.best)
    ensures PickedSoFar(scores, |Genres|, r.maxScore, r.best)
    decreases |Genres| - i
  {
    if i == |Genres| then p
    else if scores[i] > p.maxScore then PickFrom(scores, i + 1, Pick(scores[i], Genres[i]))
    else PickFrom(scores, i + 1, p)
  }

  /** Argmax over the score table: a genre with the maximal score, the earliest key
      among equal maxima, and "pop" when every score is 0. */
  function PickGenre(scores: seq<nat>): (g: Genre)
    requires |scores| == |Genres|
    ensures forall j :: 0 <= j < |Genres| ==> scores[j] <= scores[GenreIndex(g)]
    ensures scores[GenreIndex(g)] > 0 ==> forall j :: 0 <= j < GenreIndex(g) ==> scores[j] < scores[GenreIndex(g)]
    ensures (forall j :: 0 <= j < |Genres| ==> scores[j] == 0) ==> g == Pop
  {
    var r := PickFrom(scores, 0, Pick(0, Pop));
    r.best
  }

  function DetectGenre(bass: real, mid: real, high: real, brightness: real, flatness: real, bpm: int): (g: Genre)
    requires mid >= 0.0
    ensures var s := GenreScores(bass, mid, high, brightness, flatness, bpm);
      && (forall j :: 0 <= j < |Genres| ==> s[j] <= s[GenreIndex(g)])
      && (s[GenreIndex(g)] > 0 ==> forall j :: 0 <= j < GenreIndex(g) ==> s[j] < s[GenreIndex(g)])
      && ((forall j :: 0 <= j < |Genres| ==> s[j] == 0) ==> g == Pop)
  {
    PickGenre(GenreScores(bass, mid, high, brightness, flatness, bpm))
  }

  // ---------------------------------------------------------------------------
  // Danceability

  /** Linear score in tempo closeness to 120 BPM, bass and energy, clamped to [0,1]. */
  function Danceability(bpm: int, bass: real, energy: real): (d: real)
    ensures 0.0 <= d <= 1.0
  {
    var distance := if bpm >= 120 then bpm - 120 else 120 - bpm;
    Clamp01((1.0 - distance as real / 80.0) * 0.4 + bass * 0.3 + energy * 0.3)
  }

  /** For fixed bass and energy, no tempo scores higher than 120 BPM, and moving
      away from 120 never raises the score. */
  lemma DanceabilityPeaksAt120(bpm: int, closer: int, bass: real, energy: real)
    requires 120 <= closer <= bpm || bpm <= closer <= 120
    ensures Danceability(bpm, bass, energy) <= Danceability(closer, bass, energy) <= Danceability(120, bass, energy)
  {
  }

  // ---------------------------------------------------------------------------
  // One analysis

  /** A raw per-frame classification (without its random confidences). */
  datatype MlResult = MlResult(genre: Genre, mood: Mood, danceability: real, energy: real, valence: real)

  /** `analyzeAudioFeatures(frequencyData, bpm)` with spectral flatness supplied. */
  function Analyze(bins: seq<Byte>, bpm: int, flatness: real): (r: MlResult)
    requires |bins| > 0
    ensures 0.0 <= r.energy <= 1.0 && 0.0 <= r.valence <= 1.0 && 0.0 <= r.danceability <= 1.0
    ensures r.energy == 1.0 || r.energy == 2.0 * BandAverages(bins).total
    ensures r.energy <= 2.0 * BandAverages(bins).total
    ensures r.valence == Centroid(bins) * 0.6 + (1.0 - BandAverages(bins).bass) * 0.4
    ensures r.mood == ClassifyMood(r.energy, r.valence)
    ensures var b := BandAverages(bins);
      && r.genre == DetectGenre(b.bass, b.mid, b.high, Centroid(bins), flatness, bpm)
      && r.danceability == Danceability(bpm, b.bass, r.energy)
  {
    var b := BandAverages(bins);
    var centroid := Centroid(bins);
    var energy := AtMostOne(b.total * 2.0);
    var valence := centroid * 0.6 + (1.0 - b.bass) * 0.4;
    MlResult(DetectGenre(b.bass, b.mid, b.high, centroid, flatness, bpm),
             ClassifyMood(energy, valence),
             Danceability(bpm, b.bass, energy),
             energy,
             valence)
  }

  // ---------------------------------------------------------------------------
  // Smoothing

  const HistorySize: nat := 60
  const MoodShare: real := 0.4

  datatype Prediction = Prediction(genre: Genre, genreConfidence: real, mood: Mood, moodConfidence: real,
                                   danceability: real, energy: real, valence: real)

  /** The prediction history after a call, and the smoothed prediction returned. */
  datatype Smoothing = Smoothing(history: seq<MlResult>, prediction: Prediction)

  function MoodsOf(h: seq<MlResult>): (ms: seq<Mood>)
    ensures |ms| == |h| && forall k :: 0 <= k < |h| ==> ms[k] == h[k].mood
  {
    seq(|h|, k requires 0 <= k < |h| => h[k].mood)
  }

  function GenresOf(h: seq<MlResult>): (gs: seq<Genre>)
    ensures |gs| == |h| && forall k :: 0 <= k < |h| ==> gs[k] == h[k].genre
  {
    seq(|h|, k requires 0 <= k < |h| => h[k].genre)
  }

  function EnergiesOf(h: seq<MlResult>): (es: seq<real>)
    ensures |es| == |h| && forall k :: 0 <= k < |h| ==> es[k] == h[k].energy
  {
    seq(|h|, k requires 0 <= k < |h| => h[k].energy)
  }

  function ValencesOf(h: seq<MlResult>): (vs: seq<real>)
    ensures |vs| == |h| && forall k :: 0 <= k < |h| ==> vs[k] == h[k].valence
  {
    seq(|h|, k requires 0 <= k < |h| => h[k].valence)
  }

  function DanceabilitiesOf(h: seq<MlResult>): (ds: seq<real>)
    ensures |ds| == |h| && forall k :: 0 <= k < |h| ==> ds[k] == h[k].danceability
  {
    seq(|h|, k requires 0 <= k < |h| => h[k].danceability)
  }

  function SumReals(xs: seq<real>): real
  {
    if |xs| == 0 then 0.0 else SumReals(xs[..|xs| - 1]) + xs[|xs| - 1]
  }

  /** Arithmetic mean of a non-empty window. */
  function Mean(xs: seq<real>): real
    requires |xs| > 0
  {
    SumReals(xs) / |xs| as real
  }

  lemma {:induction false} SumRealsBounds(xs: seq<real>, lo: real, hi: real)
    requires forall k :: 0 <= k < |xs| ==> lo <= xs[k] <= hi
    ensures lo * |xs| as real <= SumReals(xs) <= hi * |xs| as real
  {
    if |xs| > 0 {
      SumRealsBounds(xs[..|xs| - 1], lo, hi);
    }
  }

  /** The mean of values within [lo, hi] is within [lo, hi]. */
  lemma MeanBounds(xs: seq<real>, lo: real, hi: real)
    requires |xs| > 0
    requires forall k :: 0 <= k < |xs| ==> lo <= xs[k] <= hi
    ensures lo <= Mean(xs) <= hi
  {
    SumRealsBounds(xs, lo, hi);
    var n := |xs| as real;
    assert lo * n / n == lo && hi * n / n == hi;
  }

  /** The most frequent mood of the history if it reaches 40% of it, else "chill". */
  function MoodVote(moods: seq<Mood>): (m: Mood)
    requires |moods| > 0
    ensures (exists j :: 0 <= j < |moods| && Vote.Count(moods, moods[j]) as real >= MoodShare * |moods| as real)
              ==> m == Vote.Plurality(moods)
    ensures (forall j :: 0 <= j < |moods| ==> Vote.Count(moods, moods[j]) as real < MoodShare * |moods| as real)
              ==> m == Chill
  {
    var top := Vote.Plurality(moods);
    if Vote.Count(moods, top) as real >= MoodShare * |moods| as real then top else Chill
  }

  /** `count / len`: the fraction of the history a label takes up. */
  function Share<T(==)>(xs: seq<T>, x: T): (s: real)
    requires x in xs
    ensures 0.0 < s <= 1.0
    ensures s * |xs| as real == Vote.Count(xs, x) as real
  {
    Vote.CountAtMostLength(xs, x);
    Vote.Count(xs, x) as real / |xs| as real
  }

  /** The smoothed prediction over a non-empty history: genre and mood by vote,
      energy, valence and danceability by mean. */
  function Predict(h: seq<MlResult>): (p: Prediction)
    requires |h| > 0
    ensures 0.0 < p.moodConfidence <= 1.0 && 0.0 < p.genreConfidence <= 1.0
  {
    var moods := MoodsOf(h);
    var genres := GenresOf(h);
    var topMood := Vote.Plurality(moods);
    var topGenre := Vote.Plurality(genres);
    Prediction(
      topGenre,
      Share(genres, topGenre),
      MoodVote(moods),
      Share(moods, topMood),
      Mean(DanceabilitiesOf(h)),
      Mean(EnergiesOf(h)),
      Mean(ValencesOf(h)))
  }

  /** `getSmoothedPrediction`: push the raw result into the 60-entry history and
      predict over the updated history. */
  function Smooth(history: seq<MlResult>, result: MlResult): (r: Smoothing)
    ensures |history| <= HistorySize ==> |r.history| <= HistorySize
    ensures |r.history| > 0 && r.history[|r.history| - 1] == result
    ensures 0.0 < r.prediction.moodConfidence <= 1.0
    ensures 0.0 < r.prediction.genreConfidence <= 1.0
    ensures r.prediction == Predict(r.history)
  {
    var h := History.Push(history, result, HistorySize);
    Smoothing(h, Predict(h))
  }

  /** The smoothed mood is the thresholded plurality of the history's moods, and
      `moodConfidence` is the most frequent mood's count over the history length. */
  lemma SmoothedMood(h: seq<MlResult>)
    requires |h| > 0
    ensures var p := Predict(h);
      var moods := MoodsOf(h);
      var len := |moods| as real;
      && (p.mood != Chill ==> Vote.Count(moods, p.mood) as real >= MoodShare * len)
      && ((exists j :: 0 <= j < |moods| && Vote.Count(moods, moods[j]) as real >= MoodShare * len)
            ==> p.mood == Vote.Plurality(moods))
      && ((forall j :: 0 <= j < |moods| ==> Vote.Count(moods, moods[j]) as real < MoodShare * len)
            ==> p.mood == Chill)
      && p.moodConfidence == Vote.Count(moods, Vote.Plurality(moods)) as real / len
  {
    var moods := MoodsOf(h);
    assert Predict(h).mood == MoodVote(moods);
  }

  lemma SingletonVote<T>(x: T)
    ensures Vote.Plurality([x]) == x && Vote.Count([x], x) == 1
  {
    assert multiset([x]) == multiset{x};
  }

  lemma SingletonMean(x: real)
    ensures Mean([x]) == x
  {
    assert [x][..0] == [];
    assert SumReals([x]) == SumReals([]) + x;
  }

  /** A one-entry history predicts that entry, with full confidence. */
  lemma PredictSingleton(result: MlResult)
    ensures var p := Predict([result]);
      && p.mood == result.mood && p.moodConfidence == 1.0
      && p.genre == result.genre && p.genreConfidence == 1.0
      && p.energy == result.energy && p.valence == result.valence
      && p.danceability == result.danceability
  {
    var h := [result];
    assert MoodsOf(h) == [result.mood];
    assert GenresOf(h) == [result.genre];
    assert EnergiesOf(h) == [result.energy];
    assert ValencesOf(h) == [result.valence];
    assert DanceabilitiesOf(h) == [result.danceability];
    SingletonVote(result.mood);
    SingletonVote(result.genre);
    SingletonMean(result.energy);
    SingletonMean(result.valence);
    SingletonMean(result.danceability);
  }

  /** The first prediction after `resetPredictionHistory` is the raw result itself,
      with full mood and genre confidence. */
  lemma FirstPredictionAfterReset(result: MlResult)
    ensures var r := Smooth([], result);
      && r.history == [result]
      && r.prediction.mood == result.mood && r.prediction.moodConfidence == 1.0
      && r.prediction.genre == result.genre && r.prediction.genreConfidence == 1.0
      && r.prediction.energy == result.energy && r.prediction.valence == result.valence
      && r.prediction.danceability == result.danceability
  {
    assert Smooth([], result).history == [result];
    PredictSingleton(result);
  }

  /** After a reset, the history holds exactly the last `min(60, k)` of the `k`
      results passed in since. */
  lemma HistoryIsLastResults(results: seq<MlResult>)
    ensures History.PushAll([], results, HistorySize) == History.Window(results, HistorySize)
  {
    History.PushAllIsWindow([], results, HistorySize);
    assert [] + results == results;
  }

  /** Values drawn from a range stay in it once a window is taken. */
  lemma WindowWithin(results: seq<MlResult>, w: seq<MlResult>)
    requires w == History.Window(results, HistorySize)
    ensures (forall k :: 0 <= k < |results| ==> 0.0 <= results[k].energy <= 1.0)
              ==> forall k :: 0 <= k < |w| ==> 0.0 <= EnergiesOf(w)[k] <= 1.0
    ensures (forall k :: 0 <= k < |results| ==> 0.0 <= results[k].valence <= 1.0)
              ==> forall k :: 0 <= k < |w| ==> 0.0 <= ValencesOf(w)[k] <= 1.0
  {
    var off := |results| - |w|;
    assert forall k :: 0 <= k < |w| ==> w[k] == results[off + k];
  }

  /** The window's means stay within [0,1] when every result's values do. */
  lemma WindowMeansWithin(results: seq<MlResult>, w: seq<MlResult>)
    requires |w| > 0 && w == History.Window(results, HistorySize)
    ensures (forall k :: 0 <= k < |results| ==> 0.0 <= results[k].energy <= 1.0) ==> 0.0 <= Predict(w).energy <= 1.0
    ensures (forall k :: 0 <= k < |results| ==> 0.0 <= results[k].valence <= 1.0) ==> 0.0 <= Predict(w).valence <= 1.0
  {
    WindowWithin(results, w);
    if forall k :: 0 <= k < |results| ==> 0.0 <= results[k].energy <= 1.0 {
      MeanBounds(EnergiesOf(w), 0.0, 1.0);
    }
    if forall k :: 0 <= k < |results| ==> 0.0 <= results[k].valence <= 1.0 {
      MeanBounds(ValencesOf(w), 0.0, 1.0);
    }
  }

  /** The history after the `k`-th call since a reset is the window of the last
      `min(60, k)` results. */
  lemma SmoothedHistoryIsWindow(results: seq<MlResult>)
    requires |results| > 0
    ensures Smooth(History.PushAll([], results[..|results| - 1], HistorySize), results[|results| - 1]).history
            == History.Window(results, HistorySize)
  {
    HistoryIsLastResults(results);
  }

  /** The prediction returned by the `k`-th call after a reset averages energy and
      valence over the last `min(60, k)` results, keeps them within [0,1] when every
      result's are, and votes the mood over those same results. */
  lemma SmoothedOverWindow(results: seq<MlResult>)
    requires |results| > 0
    ensures var w := History.Window(results, HistorySize);
      var r := Smooth(History.PushAll([], results[..|results| - 1], HistorySize), results[|results| - 1]);
      && r.prediction.energy == Mean(EnergiesOf(w))
      && r.prediction.valence == Mean(ValencesOf(w))
      && r.prediction.mood == MoodVote(MoodsOf(w))
      && ((forall k :: 0 <= k < |results| ==> 0.0 <= results[k].energy <= 1.0) ==> 0.0 <= r.prediction.energy <= 1.0)
      && ((forall k :: 0 <= k < |results| ==> 0.0 <= results[k].valence <= 1.0) ==> 0.0 <= r.prediction.valence <= 1.0)
  {
    var w := History.Window(results, HistorySize);
    SmoothedHistoryIsWindow(results);
    WindowMeansWithin(results, w);
  }
}
