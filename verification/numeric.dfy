/** Numeric conventions of the analysis pipeline.

    JavaScript numbers are modelled as exact `real`s. Two JavaScript behaviours
    matter to the model and are written out here: `Math.round`, and the NaN that
    a `0 / 0` produces in the beat detector's bass level. */
module Numeric {

  /** JavaScript `Math.round`: the nearest integer, halves rounded up. */
  function Round(x: real): (r: int)
    ensures x - 0.5 < r as real <= x + 0.5
  {
    (x + 0.5).Floor
  }

  /** Rounding keeps a value inside any integer interval that contains it. */
  lemma RoundWithin(x: real, lo: int, hi: int)
    requires lo as real <= x <= hi as real
    ensures lo <= Round(x) <= hi
  {
  }

  /** JavaScript `Math.min(1, x)` for a value that is never NaN. */
  function AtMostOne(x: real): (r: real)
    ensures r <= 1.0 && r <= x
    ensures r == x || r == 1.0
  {
    if x < 1.0 then x else 1.0
  }

  /** `Math.min(1, Math.max(0, x))`. */
  function Clamp01(x: real): (r: real)
    ensures 0.0 <= r <= 1.0
    ensures 0.0 <= x <= 1.0 ==> r == x
    ensures x < 0.0 ==> r == 0.0
    ensures x > 1.0 ==> r == 1.0
  {
    if x < 0.0 then 0.0 else if x > 1.0 then 1.0 else x
  }

  /** A JavaScript number as the beat detector can see it: finite, or the NaN of `0 / 0`. */
  datatype Level = Finite(value: real) | NaN

  /** JavaScript `a > b`: false whenever either side is NaN. */
  predicate Above(a: Level, b: Level)
  {
    a.Finite? && b.Finite? && a.value > b.value
  }

  /** Sum of a sequence of levels; NaN as soon as one term is NaN. */
  function SumLevels(xs: seq<Level>): (r: Level)
    ensures r.Finite? <==> forall i :: 0 <= i < |xs| ==> xs[i].Finite?
  {
    if |xs| == 0 then Finite(0.0)
    else
      var rest := SumLevels(xs[..|xs| - 1]);
      var last := xs[|xs| - 1];
      if rest.Finite? && last.Finite? then Finite(rest.value + last.value) else NaN
  }

  /** `reduce((a, b) => a + b, 0) / length` over a non-empty sequence of levels. */
  function MeanLevel(xs: seq<Level>): (r: Level)
    requires |xs| > 0
    ensures r.Finite? <==> forall i :: 0 <= i < |xs| ==> xs[i].Finite?
  {
    var s := SumLevels(xs);
    if s.Finite? then Finite(s.value / |xs| as real) else NaN
  }

  /** Multiplication by a constant; NaN stays NaN. */
  function Scale(x: Level, k: real): (r: Level)
    ensures r.Finite? <==> x.Finite?
    ensures r.Finite? ==> r.value == x.value * k
  {
    if x.Finite? then Finite(x.value * k) else NaN
  }
}
