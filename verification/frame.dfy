/** A frequency snapshot: one unsigned byte magnitude per bin, as filled in by
    `AnalyserNode.getByteFrequencyData`, and the sums the pipeline takes over it. */
module Frame {

  type Byte = x: int | 0 <= x < 256

  /** Sum of the magnitudes of bins `lo .. hi-1`. */
  function Sum(s: seq<Byte>, lo: nat, hi: nat): (r: nat)
    requires lo <= hi <= |s|
    ensures r <= 255 * (hi - lo)
    decreases hi - lo
  {
    if lo == hi then 0 else Sum(s, lo, hi - 1) + s[hi - 1]
  }

  /** Consecutive ranges add up: every bin is counted exactly once. */
  lemma {:induction false} SumSplit(s: seq<Byte>, lo: nat, mid: nat, hi: nat)
    requires lo <= mid <= hi <= |s|
    ensures Sum(s, lo, mid) + Sum(s, mid, hi) == Sum(s, lo, hi)
    decreases hi - mid
  {
    if mid < hi {
      SumSplit(s, lo, mid, hi - 1);
    }
  }

  /** A range sums to zero exactly when every bin in it is zero. */
  lemma {:induction false} SumZero(s: seq<Byte>, lo: nat, hi: nat)
    requires lo <= hi <= |s|
    ensures Sum(s, lo, hi) == 0 <==> forall i :: lo <= i < hi ==> s[i] == 0
    decreases hi - lo
  {
    if lo < hi {
      SumZero(s, lo, hi - 1);
    }
  }

  /** `Σ i * s[i]` over the first `k` bins: the numerator of the spectral centroid. */
  function Weighted(s: seq<Byte>, k: nat): (r: nat)
    requires k <= |s|
  {
    if k == 0 then 0 else Weighted(s, k - 1) + (k - 1) * s[k - 1]
  }

  /** The weighted sum is at most the highest index times the plain sum. */
  lemma {:induction false} WeightedBound(s: seq<Byte>, k: nat)
    requires 0 < k <= |s|
    ensures Weighted(s, k) <= (k - 1) * Sum(s, 0, k)
  {
    if k > 1 {
      WeightedBound(s, k - 1);
      var prev := Sum(s, 0, k - 1);
      var x := s[k - 1];
      assert Sum(s, 0, k) == prev + x;
      ScaleUp(k - 2, k - 1, prev);
      Distribute(k - 1, prev, x);
    }
  }

  lemma ScaleUp(a: nat, b: nat, c: nat)
    requires a <= b
    ensures a * c <= b * c
  {
  }

  lemma Distribute(a: int, b: int, c: int)
    ensures a * (b + c) == a * b + a * c
  {
  }
}
