/** Bounded histories kept by the pipeline: the bass-level window (30 entries),
    the beat-time history (20 entries) and the prediction history (60 entries).
    Each is a JavaScript array that is `push`ed and then `shift`ed once when it
    grows past its capacity. */
module History {

  /** The last `min(cap, |xs|)` elements of `xs`. */
  function Window<T>(xs: seq<T>, cap: nat): (r: seq<T>)
    ensures |r| == if |xs| <= cap then |xs| else cap
    ensures r == xs[|xs| - |r|..]
  {
    if |xs| <= cap then xs else xs[|xs| - cap..]
  }

  /** Append `x`; if the history then holds more than `cap` entries, drop the oldest one. */
  function Push<T>(h: seq<T>, x: T, cap: nat): (r: seq<T>)
    requires cap > 0
    ensures |r| == if |h| < cap then |h| + 1 else |h|
    ensures r == (h + [x])[|h| + 1 - |r|..]
    ensures r[|r| - 1] == x
  {
    var grown := h + [x];
    if |grown| > cap then grown[1..] else grown
  }

  /** A history that already is the window of everything pushed so far stays
      that window after one more push: the oldest entry goes first. */
  lemma {:induction false} PushKeepsWindow<T>(xs: seq<T>, x: T, cap: nat)
    requires cap > 0
    ensures Push(Window(xs, cap), x, cap) == Window(xs + [x], cap)
  {
    var w := Window(xs, cap);
    var ys := xs + [x];
    if |xs| < cap {
      assert w == xs;
    } else {
      assert w == xs[|xs| - cap..];
      assert Push(w, x, cap) == (w + [x])[1..];
      assert (w + [x])[1..] == ys[|ys| - cap..];
    }
  }

  /** Pushing every element of `xs` in order, one at a time. */
  function PushAll<T>(h: seq<T>, xs: seq<T>, cap: nat): (r: seq<T>)
    requires cap > 0
    decreases |xs|
  {
    if |xs| == 0 then h else Push(PushAll(h, xs[..|xs| - 1], cap), xs[|xs| - 1], cap)
  }

  /** A history of capacity `cap` holds exactly the last `min(cap, n)` values pushed
      since it was empty (or since it held `h`). */
  lemma {:induction false} PushAllIsWindow<T>(h: seq<T>, xs: seq<T>, cap: nat)
    requires cap > 0 && |h| <= cap
    ensures PushAll(h, xs, cap) == Window(h + xs, cap)
    decreases |xs|
  {
    if |xs| == 0 {
      assert h + xs == h;
    } else {
      var init := xs[..|xs| - 1];
      PushAllIsWindow(h, init, cap);
      PushKeepsWindow(h + init, xs[|xs| - 1], cap);
      assert (h + init) + [xs[|xs| - 1]] == h + xs;
    }
  }
}
