/** The categorical vote of the prediction smoother: count each label over the
    history (`Object.entries` lists labels in order of first appearance), sort the
    counts descending with JavaScript's stable sort and take the head. The head is
    the most frequent label, ties going to the label that appeared first. */
module Vote {

  function Count<T(==)>(xs: seq<T>, x: T): nat
  {
    multiset(xs)[x]
  }

  /** Position of the first occurrence of `x`. */
  function FirstIndex<T(==)>(xs: seq<T>, x: T): (k: nat)
    requires x in xs
    ensures k < |xs| && xs[k] == x
    ensures forall m :: 0 <= m < k ==> xs[m] != x
  {
    if xs[0] == x then 0 else 1 + FirstIndex(xs[1..], x)
  }

  /** `best` is the vote's winner among the first `i` entries: it first occurs among
      them, no label among them is more frequent (over the whole history), and no
      label among them that is just as frequent occurs before it. */
  predicate Leads<T(==)>(xs: seq<T>, i: nat, best: T)
    requires i <= |xs|
  {
    && best in xs
    && FirstIndex(xs, best) < i
    && (forall j :: 0 <= j < i ==> Count(xs, xs[j]) <= Count(xs, best))
    && (forall j :: 0 <= j < i && Count(xs, xs[j]) == Count(xs, best) ==> FirstIndex(xs, best) <= j)
  }

  /** One step of the walk keeps the leader invariant. */
  lemma LeadsStep<T>(xs: seq<T>, i: nat, best: T)
    requires 1 <= i < |xs|
    requires Leads(xs, i, best)
    ensures Leads(xs, i + 1, if Count(xs, xs[i]) > Count(xs, best) then xs[i] else best)
  {
    var k := FirstIndex(xs, xs[i]);
    assert k <= i;
  }

  /** Walks the history once, replacing the leader only on a strictly higher count. */
  function Scan<T(==)>(xs: seq<T>, i: nat, best: T): (r: T)
    requires 1 <= i <= |xs|
    requires Leads(xs, i, best)
    ensures Leads(xs, |xs|, r)
    decreases |xs| - i
  {
    if i == |xs| then best
    else
      LeadsStep(xs, i, best);
      Scan(xs, i + 1, if Count(xs, xs[i]) > Count(xs, best) then xs[i] else best)
  }

  /** The most frequent label, ties to the label seen first. */
  function Plurality<T(==)>(xs: seq<T>): (r: T)
    requires |xs| > 0
    ensures r in xs
    ensures forall j :: 0 <= j < |xs| ==> Count(xs, xs[j]) <= Count(xs, r)
    ensures forall j :: 0 <= j < |xs| && Count(xs, xs[j]) == Count(xs, r) ==> FirstIndex(xs, r) <= j
  {
    Scan(xs, 1, xs[0])
  }

  /** The contract of `Plurality` determines its result: only one label is both
      most frequent and first among the most frequent. */
  lemma PluralityUnique<T>(xs: seq<T>, r: T)
    requires |xs| > 0 && r in xs
    requires forall j :: 0 <= j < |xs| ==> Count(xs, xs[j]) <= Count(xs, r)
    requires forall j :: 0 <= j < |xs| && Count(xs, xs[j]) == Count(xs, r) ==> FirstIndex(xs, r) <= j
    ensures r == Plurality(xs)
  {
    var p := Plurality(xs);
    var jp := FirstIndex(xs, p);
    var jr := FirstIndex(xs, r);
    assert Count(xs, xs[jp]) <= Count(xs, r);
    assert Count(xs, xs[jr]) <= Count(xs, p);
    assert jr <= jp && jp <= jr;
  }

  /** Every label of a history has a count of at most the history's length. */
  lemma {:induction false} CountAtMostLength<T>(xs: seq<T>, x: T)
    ensures Count(xs, x) <= |xs|
  {
    if |xs| > 0 {
      var init := xs[..|xs| - 1];
      CountAtMostLength(init, x);
      assert xs == init + [xs[|xs| - 1]];
      assert multiset(xs) == multiset(init) + multiset{xs[|xs| - 1]};
    }
  }
}
