/** Generic facts about sequences used by the list filters: order-preserving
    subsequences, distinctness, and JavaScript's `[...new Set(xs)]`. */
module Seqs {

  /** `xs` is `ys` with some elements dropped, the rest kept in order. */
  predicate IsSubsequence<T(==)>(xs: seq<T>, ys: seq<T>)
    decreases |ys|
  {
    if xs == [] then true
    else if ys == [] then false
    else if xs[0] == ys[0] then IsSubsequence(xs[1..], ys[1..])
    else IsSubsequence(xs, ys[1..])
  }

  /** Position of the first occurrence of `x` in `xs`. */
  function FirstIndex<T(==)>(xs: seq<T>, x: T): (k: nat)
    requires x in xs
    ensures k < |xs| && xs[k] == x && x !in xs[..k]
  {
    if xs[0] == x then 0 else 1 + FirstIndex(xs[1..], x)
  }

  predicate Distinct<T(==)>(xs: seq<T>) {
    forall i, j :: 0 <= i < j < |xs| ==> xs[i] != xs[j]
  }

  /** `[...new Set(xs)]`: each value once, in the order of its first occurrence.
      A `Set` remembers insertion order, and inserting a value it holds is a no-op. */
  function Dedup<T(==)>(xs: seq<T>): (ds: seq<T>)
    ensures |ds| <= |xs|
    ensures forall x :: x in ds ==> x in xs
    ensures forall x :: x in xs ==> x in ds
    decreases |xs|
  {
    if xs == [] then []
    else
      assert xs == xs[..|xs| - 1] + [xs[|xs| - 1]];
      var prefix := Dedup(xs[..|xs| - 1]);
      if xs[|xs| - 1] in prefix then prefix else prefix + [xs[|xs| - 1]]
  }

  lemma {:induction false} FirstIndexOfPrefix<T>(xs: seq<T>, n: nat, x: T)
    requires n <= |xs| && x in xs[..n]
    ensures FirstIndex(xs[..n], x) == FirstIndex(xs, x)
  {
    var k := FirstIndex(xs[..n], x);
    var m := FirstIndex(xs, x);
    assert xs[..n][..k] == xs[..k];
    assert xs[k] == x;
  }

  /** The unique-category list holds each value exactly once, the same values as the
      input, ordered by first occurrence. */
  lemma {:induction false} DedupCorrect<T>(xs: seq<T>)
    ensures Distinct(Dedup(xs))
    ensures forall x :: x in Dedup(xs) ==> x in xs
    ensures forall x :: x in xs ==> x in Dedup(xs)
    ensures forall i, j :: 0 <= i < j < |Dedup(xs)| ==>
              FirstIndex(xs, Dedup(xs)[i]) < FirstIndex(xs, Dedup(xs)[j])
  {
    if xs != [] {
      var n := |xs| - 1;
      var init := xs[..n];
      var last := xs[n];
      var prefix := Dedup(init);
      DedupCorrect(init);
      assert xs == init + [last];
      forall x | x in prefix
        ensures FirstIndex(init, x) == FirstIndex(xs, x)
      {
        assert x in init;
        FirstIndexOfPrefix(xs, n, x);
      }
      if last !in prefix {
        assert last !in init;
        assert FirstIndex(xs, last) == n;
        var ds := prefix + [last];
        forall i, j | 0 <= i < j < |ds|
          ensures FirstIndex(xs, ds[i]) < FirstIndex(xs, ds[j])
        {
          assert ds[i] in prefix;
          if j < |prefix| {
            assert ds[j] in prefix;
          } else {
            assert FirstIndex(init, ds[i]) < |init|;
          }
        }
      }
    }
  }
}
