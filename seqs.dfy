/** Generic facts about sequences that the aggregator's proofs rest on:
    concatenating per-element pieces, and visiting a sequence in the order
    given by a permutation of its positions. */
module Seqs {

  /** The pieces `f(x)` of the elements of `xs`, concatenated in order. */
  function Concat<T, U>(f: T -> seq<U>, xs: seq<T>): seq<U>
  {
    if xs == [] then [] else f(xs[0]) + Concat(f, xs[1..])
  }

  lemma {:induction false} ConcatAppend<T, U>(f: T -> seq<U>, a: seq<T>, b: seq<T>)
    ensures Concat(f, a + b) == Concat(f, a) + Concat(f, b)
  {
    if a == [] {
      assert a + b == b;
    } else {
      assert (a + b)[1..] == a[1..] + b;
      ConcatAppend(f, a[1..], b);
    }
  }

  lemma ConcatSingle<T, U>(f: T -> seq<U>, x: T)
    ensures Concat(f, [x]) == f(x)
  {
    assert [x][1..] == [];
  }

  /** Taking one element out of a sequence. */
  lemma SplitAt<T>(s: seq<T>, i: nat)
    requires i < |s|
    ensures s == s[..i] + [s[i]] + s[i + 1..]
    ensures multiset(s[..i] + s[i + 1..]) == multiset(s) - multiset{s[i]}
  {
    assert s == s[..i] + [s[i]] + s[i + 1..];
  }

  /** The piece of one element sits between the pieces of those before and after it. */
  lemma ConcatSplit<T, U>(f: T -> seq<U>, s: seq<T>, i: nat)
    requires i < |s|
    ensures Concat(f, s) == Concat(f, s[..i]) + f(s[i]) + Concat(f, s[i + 1..])
    ensures multiset(Concat(f, s)) == multiset(Concat(f, s[..i] + s[i + 1..])) + multiset(f(s[i]))
  {
    SplitAt(s, i);
    ConcatAppend(f, s[..i] + [s[i]], s[i + 1..]);
    ConcatAppend(f, s[..i], [s[i]]);
    ConcatAppend(f, s[..i], s[i + 1..]);
    ConcatSingle(f, s[i]);
  }

  /** Rearranging the elements rearranges the concatenated pieces: as a
      multiset, the result does not depend on the order of the elements. */
  lemma {:induction false} ConcatPermutation<T, U>(f: T -> seq<U>, a: seq<T>, b: seq<T>)
    requires multiset(a) == multiset(b)
    ensures multiset(Concat(f, a)) == multiset(Concat(f, b))
    decreases |a|
  {
    if a == [] {
      assert |multiset(b)| == 0;
    } else {
      assert a[0] in multiset(b);
      var i :| 0 <= i < |b| && b[i] == a[0];
      SplitAt(a, 0);
      SplitAt(b, i);
      ConcatPermutation(f, a[..0] + a[1..], b[..i] + b[i + 1..]);
      ConcatSplit(f, a, 0);
      ConcatSplit(f, b, i);
    }
  }

  /** The positions 0 .. n-1 in increasing order. */
  function Indices(n: nat): (s: seq<nat>)
    ensures |s| == n && forall i :: 0 <= i < n ==> s[i] == i
  {
    seq(n, i => i)
  }

  /** `order` lists each of the positions 0 .. n-1 exactly once. */
  predicate IsOrdering(order: seq<nat>, n: nat)
  {
    multiset(order) == multiset(Indices(n))
  }

  predicate InRange(order: seq<nat>, n: nat)
  {
    forall k :: 0 <= k < |order| ==> order[k] < n
  }

  lemma OrderingInRange(order: seq<nat>, n: nat)
    requires IsOrdering(order, n)
    ensures InRange(order, n) && |order| == n
  {
    assert |multiset(order)| == |multiset(Indices(n))|;
    forall k | 0 <= k < |order| ensures order[k] < n {
      assert order[k] in multiset(order);
      assert order[k] in Indices(n);
    }
  }

  lemma InRangeSlice(order: seq<nat>, n: nat, lo: nat, hi: nat)
    requires InRange(order, n) && lo <= hi <= |order|
    ensures InRange(order[lo..hi], n)
  {
    assert forall k :: 0 <= k < hi - lo ==> order[lo..hi][k] == order[lo + k];
  }

  /** The elements of `xs` at the positions `order` lists, in that order. */
  function Pick<T>(xs: seq<T>, order: seq<nat>): (r: seq<T>)
    requires InRange(order, |xs|)
    ensures |r| == |order| && forall k :: 0 <= k < |order| ==> r[k] == xs[order[k]]
  {
    seq(|order|, k requires 0 <= k < |order| => xs[order[k]])
  }

  /** The element at a position, as a piece of zero or one element. */
  function At<T>(xs: seq<T>): nat -> seq<T>
  {
    (k: nat) => if k < |xs| then [xs[k]] else []
  }

  lemma {:induction false} PickAsConcat<T>(xs: seq<T>, order: seq<nat>)
    requires InRange(order, |xs|)
    ensures Pick(xs, order) == Concat(At(xs), order)
  {
    if order != [] {
      InRangeSlice(order, |xs|, 1, |order|);
      PickAsConcat(xs, order[1..]);
      assert Pick(xs, order) == [xs[order[0]]] + Pick(xs, order[1..]);
    }
  }

  /** Visiting a sequence in the order of an ordering of its positions
      visits every element exactly as often as it occurs. */
  lemma OrderingPermutes<T>(xs: seq<T>, order: seq<nat>)
    requires IsOrdering(order, |xs|)
    ensures InRange(order, |xs|)
    ensures multiset(Pick(xs, order)) == multiset(xs)
  {
    OrderingInRange(order, |xs|);
    PickAsConcat(xs, order);
    PickAsConcat(xs, Indices(|xs|));
    ConcatPermutation(At(xs), order, Indices(|xs|));
    assert Pick(xs, Indices(|xs|)) == xs;
  }
}
