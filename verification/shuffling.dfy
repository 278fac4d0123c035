/**
 * The Fisher-Yates shuffle of `shuffle` (app.js). The loop walks i from the
 * last index down to 1 and swaps positions i and j, where j is drawn as
 * floor(random * (i + 1)). The random draws are an explicit oracle here:
 * `draws[i]` is the j used at step i.
 */
module Shuffling {
  import opened Seqs

  /** `draws` supplies a swap index for every step of an n-element pass, each within 0..i as the draw promises. */
  predicate ValidDraws(draws: seq<nat>, n: nat) {
    n <= |draws| && forall k :: 0 <= k < n ==> draws[k] <= k
  }

  /** Exchanges positions i and j; every other position keeps its element. */
  function Swap<T>(s: seq<T>, i: nat, j: nat): (r: seq<T>)
    requires i < |s| && j < |s|
    ensures |r| == |s|
    ensures r[i] == s[j] && r[j] == s[i]
    ensures forall k :: 0 <= k < |s| && k != i && k != j ==> r[k] == s[k]
    ensures multiset(r) == multiset(s)
  {
    s[i := s[j]][j := s[i]]
  }

  /** The steps i = n - 1, n - 2, ..., 1 of the pass, applied to `s` in that order. */
  function ShuffleSteps<T>(s: seq<T>, draws: seq<nat>, n: nat): (r: seq<T>)
    requires n <= |s| && ValidDraws(draws, n)
    ensures |r| == |s|
    ensures multiset(r) == multiset(s)
    decreases n
  {
    if n <= 1 then s else ShuffleSteps(Swap(s, n - 1, draws[n - 1]), draws, n - 1)
  }

  /** The whole pass over `s`: a permutation, and the identity on fewer than two elements. */
  function FisherYates<T>(s: seq<T>, draws: seq<nat>): (r: seq<T>)
    requires ValidDraws(draws, |s|)
    ensures |r| == |s|
    ensures multiset(r) == multiset(s)
    ensures |s| <= 1 ==> r == s
  {
    ShuffleSteps(s, draws, |s|)
  }

  /** The in-place loop of `shuffle`, over a sequence value. */
  method Shuffle<T>(a: seq<T>, draws: seq<nat>) returns (r: seq<T>)
    requires ValidDraws(draws, |a|)
    ensures r == FisherYates(a, draws)
    ensures |r| == |a| && multiset(r) == multiset(a)
  {
    r := a;
    if |a| == 0 {
      return;
    }
    ghost var target := FisherYates(a, draws);
    var i := |a| - 1;
    while i > 0
      invariant 0 <= i < |a| == |r|
      invariant ShuffleSteps(r, draws, i + 1) == target
      decreases i
    {
      var j := draws[i];
      StepUnfolds(r, draws, i);
      r := Swap(r, i, j);
      i := i - 1;
    }
    assert ShuffleSteps(r, draws, 1) == r;
  }

  /** One step of the pass, taken from the top. */
  lemma StepUnfolds<T>(s: seq<T>, draws: seq<nat>, i: nat)
    requires 0 < i < |s| && ValidDraws(draws, |s|)
    ensures draws[i] < |s|
    ensures ShuffleSteps(s, draws, i + 1) == ShuffleSteps(Swap(s, i, draws[i]), draws, i)
  {
  }

  /** Projecting every element commutes with the shuffle: it only moves elements around. */
  lemma {:induction false} ShuffleStepsMap<T, U>(f: T -> U, s: seq<T>, draws: seq<nat>, n: nat)
    requires n <= |s| && ValidDraws(draws, n)
    ensures Map(f, ShuffleSteps(s, draws, n)) == ShuffleSteps(Map(f, s), draws, n)
    decreases n
  {
    if n > 1 {
      var j := draws[n - 1];
      MapSwap(f, s, n - 1, j);
      ShuffleStepsMap(f, Swap(s, n - 1, j), draws, n - 1);
    }
  }

  lemma MapSwap<T, U>(f: T -> U, s: seq<T>, i: nat, j: nat)
    requires i < |s| && j < |s|
    ensures Map(f, Swap(s, i, j)) == Swap(Map(f, s), i, j)
  {
    var left, right := Map(f, Swap(s, i, j)), Swap(Map(f, s), i, j);
    forall k | 0 <= k < |s| ensures left[k] == right[k] {
    }
  }

  lemma FisherYatesMap<T, U>(f: T -> U, s: seq<T>, draws: seq<nat>)
    requires ValidDraws(draws, |s|)
    ensures Map(f, FisherYates(s, draws)) == FisherYates(Map(f, s), draws)
  {
    ShuffleStepsMap(f, s, draws, |s|);
  }

  /** A swap keeps a sequence free of repetitions. */
  lemma SwapDistinct<T>(s: seq<T>, i: nat, j: nat)
    requires i < |s| && j < |s| && Distinct(s)
    ensures Distinct(Swap(s, i, j))
  {
    var r := Swap(s, i, j);
    forall a, b | 0 <= a < b < |r| ensures r[a] != r[b] {
      var a' := if a == i then j else if a == j then i else a;
      var b' := if b == i then j else if b == j then i else b;
      assert r[a] == s[a'] && r[b] == s[b'];
      assert a' != b';
    }
  }

  /** The shuffle keeps a sequence free of repetitions. */
  lemma {:induction false} ShuffleStepsDistinct<T>(s: seq<T>, draws: seq<nat>, n: nat)
    requires n <= |s| && ValidDraws(draws, n) && Distinct(s)
    ensures Distinct(ShuffleSteps(s, draws, n))
    decreases n
  {
    if n > 1 {
      SwapDistinct(s, n - 1, draws[n - 1]);
      ShuffleStepsDistinct(Swap(s, n - 1, draws[n - 1]), draws, n - 1);
    }
  }

  lemma FisherYatesDistinct<T>(s: seq<T>, draws: seq<nat>)
    requires ValidDraws(draws, |s|) && Distinct(s)
    ensures Distinct(FisherYates(s, draws))
  {
    ShuffleStepsDistinct(s, draws, |s|);
  }

  /** Draws that always pick the current position swap nothing. */
  lemma {:induction false} ShuffleStepsStay<T>(s: seq<T>, draws: seq<nat>, n: nat)
    requires n <= |s| && ValidDraws(draws, n)
    requires forall k :: 0 <= k < n ==> draws[k] == k
    ensures ShuffleSteps(s, draws, n) == s
    decreases n
  {
    if n > 1 {
      assert Swap(s, n - 1, n - 1) == s;
      ShuffleStepsStay(s, draws, n - 1);
    }
  }
}
