/** The outcomes of Python's `random` calls, taken as inputs: a shuffle is a
    permutation of positions, a sample is a list of distinct positions. */
module Draws {

  /** `random.shuffle` of `n` items: position `k` receives the item at `order[k]`. */
  predicate IsPermutation(order: seq<nat>, n: nat)
  {
    && |order| == n
    && (forall k :: 0 <= k < n ==> order[k] < n)
    && (forall j, k :: 0 <= j < k < n ==> order[j] != order[k])
    && (forall t :: 0 <= t < n ==> t in order)
  }

  /** The list after the shuffle. */
  function Shuffled<T>(s: seq<T>, order: seq<nat>): (r: seq<T>)
    requires IsPermutation(order, |s|)
    ensures |r| == |s|
    ensures forall k :: 0 <= k < |s| ==> r[k] == s[order[k]]
  {
    seq(|s|, k requires 0 <= k < |s| => s[order[k]])
  }

  /** `random.sample(population, k)` over a population of `n`: `k` distinct positions. */
  predicate IsSample(picks: seq<nat>, k: nat, n: nat)
  {
    && |picks| == k
    && (forall i :: 0 <= i < k ==> picks[i] < n)
    && (forall i, j :: 0 <= i < j < k ==> picks[i] != picks[j])
  }

  predicate Distinct<T(==)>(s: seq<T>)
  {
    forall i, j :: 0 <= i < j < |s| ==> s[i] != s[j]
  }

  /** Shuffling a list without repeats gives a list without repeats. */
  lemma ShuffledDistinct<T>(s: seq<T>, order: seq<nat>)
    requires IsPermutation(order, |s|) && Distinct(s)
    ensures Distinct(Shuffled(s, order))
  {
  }

  /** Taking distinct positions of a list without repeats gives distinct items. */
  lemma SampleDistinct<T>(population: seq<T>, picks: seq<nat>)
    requires IsSample(picks, |picks|, |population|) && Distinct(population)
    ensures Distinct(seq(|picks|, i requires 0 <= i < |picks| => population[picks[i]]))
  {
  }
}
