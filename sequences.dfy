/** Small facts about sequences shared by the cleaning step and the feature builder. */
module Sequences {

  /** No two positions of `s` hold the same value. */
  predicate NoDuplicates<T(==)>(s: seq<T>) {
    forall i, j :: 0 <= i < j < |s| ==> s[i] != s[j]
  }

  /** The positions 0, 1, ..., n - 1 in order. */
  function Range(n: nat): (r: seq<nat>)
    ensures |r| == n
    ensures forall k :: 0 <= k < n ==> r[k] == k
  {
    seq(n, k requires 0 <= k < n => k)
  }

  /** The elements of `s` at the positions `ps`, in the order of `ps`. */
  function Select<T>(s: seq<T>, ps: seq<nat>): seq<T>
    requires forall k :: 0 <= k < |ps| ==> ps[k] < |s|
  {
    seq(|ps|, k requires 0 <= k < |ps| => s[ps[k]])
  }
}
