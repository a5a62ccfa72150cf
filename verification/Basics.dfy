/** What several modules share. */
module Basics {
  datatype Option<+T> = None | Some(value: T)

  /** Every element of the set, each once. */
  ghost predicate Enumerates<T>(order: seq<T>, s: set<T>) {
    && (forall i :: 0 <= i < |order| ==> order[i] in s)
    && (forall i, k :: 0 <= i < k < |order| ==> order[i] != order[k])
    && (forall x :: x in s ==> x in order)
  }

  lemma SubsetCount<T>(a: set<T>, b: set<T>)
    requires a <= b
    ensures |a| <= |b|
  {
    assert b == a + (b - a);
  }
}
