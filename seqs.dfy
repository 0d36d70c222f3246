/**
  Sequence facts shared by the particle system and the frame model: the
  arrays both keep hold each object at most once.
*/
module Seqs {

  /** No element appears twice. */
  predicate Distinct<T(==)>(s: seq<T>) {
    forall i, j :: 0 <= i < j < |s| ==> s[i] != s[j]
  }
}
