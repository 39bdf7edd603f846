/** A notion about sequences that several models share. */
module Sequences {

  predicate Distinct<T(==)>(s: seq<T>) {
    forall i, j :: 0 <= i < j < |s| ==> s[i] != s[j]
  }

  lemma DistinctLast<T>(front: seq<T>, last: T)
    ensures Distinct(front + [last]) <==> Distinct(front) && last !in front
  {
    if Distinct(front + [last]) {
      assert forall i, j :: 0 <= i < j < |front| ==> front[i] == (front + [last])[i] && front[j] == (front + [last])[j];
      assert (front + [last])[|front|] == last;
      assert forall i :: 0 <= i < |front| ==> (front + [last])[i] == front[i];
    }
  }
}
