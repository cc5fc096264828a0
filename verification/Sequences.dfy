/** Sequences without repetition, and the regrouping of concatenations for the
    histories that the queue modules keep. */
module Sequences {
  ghost predicate NoDuplicates(q: seq<nat>) {
    forall i, j :: 0 <= i < j < |q| ==> q[i] != q[j]
  }

  /** Two conserved steps make one: what left and what is held, against what was held and what came in. */
  lemma Shuffle<T>(left: seq<T>, out: seq<T>, end: seq<T>, mid: seq<T>, more: seq<T>, held: seq<T>, entered: seq<T>)
    requires out + end == mid + more && left + mid == held + entered
    ensures (left + out) + end == held + (entered + more)
  {
    assert (left + out) + end == left + (out + end);
    assert left + (mid + more) == (left + mid) + more;
    assert (held + entered) + more == held + (entered + more);
  }
}
