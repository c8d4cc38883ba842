/** What a filter keeps, said without a filter: the kept positions in ascending order. */
module Selections {
  /** `idx` lists the numbers in `picked`, each once, in ascending order. */
  ghost predicate Lists(idx: seq<nat>, picked: set<nat>) {
    && (forall i, j :: 0 <= i < j < |idx| ==> idx[i] < idx[j])
    && (forall i: nat :: i in idx <==> i in picked)
  }

  lemma ListsSnoc(idx: seq<nat>, picked: set<nat>, n: nat)
    requires Lists(idx, picked) && forall i :: i in picked ==> i < n
    ensures Lists(idx + [n], picked + {n})
  {
    assert forall i :: 0 <= i < |idx| ==> idx[i] in idx;
  }
}
