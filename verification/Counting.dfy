/** Counting with sets. */
module Counting {

  /** Two sets that agree except on one element differ in size by that element. */
  lemma OneApart(a: set<nat>, b: set<nat>, t: nat)
    requires forall u: nat | u != t :: u in a <==> u in b
    ensures |b| == |a| + (if t in b then 1 else 0) - (if t in a then 1 else 0)
  {
    assert a - {t} == b - {t};
    assert |a - {t}| == |a| - if t in a then 1 else 0;
    assert |b - {t}| == |b| - if t in b then 1 else 0;
  }
}
