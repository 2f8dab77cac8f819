/** Top-k selection, specified so that any tie-breaking is allowed. */
module Selection {
  import opened Softmax

  predicate ScoreLe(a: Score, b: Score) {
    a.Masked? || (b.Fin? && a.value <= b.value)
  }

  /** `chosen` are k positions of s, none of them beaten by a position left out. */
  ghost predicate IsTopK(s: seq<Score>, k: nat, chosen: set<nat>) {
    && |chosen| == k
    && (forall i :: i in chosen ==> i < |s|)
    && (forall i: nat, j: nat :: i in chosen && j < |s| && j !in chosen ==> ScoreLe(s[j], s[i]))
  }

  ghost predicate SelectsTopK(topk: (seq<Score>, nat) -> set<nat>) {
    forall s, k: nat :: k <= |s| ==> IsTopK(s, k, topk(s, k))
  }

  function FinitePositions(s: seq<Score>): set<nat> {
    set i: nat | i < |s| && s[i].Fin?
  }

  lemma SubsetSize<T>(a: set<T>, b: set<T>)
    requires a <= b
    ensures |a| <= |b|
  {
    assert b == a + (b - a);
  }

  lemma {:induction false} BoundedSize(a: set<nat>, n: nat)
    requires forall i :: i in a ==> i < n
    ensures |a| <= n
  {
    if a != {} {
      var i :| i in a;
      if n - 1 in a { BoundedSize(a - {n - 1}, n - 1); } else { BoundedSize(a, n - 1); }
    }
  }

  /** With at least k finite scores, no masked position is chosen. */
  lemma TopKAvoidsMasked(s: seq<Score>, k: nat, chosen: set<nat>)
    requires IsTopK(s, k, chosen) && k <= |FinitePositions(s)|
    ensures chosen <= FinitePositions(s)
  {
    if i :| i in chosen && i !in FinitePositions(s) {
      var finite := FinitePositions(s);
      assert forall j :: j in finite && j !in chosen ==> ScoreLe(s[j], s[i]);
      assert finite <= chosen - {i};
      SubsetSize(finite, chosen - {i});
    }
  }
}
