/** The top-p filter on one row of logits. */
module Nucleus {
  import opened Wrappers
  import opened Vectors
  import opened Softmax
  import opened Selection

  /** perm lists all positions in descending order of score; ties in any order. */
  ghost predicate IsDescending(s: seq<Score>, perm: seq<nat>) {
    && |perm| == |s|
    && (forall i :: 0 <= i < |perm| ==> perm[i] < |s|)
    && (forall i, j :: 0 <= i < j < |perm| ==> perm[i] != perm[j] && ScoreLe(s[perm[j]], s[perm[i]]))
    && (forall q: nat :: q < |s| ==> q in perm)
  }

  function Arranged(s: seq<Score>, perm: seq<nat>): (r: seq<Score>)
    requires forall i :: 0 <= i < |perm| ==> perm[i] < |s|
    ensures |r| == |perm|
  {
    seq(|perm|, i requires 0 <= i < |perm| => s[perm[i]])
  }

  /** Probability mass of the first n tokens in sorted order. */
  function Mass(probs: Vec, n: nat): real
    requires n <= |probs|
  {
    Sum(probs[..n])
  }

  lemma {:induction false} MassMonotone(probs: Vec, a: nat, b: nat)
    requires a <= b <= |probs| && forall i :: 0 <= i < |probs| ==> probs[i] >= 0.0
    ensures Mass(probs, a) <= Mass(probs, b)
  {
    if a < b {
      MassMonotone(probs, a, b - 1);
      assert probs[..b][..b - 1] == probs[..b - 1];
    }
  }

  lemma ArrangedFinite(s: seq<Score>, perm: seq<nat>)
    requires IsDescending(s, perm) && AnyFinite(s)
    ensures AnyFinite(Arranged(s, perm)) && |perm| > 0
  {
    var q: nat :| q < |s| && s[q].Fin?;
    assert q in perm;
    var i :| 0 <= i < |perm| && perm[i] == q;
    assert Arranged(s, perm)[i].Fin?;
  }

  /** The shortest non-empty prefix of the sorted order whose mass exceeds p. */
  ghost predicate IsNucleus(probs: Vec, p: real, n: nat) {
    1 <= n <= |probs| && Mass(probs, n) > p && forall m: nat :: 1 <= m < n ==> Mass(probs, m) <= p
  }

  /** Where the mass up to a token exceeds p, moved one place to the right with nothing removed in front. */
  method RemovalMask(probs: Vec, p: real) returns (r: seq<bool>)
    requires |probs| > 0
    ensures |r| == |probs| && forall i :: 0 <= i < |probs| ==> (r[i] <==> i > 0 && Mass(probs, i) > p)
  {
    var mask := new bool[|probs|](_ => false);
    var cum := 0.0;
    for i := 0 to |probs|
      invariant cum == Mass(probs, i)
      invariant forall j :: 0 <= j < i ==> (mask[j] <==> Mass(probs, j + 1) > p)
    {
      assert probs[..i + 1][..i] == probs[..i];
      cum := cum + probs[i];
      mask[i] := cum > p;
    }
    var i := |probs| - 1;
    while i > 0
      invariant 0 <= i < |probs|
      invariant forall j :: 0 <= j <= i ==> (mask[j] <==> Mass(probs, j + 1) > p)
      invariant forall j :: i < j < |probs| ==> (mask[j] <==> Mass(probs, j) > p)
    {
      mask[i] := mask[i - 1];
      i := i - 1;
    }
    mask[0] := false;
    r := mask[..];
  }

  /** The mask of the sorted order put back in vocabulary order. */
  method ScatterMask(mask: seq<bool>, perm: seq<nat>) returns (flags: seq<bool>)
    requires |mask| == |perm| && forall i :: 0 <= i < |perm| ==> perm[i] < |perm|
    requires forall i, j :: 0 <= i < j < |perm| ==> perm[i] != perm[j]
    ensures |flags| == |perm| && forall i :: 0 <= i < |perm| ==> flags[perm[i]] == mask[i]
  {
    var removed := new bool[|perm|](_ => false);
    for i := 0 to |perm|
      invariant forall j :: 0 <= j < i ==> removed[perm[j]] == mask[j]
    {
      removed[perm[i]] := mask[i];
    }
    flags := removed[..];
  }

  /** _top_p_logits: keeps exactly the nucleus, each kept token at its own position with its own logit. */
  method TopP(exp: real -> real, logits: seq<Score>, p: Option<real>, perm: seq<nat>)
    returns (out: seq<Score>, ghost kept: nat)
    requires IsExp(exp) && AnyFinite(logits) && IsDescending(logits, perm)
    ensures |out| == |logits|
    ensures p.None? || p.value >= 1.0 ==> out == logits
    ensures p.Some? && p.value < 1.0 ==>
      && |SoftmaxOf(exp, logits)| == |logits| && IsNucleus(Picked(SoftmaxOf(exp, logits), perm), p.value, kept)
      && forall i :: 0 <= i < |perm| ==> out[perm[i]] == if i < kept then logits[perm[i]] else Masked
  {
    hide SoftmaxOf, IsExp, IsNucleus, Mass;
    kept := 0;
    if p.None? || p.value >= 1.0 {
      return logits, kept;
    }
    var sorted := Arranged(logits, perm);
    var probs := SoftmaxOf(exp, sorted);
    ArrangedFinite(logits, perm);
    SoftmaxMass(exp, sorted);
    SoftmaxLength(exp, sorted);
    SortedProbs(exp, logits, perm);
    kept := NucleusExists(probs, p.value);
    var mask := RemovalMask(probs, p.value);
    var flags := ScatterMask(mask, perm);
    out := seq(|logits|, q requires 0 <= q < |logits| && |flags| == |logits| => if flags[q] then Masked else logits[q]);
    forall i | 0 <= i < |perm| ensures out[perm[i]] == if i < kept then logits[perm[i]] else Masked {
      KeptIff(probs, p.value, kept, i);
    }
  }

  /** Sorting first and taking softmax then gives the probabilities of the tokens in sorted order. */
  lemma SortedProbs(exp: real -> real, s: seq<Score>, perm: seq<nat>)
    requires IsDescending(s, perm) && AnyFinite(s)
    ensures |SoftmaxOf(exp, s)| == |s|
    ensures SoftmaxOf(exp, Arranged(s, perm)) == Picked(SoftmaxOf(exp, s), perm)
  {
    hide Sum, RowMax;
    SameTop(s, perm);
    var w := Weights(exp, s);
    assert Weights(exp, Arranged(s, perm)) == Picked(w, perm);
    SumPermuted(w, perm);
  }

  lemma SameTop(s: seq<Score>, perm: seq<nat>)
    requires IsDescending(s, perm) && AnyFinite(s)
    ensures RowMax(Arranged(s, perm)) == RowMax(s)
  {
    hide RowMax;
    var r := Arranged(s, perm);
    ArrangedFinite(s, perm);
    RowMaxIsMax(s);
    RowMaxIsMax(r);
    var i :| 0 <= i < |r| && r[i] == Fin(RowMax(r));
    assert s[perm[i]] == Fin(RowMax(r));
    var q: nat :| q < |s| && s[q] == Fin(RowMax(s));
    assert q in perm;
    var j :| 0 <= j < |perm| && perm[j] == q;
    assert r[j] == Fin(RowMax(s));
  }

  lemma KeptIff(probs: Vec, p: real, n: nat, i: nat)
    requires IsNucleus(probs, p, n) && i < |probs| && forall j :: 0 <= j < |probs| ==> probs[j] >= 0.0
    ensures i < n <==> !(i > 0 && Mass(probs, i) > p)
  {
    if i >= n { MassMonotone(probs, n, i); }
  }

  lemma NucleusExists(probs: Vec, p: real) returns (n: nat)
    requires |probs| > 0 && Sum(probs) == 1.0 && p < 1.0
    ensures IsNucleus(probs, p, n)
  {
    assert probs[..|probs|] == probs;
    n := 1;
    while Mass(probs, n) <= p
      invariant 1 <= n <= |probs| && forall m: nat :: 1 <= m < n ==> Mass(probs, m) <= p
      decreases |probs| - n
    {
      n := n + 1;
    }
  }
}
