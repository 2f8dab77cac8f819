/**
 Softmax over rows of scores in which some keys are masked, and the Hedgehog feature map.
 `exp` is a parameter: the development uses only that it is positive, monotone and 1 at 0.
 */
module Softmax {
  import opened Vectors

  /** A score row entry; `Masked` is the additive minus infinity. */
  datatype Score = Masked | Fin(value: real)

  ghost predicate IsExp(exp: real -> real) {
    && exp(0.0) == 1.0
    && (forall x :: exp(x) > 0.0)
    && (forall x, y :: x <= y ==> exp(x) <= exp(y))
  }

  /** Division; the denominators of the code are positive, so the zero case is never taken. */
  function Ratio(a: real, b: real): real {
    if b == 0.0 then 0.0 else a / b
  }

  predicate AnyFinite(s: seq<Score>) {
    exists i :: 0 <= i < |s| && s[i].Fin?
  }

  /** Largest finite entry of a row (0 when the row has none). */
  function RowMax(s: seq<Score>): real {
    if |s| == 0 then 0.0
    else
      var front, last := s[..|s| - 1], s[|s| - 1];
      if last.Masked? then RowMax(front)
      else if AnyFinite(front) then Max(RowMax(front), last.value)
      else last.value
  }

  function Weight(exp: real -> real, s: Score, top: real): real {
    if s.Masked? then 0.0 else exp(s.value - top)
  }

  /** exp(score - row maximum), with weight 0 for a masked key. */
  function Weights(exp: real -> real, s: seq<Score>): Vec {
    seq(|s|, i requires 0 <= i < |s| => Weight(exp, s[i], RowMax(s)))
  }

  /**
   The same row when masking fills in the most negative finite number instead of minus infinity:
   a masked key underflows to 0 next to a valid one, but in a row of masked keys every
   score equals the maximum.
   */
  function FilledWeights(exp: real -> real, s: seq<Score>): Vec {
    if AnyFinite(s) then Weights(exp, s) else seq(|s|, _ => exp(0.0))
  }

  function Normalize(w: Vec): Vec {
    var total := Sum(w);
    seq(|w|, i requires 0 <= i < |w| => Ratio(w[i], total))
  }

  function FiniteRow(u: Vec): seq<Score> {
    seq(|u|, i requires 0 <= i < |u| => Fin(u[i]))
  }

  function MaskedRow(n: nat): seq<Score> {
    seq(n, _ => Masked)
  }

  function SoftmaxOf(exp: real -> real, s: seq<Score>): Vec {
    Normalize(Weights(exp, s))
  }

  /** phi(x) = [softmax(x @ W), softmax(-x @ W)]. */
  function Hedgehog(exp: real -> real, proj: Mat, feat: nat, x: Vec): (phi: Vec)
    ensures |phi| == 2 * feat
  {
    var u := VecMat(x, proj, feat);
    SoftmaxOf(exp, FiniteRow(u)) + SoftmaxOf(exp, FiniteRow(Scale(-1.0, u)))
  }

  // ----- facts -----

  lemma {:induction false} RowMaxIsMax(s: seq<Score>)
    requires AnyFinite(s)
    ensures forall i :: 0 <= i < |s| && s[i].Fin? ==> s[i].value <= RowMax(s)
    ensures exists i :: 0 <= i < |s| && s[i] == Fin(RowMax(s))
  {
    var front := s[..|s| - 1];
    var n := |s| - 1;
    if AnyFinite(front) {
      RowMaxIsMax(front);
      var j :| 0 <= j < |front| && front[j] == Fin(RowMax(front));
      assert s[j] == Fin(RowMax(front));
      forall i | 0 <= i < |s| && s[i].Fin? ensures s[i].value <= RowMax(s) {
        if i < n { assert front[i] == s[i]; }
      }
      if s[n].Fin? && s[n].value > RowMax(front) { assert s[n] == Fin(RowMax(s)); }
    } else {
      assert forall i :: 0 <= i < n ==> front[i] == s[i];
      assert s[n] == Fin(RowMax(s));
    }
  }

  lemma {:induction false} RowMaxMaskedTail(s: seq<Score>, n: nat)
    ensures RowMax(s + MaskedRow(n)) == RowMax(s)
  {
    if n == 0 {
      assert s + MaskedRow(0) == s;
    } else {
      var t := s + MaskedRow(n);
      assert t[..|t| - 1] == s + MaskedRow(n - 1);
      RowMaxMaskedTail(s, n - 1);
    }
  }

  /** Keys masked at the end of a row get weight 0 and do not disturb the others. */
  lemma WeightsMaskedTail(exp: real -> real, s: seq<Score>, n: nat)
    ensures Weights(exp, s + MaskedRow(n)) == Weights(exp, s) + Zeros(n)
  {
    RowMaxMaskedTail(s, n);
  }

  lemma NormalizeZeroTail(w: Vec, n: nat)
    ensures Normalize(w + Zeros(n)) == Normalize(w) + Zeros(n)
  {
    SumAppend(w, Zeros(n));
    SumZeros(n);
  }

  /** The largest score has weight exp(0) == 1, so the partition function is at least 1. */
  lemma WeightsMass(exp: real -> real, s: seq<Score>)
    requires IsExp(exp)
    ensures forall i :: 0 <= i < |s| ==> 0.0 <= Weights(exp, s)[i]
    ensures AnyFinite(s) ==> forall i :: 0 <= i < |s| ==> Weights(exp, s)[i] <= 1.0
    ensures AnyFinite(s) ==> Sum(Weights(exp, s)) >= 1.0
  {
    SumNonNegative(Weights(exp, s));
    if AnyFinite(s) {
      RowMaxIsMax(s);
      var i :| 0 <= i < |s| && s[i] == Fin(RowMax(s));
      assert Weights(exp, s)[i] == exp(0.0) == 1.0;
    }
  }

  lemma FilledWeightsMass(exp: real -> real, s: seq<Score>)
    requires IsExp(exp) && |s| > 0
    ensures forall i :: 0 <= i < |s| ==> 0.0 <= FilledWeights(exp, s)[i] <= 1.0
    ensures Sum(FilledWeights(exp, s)) >= 1.0
  {
    WeightsMass(exp, s);
    if !AnyFinite(s) {
      SumNonNegative(FilledWeights(exp, s));
      assert FilledWeights(exp, s)[0] == 1.0;
    }
  }

  lemma NormalizeSums(w: Vec)
    requires Sum(w) > 0.0
    ensures Sum(Normalize(w)) == 1.0
  {
    var c := 1.0 / Sum(w);
    assert Normalize(w) == Scale(c, w) by {
      forall i | 0 <= i < |w| ensures Ratio(w[i], Sum(w)) == Times(c, w[i]) {}
    }
    SumScale(c, w);
  }

  lemma SoftmaxMass(exp: real -> real, s: seq<Score>)
    requires IsExp(exp) && AnyFinite(s)
    ensures Sum(SoftmaxOf(exp, s)) == 1.0
    ensures forall i :: 0 <= i < |s| ==> SoftmaxOf(exp, s)[i] >= 0.0
  {
    WeightsMass(exp, s);
    NormalizeSums(Weights(exp, s));
    forall i | 0 <= i < |s| ensures SoftmaxOf(exp, s)[i] >= 0.0 {
      QuotientNonNegative(Weights(exp, s)[i], Sum(Weights(exp, s)));
    }
  }

  lemma QuotientNonNegative(a: real, b: real)
    requires a >= 0.0 && b > 0.0
    ensures Ratio(a, b) >= 0.0
  {}

  /** Feature vectors are non-negative and have total mass 2. */
  lemma HedgehogMass(exp: real -> real, proj: Mat, feat: nat, x: Vec)
    requires IsExp(exp)
    ensures forall f :: 0 <= f < 2 * feat ==> Hedgehog(exp, proj, feat, x)[f] >= 0.0
    ensures feat > 0 ==> Sum(Hedgehog(exp, proj, feat, x)) == 2.0
  {
    if feat > 0 {
      var u := VecMat(x, proj, feat);
      var plus, minus := FiniteRow(u), FiniteRow(Scale(-1.0, u));
      assert plus[0].Fin? && minus[0].Fin?;
      SoftmaxMass(exp, plus);
      SoftmaxMass(exp, minus);
      SumAppend(SoftmaxOf(exp, plus), SoftmaxOf(exp, minus));
    }
  }

  // ----- weights follow the scores -----

  /** The law of exponents; with it, weights are known by their ratios. */
  ghost predicate Multiplies(exp: real -> real) {
    forall x, y :: exp(x + y) == Times(exp(x), exp(y))
  }

  lemma Exponents(exp: real -> real, a: real, b: real, top: real)
    requires Multiplies(exp)
    ensures exp(a - top) * exp(b) == exp(b - top) * exp(a)
  {
    assert exp((a - top) + b) == Times(exp(a - top), exp(b));
    assert exp((b - top) + a) == Times(exp(b - top), exp(a));
    assert (a - top) + b == (b - top) + a;
  }

  /** Two unmasked keys are weighed in the ratio of the exponentials of their scores; a masked key weighs nothing. */
  lemma WeightsRatio(exp: real -> real, s: seq<Score>, i: nat, j: nat)
    requires Multiplies(exp) && i < |s| && j < |s| && s[i].Fin? && s[j].Fin?
    ensures Weights(exp, s)[i] * exp(s[j].value) == Weights(exp, s)[j] * exp(s[i].value)
    ensures FilledWeights(exp, s)[i] * exp(s[j].value) == FilledWeights(exp, s)[j] * exp(s[i].value)
    ensures forall k :: 0 <= k < |s| && s[k].Masked? ==> Weights(exp, s)[k] == FilledWeights(exp, s)[k] == 0.0
  {
    hide Multiplies, RowMax;
    Exponents(exp, s[i].value, s[j].value, RowMax(s));
    assert AnyFinite(s);
  }

  /**
   Softmax, known by its laws alone: the weights sum to 1, none is negative, a masked key has none, and two
   unmasked keys are weighed in the ratio of the exponentials of their scores.
   */
  lemma SoftmaxRatio(exp: real -> real, s: seq<Score>, i: nat, j: nat)
    requires IsExp(exp) && Multiplies(exp) && i < |s| && j < |s| && s[i].Fin? && s[j].Fin?
    ensures |SoftmaxOf(exp, s)| == |s| && Sum(SoftmaxOf(exp, s)) == 1.0
    ensures SoftmaxOf(exp, s)[i] * exp(s[j].value) == SoftmaxOf(exp, s)[j] * exp(s[i].value)
    ensures forall k :: 0 <= k < |s| ==> SoftmaxOf(exp, s)[k] >= 0.0
    ensures forall k :: 0 <= k < |s| && s[k].Masked? ==> SoftmaxOf(exp, s)[k] == 0.0
  {
    hide Weights, FilledWeights, IsExp, Multiplies, Sum;
    assert AnyFinite(s);
    SoftmaxLength(exp, s);
    WeightsRatio(exp, s, i, j);
    WeightsMass(exp, s);
    SoftmaxMass(exp, s);
    var w := Weights(exp, s);
    RatioKept(w[i], w[j], exp(s[i].value), exp(s[j].value), Sum(w));
  }

  lemma RatioKept(a: real, b: real, x: real, y: real, total: real)
    requires a * y == b * x && total > 0.0
    ensures Ratio(a, total) * y == Ratio(b, total) * x
  {
    var r := 1.0 / total;
    assert a / total == a * r && b / total == b * r;
    assert (a * r) * y == (a * y) * r && (b * r) * x == (b * x) * r;
  }

  lemma {:induction false} DotNegative(a: Vec, b: Vec)
    ensures Dot(Scale(-1.0, a), b) == -Dot(a, b)
  {
    if |a| > 0 && |b| > 0 {
      assert Scale(-1.0, a)[1..] == Scale(-1.0, a[1..]);
      DotNegative(a[1..], b[1..]);
    }
  }

  /** The features of -x are those of x with the two halves exchanged. */
  lemma HedgehogNegative(exp: real -> real, proj: Mat, feat: nat, x: Vec)
    ensures Hedgehog(exp, proj, feat, Scale(-1.0, x))
         == Hedgehog(exp, proj, feat, x)[feat..] + Hedgehog(exp, proj, feat, x)[..feat]
  {
    hide SoftmaxOf, Dot;
    var u, v := VecMat(x, proj, feat), VecMat(Scale(-1.0, x), proj, feat);
    forall c: nat | c < feat ensures v[c] == -u[c] { DotNegative(x, Col(proj, c)); }
    assert v == Scale(-1.0, u) && Scale(-1.0, v) == u;
    SoftmaxLength(exp, FiniteRow(u));
    SoftmaxLength(exp, FiniteRow(v));
  }

  lemma SoftmaxLength(exp: real -> real, s: seq<Score>)
    ensures |SoftmaxOf(exp, s)| == |Weights(exp, s)| == |s|
  {}

  /** In x @ W the first half of the features grows with each entry and the second half with its negative. */
  lemma HedgehogRatio(exp: real -> real, proj: Mat, feat: nat, x: Vec, f: nat, g: nat)
    requires IsExp(exp) && Multiplies(exp) && f < feat && g < feat
    ensures var phi, uf, ug := Hedgehog(exp, proj, feat, x), Dot(x, Col(proj, f)), Dot(x, Col(proj, g));
            && Times(phi[f], exp(ug)) == Times(phi[g], exp(uf))
            && Times(phi[feat + f], exp(-ug)) == Times(phi[feat + g], exp(-uf))
            && Sum(phi[..feat]) == 1.0 && Sum(phi[feat..]) == 1.0
  {
    hide Hedgehog, IsExp, Multiplies, Dot, Sum, SoftmaxOf, Times;
    var u := VecMat(x, proj, feat);
    HedgehogHalves(exp, proj, feat, x);
    HalfRatio(exp, u, f, g);
    HalfRatio(exp, Scale(-1.0, u), f, g);
    Negated(u);
    var phi := Hedgehog(exp, proj, feat, x);
    assert phi[f] == phi[..feat][f] && phi[g] == phi[..feat][g];
    assert phi[feat + f] == phi[feat..][f] && phi[feat + g] == phi[feat..][g];
  }

  lemma Negated(u: Vec)
    ensures forall f :: 0 <= f < |u| ==> Scale(-1.0, u)[f] == -u[f]
  {}

  lemma HedgehogHalves(exp: real -> real, proj: Mat, feat: nat, x: Vec)
    ensures var phi, u := Hedgehog(exp, proj, feat, x), VecMat(x, proj, feat);
            phi[..feat] == SoftmaxOf(exp, FiniteRow(u)) && phi[feat..] == SoftmaxOf(exp, FiniteRow(Scale(-1.0, u)))
  {
    hide SoftmaxOf, Dot;
    SoftmaxLength(exp, FiniteRow(VecMat(x, proj, feat)));
  }

  lemma HalfRatio(exp: real -> real, u: Vec, f: nat, g: nat)
    requires IsExp(exp) && Multiplies(exp) && f < |u| && g < |u|
    ensures |SoftmaxOf(exp, FiniteRow(u))| == |u| && Sum(SoftmaxOf(exp, FiniteRow(u))) == 1.0
    ensures Times(SoftmaxOf(exp, FiniteRow(u))[f], exp(u[g])) == Times(SoftmaxOf(exp, FiniteRow(u))[g], exp(u[f]))
  {
    hide SoftmaxOf, IsExp, Multiplies, Sum;
    SoftmaxRatio(exp, FiniteRow(u), f, g);
  }
}
