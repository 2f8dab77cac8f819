/** Magnitude bounds of the recurrent attention, over exact reals. */
module Bounds {
  import opened Vectors
  import opened Softmax
  import opened BlockMath
  import opened BlockAttention
  import opened AttentionForward
  import Layers

  ghost predicate Within(x: real, m: real) {
    -m <= x <= m
  }

  /** Every value a valid position carries is at most m in magnitude. */
  ghost predicate ValuesWithin(es: seq<Entry>, m: real) {
    forall j, d: nat :: 0 <= j < |es| && es[j].valid ==> Within(At(es[j].v, d), m)
  }

  /** |S[f, d]| <= m * Z[f]. */
  ghost predicate StateWithin(h: Head, st: State, m: real) {
    && Shaped(h, st)
    && (forall f :: 0 <= f < 2 * h.feat ==> st.z[f] >= 0.0)
    && (forall f, d :: 0 <= f < 2 * h.feat && 0 <= d < h.dim ==> Within(st.s[f][d], Times(m, st.z[f])))
  }

  ghost predicate HeadOk(h: Head) {
    IsExp(h.exp) && h.eps > 0.0 && (h.kind.Hybrid? ==> h.kind.gate >= 0.0)
  }

  lemma FeaturesNonNegative(h: Head, es: seq<Entry>, f: nat)
    requires IsExp(h.exp) && f < 2 * h.feat
    ensures forall j :: 0 <= j < |es| ==> Col(Features(h, es), f)[j] >= 0.0
  {
    hide Hedgehog;
    forall j | 0 <= j < |es| ensures Col(Features(h, es), f)[j] >= 0.0 {
      if es[j].valid { HedgehogMass(h.exp, h.proj, h.feat, es[j].k); }
    }
  }

  lemma ColumnWithin(h: Head, es: seq<Entry>, m: real, d: nat)
    requires m >= 0.0 && ValuesWithin(es, m)
    ensures forall j :: 0 <= j < |es| ==> Within(Col(Values(h, es), d)[j], m)
  {
    forall j | 0 <= j < |es| ensures Within(Col(Values(h, es), d)[j], m) {
      if es[j].valid { assert Within(At(es[j].v, d), m); }
    }
  }

  lemma ValuesLength(h: Head, es: seq<Entry>)
    ensures |Values(h, es)| == |es|
  {}

  /** Non-negative weights over the values of a block. */
  lemma WeightedWithin(h: Head, w: Vec, es: seq<Entry>, m: real, d: nat)
    requires |w| == |es| && m >= 0.0 && ValuesWithin(es, m)
    requires forall j :: 0 <= j < |w| ==> w[j] >= 0.0
    ensures Within(Dot(w, Col(Values(h, es), d)), Times(m, Sum(w)))
  {
    hide Dot, Sum, Values, ValuesWithin;
    var col, ones := Col(Values(h, es), d), Ones(|w|);
    ValuesLength(h, es);
    ColumnWithin(h, es, m, d);
    forall i | 0 <= i < |w| ensures -(m * ones[i]) <= col[i] <= m * ones[i] {
      assert ones[i] == 1.0 && Within(col[i], m);
    }
    DotBound(w, col, ones, m);
    DotOnes(w);
  }

  lemma UpdateWithin(h: Head, st: State, blk: seq<Entry>, m: real)
    requires IsExp(h.exp) && m >= 0.0 && StateWithin(h, st, m) && ValuesWithin(blk, m)
    ensures StateWithin(h, Update(h, st, blk), m)
  {
    hide ValuesWithin, Values, Features;
    var r := Update(h, st, blk);
    UpdateShaped(h, st, blk);
    forall f | 0 <= f < 2 * h.feat
      ensures r.z[f] >= 0.0
      ensures forall d :: 0 <= d < h.dim ==> Within(r.s[f][d], Times(m, r.z[f]))
    {
      var col := Col(Features(h, blk), f);
      FeaturesNonNegative(h, blk, f);
      SumNonNegative(col);
      forall d | 0 <= d < h.dim ensures Within(r.s[f][d], Times(m, r.z[f])) {
        WeightedWithin(h, col, blk, m, d);
        assert Within(st.s[f][d], Times(m, st.z[f]));
        assert Times(m, r.z[f]) == Times(m, st.z[f]) + Times(m, Sum(col)) by { Distribute(m, st.z[f], Sum(col)); }
      }
    }
  }

  lemma Distribute(m: real, a: real, b: real)
    ensures Times(m, a + b) == Times(m, a) + Times(m, b)
  {}

  lemma ZeroWithin(h: Head, m: real)
    ensures StateWithin(h, ZeroState(h), m)
  {}

  /** Every reachable state keeps |S[f, d]| <= m * Z[f]. */
  lemma {:induction false} ReachableWithin(h: Head, st: State, blks: seq<seq<Entry>>, m: real)
    requires IsExp(h.exp) && m >= 0.0 && StateWithin(h, st, m)
    requires forall n :: 0 <= n < |blks| ==> ValuesWithin(blks[n], m)
    ensures StateWithin(h, RunState(h, st, blks), m)
  {
    hide StateWithin, ValuesWithin, Update;
    if |blks| > 0 {
      ReachableWithin(h, st, blks[..|blks| - 1], m);
      UpdateWithin(h, RunState(h, st, blks[..|blks| - 1]), blks[|blks| - 1], m);
    }
  }

  lemma {:induction false} BlocksWithin(size: nat, es: seq<Entry>, m: real)
    requires size > 0 && Whole(|es|, size) && ValuesWithin(es, m)
    ensures forall n :: 0 <= n < |Blocks(size, es)| ==> ValuesWithin(Blocks(size, es)[n], m)
    decreases |es|
  {
    if |es| > 0 {
      var cut := |es| - size;
      SliceWithinValues(es, 0, cut, m);
      SliceWithinValues(es, cut, |es|, m);
      assert es[0..cut] == es[..cut] && es[cut..|es|] == es[cut..];
      BlocksWithin(size, es[..cut], m);
    }
  }

  lemma SliceWithinValues(es: seq<Entry>, lo: nat, hi: nat, m: real)
    requires lo <= hi <= |es| && ValuesWithin(es, m)
    ensures ValuesWithin(es[lo..hi], m)
  {
    hide Within;
    assert forall j :: lo <= j < hi ==> es[lo..hi][j - lo] == es[j];
  }

  lemma PadWithinValues(h: Head, es: seq<Entry>, m: real)
    requires h.blockSize > 0 && ValuesWithin(es, m)
    ensures ValuesWithin(Pad(h, es), m)
  {
    hide Within, PadLength, Whole;
  }

  lemma ReadoutWithin(h: Head, st: State, q: Vec, m: real, d: nat)
    requires IsExp(h.exp) && StateWithin(h, st, m) && d < h.dim
    ensures Within(Dot(Phi(h, q), Col(st.s, d)), Times(m, Dot(Phi(h, q), st.z)))
    ensures Dot(Phi(h, q), st.z) >= 0.0
  {
    hide Hedgehog, Dot;
    var phi := Phi(h, q);
    HedgehogMass(h.exp, h.proj, h.feat, q);
    forall f | 0 <= f < 2 * h.feat ensures -(m * st.z[f]) <= Col(st.s, d)[f] <= m * st.z[f] {
      assert Within(st.s[f][d], Times(m, st.z[f]));
    }
    DotBound(phi, Col(st.s, d), st.z, m);
    DotNonNegative(phi, st.z);
  }

  lemma CancelWithin(x: real, m: real, den: real)
    requires den > 0.0 && Within(x * den, m * den)
    ensures Within(x, m)
  {
    assert (x - m) * den == x * den - m * den;
    assert (-m - x) * den == -(m * den) - x * den;
    assert x > m ==> (x - m) * den > 0.0;
    assert x < -m ==> (-m - x) * den > 0.0;
  }

  lemma QuotientWithin(num: real, den: real, m: real)
    requires den > 0.0 && Within(num, Times(m, den))
    ensures Within(Ratio(num, den), m)
  {
    assert (num / den) * den == num;
    CancelWithin(num / den, m, den);
  }

  lemma ScaleLe(c: real, a: real, b: real)
    requires c >= 0.0 && a <= b
    ensures Times(c, a) <= Times(c, b)
  {
    assert c * (b - a) >= 0.0;
  }

  lemma ScaleWithin(c: real, x: real, m: real)
    requires c >= 0.0 && Within(x, m)
    ensures Within(Times(c, x), Times(c, m))
  {
    MulBound(c, x, m);
  }

  lemma Swap(a: real, b: real, c: real)
    ensures Times(a, Times(b, c)) == Times(b, Times(a, c))
  {
    assert a * (b * c) == b * (a * c);
  }

  /** The clamped shared denominator. */
  function MixDen(g: real, eps: real, linDen: real, smDen: real): real {
    Max(Times(g, Max(smDen, eps)) + Max(linDen, eps), eps)
  }

  lemma MixWithin(m: real, g: real, eps: real, linNum: real, linDen: real, smNum: real, smDen: real)
    requires m >= 0.0 && g >= 0.0 && eps > 0.0
    requires Within(linNum, Times(m, linDen)) && Within(smNum, Times(m, smDen))
    ensures MixDen(g, eps, linDen, smDen) > 0.0
    ensures Within(Times(g, smNum) + linNum, Times(m, MixDen(g, eps, linDen, smDen)))
  {
    hide Times;
    ScaleWithin(g, smNum, Times(m, smDen));
    Swap(g, m, smDen);
    ScaleLe(g, smDen, Max(smDen, eps));
    Distribute(m, Times(g, smDen), linDen);
    ScaleLe(m, Times(g, smDen) + linDen, MixDen(g, eps, linDen, smDen));
  }

  /** Every output coordinate is at most m in magnitude. */
  lemma OutputWithin(h: Head, st: State, blk: seq<Entry>, q: Vec, m: real, d: nat)
    requires HeadOk(h) && m >= 0.0 && StateWithin(h, st, m) && ValuesWithin(blk, m) && |blk| > 0 && d < h.dim
    ensures |Row(h, st, blk, q)| == h.dim && Within(Row(h, st, blk, q)[d], m)
  {
    match h.kind
    case Hybrid(_) => HybridWithin(h, st, blk, q, m, d);
    case Linear =>
      UpdateWithin(h, st, blk, m);
      LinearWithin(h, Update(h, st, blk), q, m, d);
  }

  /** Over a whole pass: from a bounded state every output coordinate is at most m in magnitude. */
  lemma ForwardWithin(h: Head, st: State, es: seq<Entry>, m: real, i: nat, d: nat)
    requires HeadOk(h) && h.blockSize > 0 && m >= 0.0 && StateWithin(h, st, m) && ValuesWithin(es, m)
    requires i < |es| && d < h.dim
    ensures |Forward(h, st, es)[i]| == h.dim && Within(Forward(h, st, es)[i][d], m)
  {
    hide StateWithin, ValuesWithin, Row, Pad, BlockStart, Whole, Blocks, RunState, Within, Forward;
    var padded, lo := Pad(h, es), BlockStart(i, h.blockSize);
    ForwardAt(h, st, es, i);
    PadWithinValues(h, es, m);
    SliceWithinValues(padded, 0, lo, m);
    SliceWithinValues(padded, lo, lo + h.blockSize, m);
    assert padded[0..lo] == padded[..lo];
    BlocksWithin(h.blockSize, padded[..lo], m);
    ReachableWithin(h, st, Blocks(h.blockSize, padded[..lo]), m);
    OutputWithin(h, StateTo(h, st, padded, lo), padded[lo..lo + h.blockSize], es[i].q, m, d);
  }

  /** `forward` without an initial state. */
  lemma FreshForwardWithin(h: Head, es: seq<Entry>, m: real, i: nat, d: nat)
    requires HeadOk(h) && h.blockSize > 0 && m >= 0.0 && ValuesWithin(es, m) && i < |es| && d < h.dim
    ensures |Forward(h, ZeroState(h), es)[i]| == h.dim && Within(Forward(h, ZeroState(h), es)[i][d], m)
  {
    ZeroWithin(h, m);
    ForwardWithin(h, ZeroState(h), es, m, i, d);
  }

  lemma HybridWithin(h: Head, st: State, blk: seq<Entry>, q: Vec, m: real, d: nat)
    requires HeadOk(h) && h.kind.Hybrid?
    requires m >= 0.0 && StateWithin(h, st, m) && ValuesWithin(blk, m) && |blk| > 0 && d < h.dim
    ensures |HybridRow(h, h.kind.gate, st, blk, q)| == h.dim && Within(HybridRow(h, h.kind.gate, st, blk, q)[d], m)
  {
    hide Phi, StateWithin, ValuesWithin, Features, Values, Scores, FilledWeights, Dot, Times, Sum;
    var g, a := h.kind.gate, FilledWeights(h.exp, Scores(h, q, blk));
    var linNum, linDen := Dot(Phi(h, q), Col(st.s, d)), Dot(Phi(h, q), st.z);
    var smNum := Dot(a, Col(Values(h, blk), d));
    ReadoutWithin(h, st, q, m, d);
    ScoresLength(h, q, blk);
    FilledWeightsMass(h.exp, Scores(h, q, blk));
    WeightedWithin(h, a, blk, m, d);
    MixWithin(m, g, h.eps, linNum, linDen, smNum, Sum(a));
    QuotientWithin(Times(g, smNum) + linNum, MixDen(g, h.eps, linDen, Sum(a)), m);
    MixAt(h, g, VecMat(Phi(h, q), st.s, h.dim), linDen, VecMat(a, Values(h, blk), h.dim), Sum(a), d);
  }

  lemma MixAt(h: Head, g: real, linNum: Vec, linDen: real, smNum: Vec, smDen: real, d: nat)
    requires d < |linNum| == |smNum|
    ensures |Mix(h.eps, g, linNum, linDen, smNum, smDen)| == |smNum|
    ensures Mix(h.eps, g, linNum, linDen, smNum, smDen)[d] ==
      Ratio(Times(g, smNum[d]) + linNum[d], MixDen(g, h.eps, linDen, smDen))
  {}

  lemma LinearWithin(h: Head, st: State, q: Vec, m: real, d: nat)
    requires HeadOk(h) && m >= 0.0 && StateWithin(h, st, m) && d < h.dim
    ensures |LinearRow(h, st, q)| == h.dim && Within(LinearRow(h, st, q)[d], m)
  {
    hide Phi, StateWithin, Dot, Times;
    var den := Max(Dot(Phi(h, q), st.z), h.eps);
    ReadoutWithin(h, st, q, m, d);
    ScaleLe(m, Dot(Phi(h, q), st.z), den);
    QuotientWithin(Dot(Phi(h, q), Col(st.s, d)), den, m);
  }

  lemma ScoresLength(h: Head, q: Vec, blk: seq<Entry>)
    ensures |Scores(h, q, blk)| == |blk| && |FilledWeights(h.exp, Scores(h, q, blk))| == |blk|
  {}

  // ----- the first block -----

  /** Exact softmax attention over one block. */
  function SoftmaxRow(h: Head, blk: seq<Entry>, q: Vec): (r: Vec)
    ensures |r| == h.dim
  {
    VecMat(SoftmaxOf(h.exp, Scores(h, q, blk)), Values(h, blk), h.dim)
  }

  lemma GapIdentity(n: real, x: real, s: real, g: real, eps: real)
    requires x * s == n && Times(g, s) + eps > 0.0
    ensures (Ratio(Times(g, n), Times(g, s) + eps) - x) * (Times(g, s) + eps) == -Times(eps, x)
  {
    var den := g * s + eps;
    var r := g * n / den;
    assert r * den == g * n;
    assert (r - x) * den == r * den - x * den;
    assert x * den == g * (x * s) + x * eps;
  }

  lemma GapCore(gap: real, den: real, top: real, bound: real, low: real, cap: real)
    requires 0.0 < low <= den && bound >= 0.0
    requires gap * den == -top && bound * low == cap && Within(top, cap)
    ensures Within(gap, bound)
  {
    ScaleLe(bound, low, den);
    CancelWithin(gap, bound, den);
  }

  /** Dividing by g * s + eps instead of g * s moves the quotient x = n / s by at most m * eps / (g + eps). */
  lemma GapBound(n: real, x: real, s: real, g: real, eps: real, m: real)
    requires g >= 0.0 && eps > 0.0 && s >= 1.0 && Within(x, m) && x * s == n
    ensures Within(Ratio(Times(g, n), Times(g, s) + eps) - x, Ratio(Times(m, eps), g + eps))
  {
    hide Times, Ratio;
    assert g <= Times(g, s) by { ScaleLe(g, 1.0, s); TimesOne(g); }
    GapIdentity(n, x, s, g, eps);
    ScaleWithin(eps, x, m);
    BoundShape(m, g, eps);
    GapCore(Ratio(Times(g, n), Times(g, s) + eps) - x, Times(g, s) + eps, Times(eps, x),
            Ratio(Times(m, eps), g + eps), g + eps, Times(eps, m));
  }

  lemma BoundShape(m: real, g: real, eps: real)
    requires m >= 0.0 && g >= 0.0 && eps > 0.0
    ensures Ratio(Times(m, eps), g + eps) >= 0.0 && Ratio(Times(m, eps), g + eps) * (g + eps) == Times(eps, m)
  {}

  lemma TimesOne(g: real)
    ensures Times(g, 1.0) == g
  {}

  lemma Reciprocal(c: real, d: real, s: real)
    requires c * s == 1.0
    ensures c * d * s == d
  {
    assert c * d * s == d * (c * s);
  }

  lemma NormalizeScales(w: Vec)
    requires Sum(w) > 0.0
    ensures Normalize(w) == Scale(1.0 / Sum(w), w)
  {
    hide Sum;
    forall i | 0 <= i < |w| ensures Ratio(w[i], Sum(w)) == Times(1.0 / Sum(w), w[i]) {}
  }

  lemma SoftmaxRowAt(h: Head, blk: seq<Entry>, q: Vec, d: nat)
    requires IsExp(h.exp) && AnyFinite(Scores(h, q, blk)) && d < h.dim
    ensures var a := Weights(h.exp, Scores(h, q, blk));
            && Sum(a) >= 1.0
            && SoftmaxRow(h, blk, q)[d] * Sum(a) == Dot(a, Col(Values(h, blk), d))
  {
    hide Scores, Values, Weights, IsExp, Normalize, Scale, Sum, Dot;
    var a, v := Weights(h.exp, Scores(h, q, blk)), Col(Values(h, blk), d);
    WeightsMass(h.exp, Scores(h, q, blk));
    var c := 1.0 / Sum(a);
    NormalizeScales(a);
    DotScaleLeft(c, a, v);
    Reciprocal(c, Dot(a, v), Sum(a));
  }

  lemma {:induction false} DotScaleLeft(c: real, a: Vec, b: Vec)
    ensures Dot(Scale(c, a), b) == c * Dot(a, b)
  {
    if |a| > 0 && |b| > 0 {
      assert Scale(c, a)[1..] == Scale(c, a[1..]);
      DotScaleLeft(c, a[1..], b[1..]);
      assert (c * a[0]) * b[0] == c * (a[0] * b[0]);
      assert c * Dot(a, b) == c * (a[0] * b[0]) + c * Dot(a[1..], b[1..]);
    }
  }

  /**
   From the zero state the hybrid output of a block with a valid key differs from exact softmax by at
   most m * eps / (gate + eps), since the largest score keeps the partition function at 1 or more.
   */
  lemma FirstBlockIsSoftmax(h: Head, blk: seq<Entry>, q: Vec, m: real, d: nat)
    requires HeadOk(h) && h.kind.Hybrid? && h.eps <= 1.0 && m >= 0.0 && ValuesWithin(blk, m) && d < h.dim
    requires exists j :: 0 <= j < |blk| && blk[j].valid
    ensures Within(Row(h, ZeroState(h), blk, q)[d] - SoftmaxRow(h, blk, q)[d],
      Ratio(Times(m, h.eps), h.kind.gate + h.eps))
  {
    hide ValuesWithin, Values, Dot, Times, Sum, SoftmaxRow, Weights, Row;
    var s := Scores(h, q, blk);
    var j :| 0 <= j < |blk| && blk[j].valid;
    assert s[j].Fin?;
    var x := SoftmaxRow(h, blk, q)[d];
    SoftmaxRowAt(h, blk, q, d);
    FirstQuotient(h, blk, q, m, d, x);
    GapBound(Dot(Weights(h.exp, s), Col(Values(h, blk), d)), x, Sum(Weights(h.exp, s)), h.kind.gate, h.eps, m);
    FirstRow(h, blk, q, d);
  }

  /** The positions of the first block. */
  function FirstBlock(h: Head, es: seq<Entry>): seq<Entry> {
    if |es| < h.blockSize then es else es[..h.blockSize]
  }

  /** `forward` on the first block of a sequence: every output is exact softmax over that block, up to this error. */
  lemma FirstOutputsAreSoftmax(h: Head, es: seq<Entry>, i: nat, m: real, d: nat)
    requires HeadOk(h) && h.kind.Hybrid? && h.eps <= 1.0 && m >= 0.0 && ValuesWithin(es, m) && d < h.dim
    requires i < |es| && i < h.blockSize && exists j :: 0 <= j < |FirstBlock(h, es)| && FirstBlock(h, es)[j].valid
    ensures |Forward(h, ZeroState(h), es)[i]| == h.dim
    ensures Within(Forward(h, ZeroState(h), es)[i][d] - SoftmaxRow(h, FirstBlock(h, es), es[i].q)[d],
                   Ratio(Times(m, h.eps), h.kind.gate + h.eps))
  {
    hide Forward, Row, SoftmaxRow, StateTo, Times, Ratio, PadLength;
    var blk, padded := FirstBlock(h, es), Pad(h, es);
    ForwardAt(h, ZeroState(h), es, i);
    StartsAtZero(i, h.blockSize);
    EmptyRun(h, ZeroState(h), padded);
    var n := h.blockSize - |blk|;
    assert padded[..h.blockSize] == blk + Padding(h, n);
    SoftmaxPadded(h, blk, n, es[i].q);
    var j :| 0 <= j < |blk| && blk[j].valid;
    assert (blk + Padding(h, n))[j].valid;
    FirstBlockIsSoftmax(h, blk + Padding(h, n), es[i].q, m, d);
    RowLength(h, ZeroState(h), blk + Padding(h, n), es[i].q);
  }

  lemma StartsAtZero(i: nat, size: pos)
    requires i < size
    ensures BlockStart(i, size) == 0
  {
    RemainderUnique(i, 0, i, size);
  }

  lemma RowLength(h: Head, st: State, blk: seq<Entry>, q: Vec)
    ensures |Row(h, st, blk, q)| == h.dim
  {}

  /** Padding positions are masked keys and carry no weight. */
  lemma SoftmaxPadded(h: Head, blk: seq<Entry>, n: nat, q: Vec)
    ensures SoftmaxRow(h, blk + Padding(h, n), q) == SoftmaxRow(h, blk, q)
  {
    var more := Padding(h, n);
    assert Scores(h, q, blk + more) == Scores(h, q, blk) + MaskedRow(n);
    assert Values(h, blk + more) == Values(h, blk) + Values(h, more);
    Layers.AttendMaskedTail(h.exp, Scores(h, q, blk), Values(h, blk), Values(h, more), h.dim);
  }

  lemma FirstRow(h: Head, blk: seq<Entry>, q: Vec, d: nat)
    requires HeadOk(h) && h.kind.Hybrid? && h.eps <= 1.0 && d < h.dim && AnyFinite(Scores(h, q, blk))
    ensures var a := Weights(h.exp, Scores(h, q, blk));
            && |Row(h, ZeroState(h), blk, q)| == h.dim
            && Row(h, ZeroState(h), blk, q)[d]
                == Ratio(Times(h.kind.gate, Dot(a, Col(Values(h, blk), d))), Times(h.kind.gate, Sum(a)) + h.eps)
  {
    hide Phi, Values, Dot, Sum, Weights, Times, Scores;
    var g, a, zero := h.kind.gate, Weights(h.exp, Scores(h, q, blk)), ZeroState(h);
    WeightsMass(h.exp, Scores(h, q, blk));
    ZeroReadouts(h, q, d);
    assert Times(g, Sum(a)) >= 0.0 by { ScaleLe(g, 0.0, Sum(a)); TimesZero(g); }
    MixAt(h, g, VecMat(Phi(h, q), zero.s, h.dim), Dot(Phi(h, q), zero.z), VecMat(a, Values(h, blk), h.dim), Sum(a), d);
  }

  lemma TimesZero(g: real)
    ensures Times(g, 0.0) == 0.0
  {}

  lemma FirstQuotient(h: Head, blk: seq<Entry>, q: Vec, m: real, d: nat, x: real)
    requires IsExp(h.exp) && m >= 0.0 && ValuesWithin(blk, m) && AnyFinite(Scores(h, q, blk)) && d < h.dim
    requires x * Sum(Weights(h.exp, Scores(h, q, blk))) ==
      Dot(Weights(h.exp, Scores(h, q, blk)), Col(Values(h, blk), d))
    ensures Within(x, m)
  {
    hide ValuesWithin, Values, Dot, Sum;
    var a := Weights(h.exp, Scores(h, q, blk));
    ScoresLength(h, q, blk);
    WeightsMass(h.exp, Scores(h, q, blk));
    WeightedWithin(h, a, blk, m, d);
    CancelWithin(x, m, Sum(a));
  }

  lemma ZeroReadouts(h: Head, q: Vec, d: nat)
    requires d < h.dim
    ensures Dot(Phi(h, q), Col(ZeroState(h).s, d)) == 0.0 && Dot(Phi(h, q), ZeroState(h).z) == 0.0
  {
    DotZeroRight(Phi(h, q), Col(ZeroState(h).s, d));
    DotZeroRight(Phi(h, q), ZeroState(h).z);
  }
}
