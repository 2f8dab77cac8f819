/**
 A two-layer model that shows where attention blocks are cut. Its hybrid layer weighs a key by 1/2 inside its own
 attention block and by 2 before it; a softmax layer hands the result at one position to all later ones.
 */
module SkewModel {
  import opened Vectors
  import opened Softmax
  import opened BlockMath
  import opened BlockAttention
  import opened AttentionForward
  import opened Layers
  import opened LinearMask
  import opened Probe

  // ----- a hybrid head over level scores -----

  function MixHead(exp: real -> real, size: pos): Head {
    Head(exp, [[1.0]], 1, 1, 1.0, 0.000001, size, Hybrid(0.5))
  }

  /** The last key of the first block weighs 1 and the first key of the second block -4. */
  function MixValue(p: nat, bl: pos): real {
    if p + 1 == bl then 1.0 else if p == bl then -4.0 else 0.0
  }

  function MixEntries(bl: pos, start: nat, n: nat): (es: seq<Entry>)
    ensures |es| == n
  {
    seq(n, j requires 0 <= j => Entry([0.0], [0.0], [MixValue(start + j, bl)], true))
  }

  lemma MixPhi(exp: real -> real, size: pos)
    requires IsExp(exp)
    ensures Phi(MixHead(exp, size), [0.0]) == [1.0, 1.0] && Dot([1.0, 1.0], [1.0, 1.0]) == 2.0
  {
    hide SoftmaxOf, IsExp;
    var u := VecMat([0.0], [[1.0]], 1);
    assert FiniteRow(u) == [Fin(u[0])];
    assert FiniteRow(Scale(-1.0, u)) == [Fin(Times(-1.0, u[0]))];
    UnitSoftmax(exp, u[0]);
    UnitSoftmax(exp, Times(-1.0, u[0]));
    assert [1.0, 1.0][1..] == [1.0];
    assert Dot([1.0], [1.0]) == 1.0;
  }

  /** Positions whose key is zero, or masked. */
  ghost predicate LevelKeys(es: seq<Entry>) {
    forall j :: 0 <= j < |es| && es[j].valid ==> es[j].k == [0.0]
  }

  function Column(h: Head, es: seq<Entry>): (col: Vec)
    ensures |col| == |es|
  {
    Col(Values(h, es), 0)
  }

  lemma {:induction false} DotUniform(w: Vec, col: Vec, k: real)
    requires |w| == |col| && forall j :: 0 <= j < |w| ==> w[j] == k || col[j] == 0.0
    ensures Dot(w, col) == k * Sum(col)
  {
    if |w| > 0 {
      var n := |w| - 1;
      DotUniform(w[..n], col[..n], k);
      DotLast(w, col);
    }
  }

  lemma {:induction false} SumPair(col: Vec, i: nat, j: nat)
    requires i < |col| && j < |col| && forall m :: 0 <= m < |col| && m != i && m != j ==> col[m] == 0.0
    ensures Sum(col) == col[i] + (if i == j then 0.0 else col[j])
  {
    var n := |col| - 1;
    if i == n && j == n {
      SumNothing(col[..n]);
    } else if i == n {
      SumPair(col[..n], j, j);
    } else if j == n {
      SumPair(col[..n], i, i);
    } else {
      SumPair(col[..n], i, j);
    }
  }

  lemma {:induction false} SumNothing(col: Vec)
    requires forall m :: 0 <= m < |col| ==> col[m] == 0.0
    ensures Sum(col) == 0.0
  {
    if |col| > 0 { SumNothing(col[..|col| - 1]); }
  }

  lemma LinearPart(exp: real -> real, size: pos, prior: seq<Entry>)
    requires IsExp(exp) && LevelKeys(prior)
    ensures var h := MixHead(exp, size);
            VecMat(KernelWeights(h, [0.0], prior), Values(h, prior), 1) == [2.0 * Sum(Column(h, prior))]
  {
    hide IsExp, Phi, Sum, Dot;
    var h := MixHead(exp, size);
    var c, col := KernelWeights(h, [0.0], prior), Column(h, prior);
    MixPhi(exp, size);
    forall j | 0 <= j < |prior| ensures c[j] == 2.0 || col[j] == 0.0 {}
    DotUniform(c, col, 2.0);
    var r := VecMat(c, Values(h, prior), 1);
    assert |r| == 1 && r[0] == Dot(c, col);
  }

  lemma SoftmaxPart(exp: real -> real, size: pos, blk: seq<Entry>)
    requires IsExp(exp) && LevelKeys(blk) && exists j :: 0 <= j < |blk| && blk[j].valid
    ensures var h := MixHead(exp, size);
            VecMat(FilledWeights(h.exp, Scores(h, [0.0], blk)), Values(h, blk), 1) == [Sum(Column(h, blk))]
  {
    hide Sum, Dot;
    var h := MixHead(exp, size);
    var s, col := Scores(h, [0.0], blk), Column(h, blk);
    var j :| 0 <= j < |blk| && blk[j].valid;
    assert Dot([0.0], [0.0]) == 0.0 by { ZeroDot(); }
    assert s[j] == Fin(0.0);
    RowMaxIsMax(s);
    var a := FilledWeights(exp, s);
    forall i | 0 <= i < |blk| ensures a[i] == 1.0 || col[i] == 0.0 {}
    DotUniform(a, col, 1.0);
    var r := VecMat(a, Values(h, blk), 1);
    assert |r| == 1 && r[0] == Dot(a, col);
  }

  lemma ZeroDot()
    ensures Dot([0.0], [0.0]) == 0.0
  {}

  /** The head's output is half the values of its block plus twice the values before, over a positive number. */
  lemma MixRow(exp: real -> real, size: pos, prior: seq<Entry>, blk: seq<Entry>) returns (den: real)
    requires IsExp(exp) && LevelKeys(prior) && LevelKeys(blk) && exists j :: 0 <= j < |blk| && blk[j].valid
    ensures den > 0.0
    ensures var h := MixHead(exp, size);
            QuadraticRow(h, prior, blk, [0.0]) ==
            [Ratio(0.5 * Sum(Column(h, blk)) + 2.0 * Sum(Column(h, prior)), den)]
  {
    hide IsExp, KernelWeights, FilledWeights, Scores, Values, Sum, Column, Dot;
    var h := MixHead(exp, size);
    LinearPart(exp, size, prior);
    SoftmaxPart(exp, size, blk);
    var c, a := KernelWeights(h, [0.0], prior), FilledWeights(exp, Scores(h, [0.0], blk));
    den := Max(0.5 * Max(Sum(a), h.eps) + Max(Sum(c), h.eps), h.eps);
    assert Add(Scale(0.5, [Sum(Column(h, blk))]), [2.0 * Sum(Column(h, prior))])
        == [0.5 * Sum(Column(h, blk)) + 2.0 * Sum(Column(h, prior))];
  }

  // ----- the head over a sequence -----

  lemma PaddedColumn(exp: real -> real, size: pos, bl: pos, start: nat, n: nat, j: nat)
    requires j < |Pad(MixHead(exp, size), MixEntries(bl, start, n))|
    ensures var h := MixHead(exp, size); var es := Pad(h, MixEntries(bl, start, n));
            && (es[j].valid <==> j < n)
            && Column(h, es)[j] == if j < n then MixValue(start + j, bl) else 0.0
  {
    hide PadLength;
  }

  lemma LevelPadded(exp: real -> real, size: pos, bl: pos, start: nat, n: nat)
    ensures LevelKeys(Pad(MixHead(exp, size), MixEntries(bl, start, n)))
  {
    hide PadLength;
  }

  lemma LevelSlice(es: seq<Entry>, lo: nat, hi: nat)
    requires LevelKeys(es) && lo <= hi <= |es|
    ensures LevelKeys(es[lo..hi])
  {}

  lemma ColumnSlice(h: Head, es: seq<Entry>, lo: nat, hi: nat)
    requires lo <= hi <= |es|
    ensures Column(h, es[lo..hi]) == Column(h, es)[lo..hi]
  {}

  /** Cut at lo, at or before the last key of the first block, both keys that carry a value lie behind the cut. */
  lemma MixedSums(exp: real -> real, size: pos, bl: pos, n: nat, lo: nat)
    requires n > bl && lo < bl < lo + size <= |Pad(MixHead(exp, size), MixEntries(bl, 0, n))|
    ensures var h := MixHead(exp, size); var padded := Pad(h, MixEntries(bl, 0, n));
            && LevelKeys(padded[..lo]) && Sum(Column(h, padded[..lo])) == 0.0
            && LevelKeys(padded[lo..lo + size]) && Sum(Column(h, padded[lo..lo + size])) == -3.0
            && padded[lo..lo + size][bl - lo].valid
  {
    hide Pad, Column, Sum, LevelKeys;
    var h := MixHead(exp, size);
    var padded := Pad(h, MixEntries(bl, 0, n));
    forall j | 0 <= j < |padded|
      ensures padded[j].valid <==> j < n
      ensures Column(h, padded)[j] == if j < n then MixValue(j, bl) else 0.0
    {
      PaddedColumn(exp, size, bl, 0, n, j);
    }
    var prior, blk := padded[..lo], padded[lo..lo + size];
    LevelPadded(exp, size, bl, 0, n);
    LevelSlice(padded, 0, lo);
    LevelSlice(padded, lo, lo + size);
    ColumnSlice(h, padded, 0, lo);
    ColumnSlice(h, padded, lo, lo + size);
    SumNothing(Column(h, prior));
    SumPair(Column(h, blk), bl - 1 - lo, bl - lo);
  }

  /** Recomputed: the two keys lie in one attention block and do not cancel. */
  lemma MixedAt(exp: real -> real, size: pos, bl: pos, n: nat)
    requires IsExp(exp) && n > bl && !Whole(bl, size)
    ensures var h := MixHead(exp, size); var out := Forward(h, ZeroState(h), MixEntries(bl, 0, n));
            |out[bl]| == 1 && out[bl][0] < 0.0
  {
    hide IsExp, Pad, Forward, QuadraticRow, Whole, BlockStart, Column, Sum, Ratio, LevelKeys;
    var h, es := MixHead(exp, size), MixEntries(bl, 0, n);
    var padded, lo := Pad(h, es), BlockStart(bl, size);
    ForwardIsQuadratic(h, es, bl);
    MixedSums(exp, size, bl, n, lo);
    var den := MixRow(exp, size, padded[..lo], padded[lo..lo + size]);
    NegativeRatio(-1.5, den);
    assert Forward(h, ZeroState(h), es)[bl] == [Ratio(-1.5, den)];
  }

  lemma NegativeRatio(x: real, den: real)
    requires x < 0.0 && den > 0.0
    ensures Ratio(x, den) < 0.0
  {
    assert (x / den) * den == x;
  }

  /** With the first block in the state, the two values cancel. */
  lemma CachedMixedAt(exp: real -> real, size: pos, bl: pos)
    requires IsExp(exp)
    ensures var h := MixHead(exp, size); var st := FinalState(h, ZeroState(h), MixEntries(bl, 0, bl));
            Forward(h, st, MixEntries(bl, bl, bl))[0] == [0.0]
  {
    hide IsExp, Pad, Forward, FinalState, QuadraticRow, Whole, Column, Sum, Ratio, StateTo, Summary, Row;
    var h := MixHead(exp, size);
    var first, second := Pad(h, MixEntries(bl, 0, bl)), Pad(h, MixEntries(bl, bl, bl));
    var st := FinalState(h, ZeroState(h), MixEntries(bl, 0, bl));
    RunToEnd(h, ZeroState(h), MixEntries(bl, 0, bl));
    StateToSummary(h, first, |first|);
    assert first[..|first|] == first;
    ForwardAt(h, st, MixEntries(bl, bl, bl), 0);
    RemainderUnique(0, 0, 0, size);
    EmptyRun(h, st, second);
    var blk := second[..size];
    assert second[0..size] == blk;
    RowIsQuadratic(h, first, blk, [0.0]);
    FirstSums(exp, size, bl);
    SecondSums(exp, size, bl);
    var den := MixRow(exp, size, first, blk);
    ZeroRatio(den);
  }

  lemma ZeroRatio(den: real)
    requires den > 0.0
    ensures Ratio(0.0, den) == 0.0
  {}

  lemma FirstSums(exp: real -> real, size: pos, bl: pos)
    ensures var h := MixHead(exp, size); var first := Pad(h, MixEntries(bl, 0, bl));
            LevelKeys(first) && Sum(Column(h, first)) == 1.0
  {
    hide Pad, Column, Sum, LevelKeys;
    var h := MixHead(exp, size);
    var first := Pad(h, MixEntries(bl, 0, bl));
    forall j | 0 <= j < |first|
      ensures Column(h, first)[j] == if j < bl then MixValue(j, bl) else 0.0
    {
      PaddedColumn(exp, size, bl, 0, bl, j);
    }
    LevelPadded(exp, size, bl, 0, bl);
    SumPair(Column(h, first), bl - 1, bl - 1);
  }

  lemma SecondSums(exp: real -> real, size: pos, bl: pos)
    ensures var h := MixHead(exp, size); var second := Pad(h, MixEntries(bl, bl, bl));
            && size <= |second| && LevelKeys(second[..size]) && second[0].valid
            && Sum(Column(h, second[..size])) == -4.0
  {
    hide Pad, Column, Sum, Whole, LevelKeys;
    var h := MixHead(exp, size);
    var second := Pad(h, MixEntries(bl, bl, bl));
    assert size <= |second| by { WholeGap(0, |second|, size); WholeZero(size); }
    forall j | 0 <= j < |second|
      ensures second[j].valid <==> j < bl
      ensures Column(h, second)[j] == if j < bl then MixValue(bl + j, bl) else 0.0
    {
      PaddedColumn(exp, size, bl, bl, bl, j);
    }
    assert second[0].valid;
    LevelPadded(exp, size, bl, bl, bl);
    LevelSlice(second, 0, size);
    ColumnSlice(h, second, 0, size);
    SumPair(Column(h, second[..size]), 0, 0);
  }

  lemma WholeZero(size: pos)
    ensures Whole(0, size)
  {}

  // ----- the layers -----

  function MixLayer(exp: real -> real, size: pos, bl: pos): Layer {
    Layer((_: Vec, p: nat) => Qkv([[0.0]], [[0.0]], [[MixValue(p, bl)]]), 1, RecurrentAttn([MixHead(exp, size)]),
          (_, outs) => Pick(outs, 0))
  }

  function Skew(exp: real -> real, size: pos, bl: pos): Model {
    Model(_ => [0.0], [MixLayer(exp, size, bl), ReadLayer(exp, bl)], v => v)
  }

  lemma MixProjected(exp: real -> real, size: pos, bl: pos, hs: seq<Vec>, start: nat)
    ensures HeadEntries(Project(MixLayer(exp, size, bl), hs, start), 1, 0, true) == MixEntries(bl, start, |hs|)
  {}

  lemma MixFinish(exp: real -> real, size: pos, bl: pos, hs: seq<Vec>, outs: seq<seq<Vec>>, i: nat)
    requires |outs| == 1 && |outs[0]| == |hs| && i < |hs|
    ensures Finish(MixLayer(exp, size, bl), hs, outs)[i] == outs[0][i]
  {
    assert Gather(outs, i)[0] == outs[0][i];
  }

  lemma MixLayerAt(exp: real -> real, size: pos, bl: pos, hs: seq<Vec>, lv: bool)
    requires IsExp(exp) && |hs| > bl && !Whole(bl, size)
    ensures At(LayerOut(MixLayer(exp, size, bl), hs, bl, lv)[bl], 0) < 0.0
  {
    hide IsExp, Forward, Finish, HeadEntries, Whole, MixEntries;
    var l := MixLayer(exp, size, bl);
    MixProjected(exp, size, bl, hs, 0);
    MixedAt(exp, size, bl, |hs|);
    MixFinish(exp, size, bl, hs, AttnHeads(l, Project(l, hs, 0), bl, lv), bl);
  }

  /** What committing the first block leaves in the hybrid layer's slot. */
  function FirstState(exp: real -> real, size: pos, bl: pos): Slot {
    var h := MixHead(exp, size);
    Rec([FinalState(h, ZeroState(h), MixEntries(bl, 0, bl))])
  }

  lemma CachedMixLayerAt(exp: real -> real, size: pos, bl: pos, hs: seq<Vec>)
    requires IsExp(exp) && |hs| == bl
    ensures CachedOut(MixLayer(exp, size, bl), FirstState(exp, size, bl), hs, bl)[0] == [0.0]
  {
    hide IsExp, Forward, FinalState, Finish, HeadEntries, MixEntries;
    var l := MixLayer(exp, size, bl);
    MixProjected(exp, size, bl, hs, bl);
    CachedMixedAt(exp, size, bl);
    MixFinish(exp, size, bl, hs, CachedHeads(l, FirstState(exp, size, bl), Project(l, hs, bl)), 0);
  }

  lemma FirstCommit(exp: real -> real, size: pos, bl: pos, hs: seq<Vec>)
    requires |hs| == bl
    ensures var l := MixLayer(exp, size, bl);
            LayerOk(l) && Commit(l, EmptySlot(l), hs, 0) == FirstState(exp, size, bl)
  {
    hide FinalState, HeadEntries, MixEntries;
    MixProjected(exp, size, bl, hs, 0);
  }

  lemma SkewOk(exp: real -> real, size: pos, bl: pos)
    ensures ModelOk(Skew(exp, size, bl))
    ensures forall k :: 0 <= k < 2 ==> NoPureLinear(Skew(exp, size, bl).layers[k])
  {}

  /** The cache after n blocks: the hybrid layer's state after the first, and nothing to read. */
  ghost predicate SkewSlots(exp: real -> real, size: pos, bl: pos, n: nat, slots: seq<Slot>) {
    && SlotsFit(Skew(exp, size, bl), slots) && Silent(slots[1])
    && (n == 0 ==> slots[0] == EmptySlot(MixLayer(exp, size, bl)))
    && (n == 1 ==> slots[0] == FirstState(exp, size, bl))
  }

  /** In block n the hybrid layer hands on nothing that the softmax layer would read. */
  lemma SkewQuiet(exp: real -> real, size: pos, bl: pos, n: nat, slots: seq<Slot>, hs: seq<Vec>)
    requires IsExp(exp) && SkewSlots(exp, size, bl, n, slots) && |hs| == bl && ModelOk(Skew(exp, size, bl))
    ensures Quiet(bl, CachedHidden(Skew(exp, size, bl), slots, hs, Span(n, bl), 1), Span(n, bl))
  {
    hide IsExp, CachedOut, Silent;
    var m := Skew(exp, size, bl);
    var out := CachedHidden(m, slots, hs, Span(n, bl), 1);
    assert CachedHidden(m, slots, hs, Span(n, bl), 0) == hs;
    assert out == CachedOut(MixLayer(exp, size, bl), slots[0], hs, Span(n, bl));
    SecondSpan(n, bl);
    if n == 1 { CachedMixLayerAt(exp, size, bl, hs); }
  }

  /** Position bl is the first of block 1. */
  lemma SecondSpan(n: nat, bl: pos)
    ensures Span(0, bl) == 0 && Span(1, bl) == bl && (n >= 2 ==> Span(n, bl) > bl)
  {
    NextSpan(bl);
    if n >= 2 { SpanMonotone(2, n, bl); }
  }

  lemma NextSpan(bl: pos)
    ensures Span(0, bl) == 0 && Span(1, bl) == bl && Span(2, bl) == bl + bl
  {
    assert Span(1, bl) == Span(0, bl) + bl;
  }

  lemma {:induction false} SkewCommitted(exp: real -> real, size: pos, bl: pos, tokens: seq<Token>, n: nat)
    requires IsExp(exp) && Span(n, bl) <= |tokens| && ModelOk(Skew(exp, size, bl))
    ensures SkewSlots(exp, size, bl, n, Committed(Skew(exp, size, bl), tokens, bl, n))
  {
    hide IsExp, CachedHidden, Commit, EmptySlot, Quiet, Silent, FirstState;
    var m := Skew(exp, size, bl);
    if n == 0 {
      assert Silent(EmptySlots(m)[1]) by { NothingCached(exp, bl); }
    } else {
      var lo, slots := Span(n - 1, bl), Committed(m, tokens, bl, n - 1);
      var hs := Embed(m, tokens[lo..lo + bl]);
      SkewCommitted(exp, size, bl, tokens, n - 1);
      SkewQuiet(exp, size, bl, n - 1, slots, hs);
      QuietCommit(exp, bl, slots[1], CachedHidden(m, slots, hs, lo, 1), lo);
      assert CachedHidden(m, slots, hs, lo, 0) == hs by { NoLayer(m, slots, hs, lo); }
      FirstCommit(exp, size, bl, hs);
    }
  }

  lemma NothingCached(exp: real -> real, at: nat)
    ensures Silent(EmptySlot(ReadLayer(exp, at)))
  {}

  lemma NoLayer(m: Model, slots: seq<Slot>, hs: seq<Vec>, lo: nat)
    requires ModelOk(m) && SlotsFit(m, slots)
    ensures CachedHidden(m, slots, hs, lo, 0) == hs
  {}

  /** Cached, the logits are zero in every block. */
  lemma SkewCached(exp: real -> real, size: pos, bl: pos, window: seq<Token>, n: nat, i: nat)
    requires IsExp(exp) && |window| == Span(n + 1, bl) && i < bl && ModelOk(Skew(exp, size, bl))
    ensures LastLogits(Skew(exp, size, bl), Cached, window, bl, n)[i] == [0.0]
  {
    hide IsExp, Committed, CachedOut, Quiet, Silent, LinearKeys, Hidden;
    var m, lo := Skew(exp, size, bl), Span(n, bl);
    var slots, hs := Committed(m, window, bl, n), Embed(m, window[lo..]);
    SkewCommitted(exp, size, bl, window, n);
    SkewQuiet(exp, size, bl, n, slots, hs);
    QuietOut(exp, bl, slots[1], CachedHidden(m, slots, hs, lo, 1), lo, i);
    assert CachedHidden(m, slots, hs, lo, 2)
        == CachedOut(ReadLayer(exp, bl), slots[1], CachedHidden(m, slots, hs, lo, 1), lo);
  }

  /** Recomputed, they are zero exactly in the first block. */
  lemma SkewRecomputed(exp: real -> real, size: pos, bl: pos, window: seq<Token>, n: nat, i: nat)
    requires IsExp(exp) && |window| == Span(n + 1, bl) && i < bl && ModelOk(Skew(exp, size, bl)) && !Whole(bl, size)
    ensures var v := LastLogits(Skew(exp, size, bl), Recompute, window, bl, n)[i];
            |v| == 1 && (v == [0.0] <==> n == 0)
  {
    hide IsExp, LayerOut, LinearKeys, Share, Whole, CachedHidden, Committed;
    var m, lv, hs := Skew(exp, size, bl), LinearKeys(bl, n), Embed(Skew(exp, size, bl), window);
    var mid := LayerOut(MixLayer(exp, size, bl), hs, bl, lv);
    assert Hidden(m, hs, bl, lv, 0) == hs;
    assert Hidden(m, hs, bl, lv, 1) == mid;
    assert Hidden(m, hs, bl, lv, 2) == LayerOut(ReadLayer(exp, bl), mid, bl, lv);
    ReadOut(exp, bl, mid, bl, n, lv, Span(n, bl) + i);
    SecondSpan(n + 1, bl);
    if n > 0 {
      MixLayerAt(exp, size, bl, hs, lv);
      ShareEven(exp, |window|);
      NegativeTimes(Share(exp, |window|), At(mid[bl], 0));
    }
  }

  lemma NegativeTimes(a: real, b: real)
    requires a > 0.0 && b < 0.0
    ensures Times(a, b) < 0.0
  {}
}
