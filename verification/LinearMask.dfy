/**
 Pure-linear heads and the generator's attention mask. On a one-block window such a head infers that no key is
 valid; the cached pass gets no mask and uses every key.
 */
module LinearMask {
  import opened Wrappers
  import opened Vectors
  import opened Softmax
  import opened BlockMath
  import opened AttentionMask
  import opened BlockAttention
  import opened AttentionForward
  import opened Layers
  import opened KernelMath

  lemma ZeroReadout(h: Head, q: Vec)
    requires h.kind.Linear?
    ensures LinearRow(h, ZeroState(h), q) == Zeros(h.dim)
  {
    var phi, st := Phi(h, q), ZeroState(h);
    forall c | 0 <= c < h.dim ensures Dot(phi, Col(st.s, c)) == 0.0 {
      DotZeroRight(phi, Col(st.s, c));
    }
  }

  lemma {:induction false} MaskedRunOut(h: Head, es: seq<Entry>, i: nat)
    requires h.kind.Linear? && h.blockSize > 0 && Whole(|es|, h.blockSize) && i < |es|
    requires forall j :: 0 <= j < |es| ==> !es[j].valid
    ensures i < |RunOut(h, ZeroState(h), Blocks(h.blockSize, es))|
    ensures RunOut(h, ZeroState(h), Blocks(h.blockSize, es))[i] == Zeros(h.dim)
    decreases |es|
  {
    hide LinearRow, Update, Blocks;
    var zero, cut := ZeroState(h), |es| - h.blockSize;
    LastStep(h, zero, es);
    MaskedRun(h, zero, es[..cut]);
    BlocksTotal(h.blockSize, es[..cut]);
    RunOutLength(h, zero, Blocks(h.blockSize, es[..cut]));
    if i < cut {
      MaskedRunOut(h, es[..cut], i);
    } else {
      MaskedBlockUpdate(h, zero, es[cut..]);
      ZeroReadout(h, es[i].q);
    }
  }

  /** Whatever its input, a pure-linear head recomputed over a one-block window outputs zero. */
  lemma PureLinearBlind(l: Layer, ps: seq<Qkv>, bl: pos, h: nat, i: nat)
    requires LayerOk(l) && l.attn.RecurrentAttn? && h < NumHeads(l.attn) && l.attn.heads[h].kind.Linear? && i < |ps|
    ensures AttnHead(l, ps, bl, false, h)[i] == Zeros(l.attn.heads[h].dim)
  {
    var head := l.attn.heads[h];
    MaskedRunOut(head, Pad(head, HeadEntries(ps, l.groups, h, false)), i);
  }

  /** What LinearForward makes of the generator's mask over n + 1 blocks: every key valid, or none. */
  lemma GeneratorEntries(q: seq<Vec>, k: seq<Vec>, v: seq<Vec>, bl: pos, n: nat, batch: nat, b: nat, len: nat)
    requires |q| == |k| == |v| == Span(n + 1, bl) <= len && b < batch
    ensures Entries(q, k, v, KeyMask(None, Some(GeneratorMask(bl, n + 1, batch)), b, len))
         == seq(|q|, i requires 0 <= i < |q| => Entry(q[i], k[i], v[i], n > 0))
  {
    hide GeneratorMask, Attended, Span;
    var mask := KeyMask(None, Some(GeneratorMask(bl, n + 1, batch)), b, len);
    forall i: nat | i < |q| ensures MaskAt(mask, i) == (n > 0) {
      GeneratorKeys(bl, n, batch, b, len, i);
    }
  }

  // ----- a layer that is 1 with the cache and 0 without -----

  function UnitHead(exp: real -> real, bl: pos): Head {
    Head(exp, [[1.0]], 1, 1, 1.0, 0.000001, bl, Linear)
  }

  function UnitQkv(): Qkv { Qkv([[1.0]], [[1.0]], [[1.0]]) }

  function UnitLayer(exp: real -> real, bl: pos): Layer {
    Layer((_, _) => UnitQkv(), 1, RecurrentAttn([UnitHead(exp, bl)]), (_, outs) => Pick(outs, 0))
  }

  function Constant(v: Vec, n: nat): seq<Vec> { seq(n, _ => v) }

  lemma UnitSoftmax(exp: real -> real, x: real)
    requires IsExp(exp)
    ensures SoftmaxOf(exp, [Fin(x)]) == [1.0]
  {
    var s := [Fin(x)];
    assert s[..0] == [];
    assert RowMax(s) == x;
    assert Weights(exp, s) == [1.0];
    assert [1.0][..0] == [];
    assert Sum([1.0]) == 1.0;
    assert SoftmaxOf(exp, s) == Normalize([1.0]) == [1.0];
  }

  lemma UnitPhi(exp: real -> real, bl: pos)
    requires IsExp(exp)
    ensures Phi(UnitHead(exp, bl), [1.0]) == [1.0, 1.0]
  {
    hide SoftmaxOf, IsExp;
    var u := VecMat([1.0], [[1.0]], 1);
    assert FiniteRow(u) == [Fin(u[0])];
    assert FiniteRow(Scale(-1.0, u)) == [Fin(Times(-1.0, u[0]))];
    UnitSoftmax(exp, u[0]);
    UnitSoftmax(exp, Times(-1.0, u[0]));
  }

  function UnitEntries(n: nat): seq<Entry> { seq(n, _ => Entry([1.0], [1.0], [1.0], true)) }

  lemma UnitWeights(exp: real -> real, bl: pos)
    requires IsExp(exp)
    ensures var c := KernelWeights(UnitHead(exp, bl), [1.0], UnitEntries(bl));
            |c| == bl && (forall i :: 0 <= i < bl ==> c[i] == 2.0) && Sum(c) == 2.0 * bl as real
  {
    hide Phi, IsExp;
    UnitPhi(exp, bl);
    assert [1.0, 1.0][1..] == [1.0];
    assert Dot([1.0], [1.0]) == 1.0;
    assert Dot([1.0, 1.0], [1.0, 1.0]) == 2.0;
    ConstantSum(KernelWeights(UnitHead(exp, bl), [1.0], UnitEntries(bl)), 2.0);
  }

  lemma UnitAverage(exp: real -> real, bl: pos)
    requires IsExp(exp)
    ensures QuadraticRow(UnitHead(exp, bl), [], UnitEntries(bl), [1.0]) == [1.0]
  {
    hide KernelWeights, Dot, Sum, IsExp;
    var h, es := UnitHead(exp, bl), UnitEntries(bl);
    var c, v := KernelWeights(h, [1.0], es), Values(h, es);
    UnitWeights(exp, bl);
    assert [] + es == es;
    assert Col(v, 0) == Ones(bl);
    DotOnes(c);
    assert VecMat(c, v, 1) == [Sum(c)];
    assert bl as real >= 1.0;
    SelfQuotient(Sum(c));
  }

  lemma SelfQuotient(s: real)
    requires s > 0.0
    ensures Quotient([s], s) == [1.0]
  {
    assert s / s == 1.0;
  }

  lemma UnitForward(exp: real -> real, bl: pos)
    requires IsExp(exp)
    ensures Forward(UnitHead(exp, bl), ZeroState(UnitHead(exp, bl)), UnitEntries(bl)) == Constant([1.0], bl)
  {
    hide Row, QuadraticRow, Forward, IsExp, Pad;
    var h, es := UnitHead(exp, bl), UnitEntries(bl);
    assert Whole(bl, bl) by { TwoBlocksWhole(bl); }
    PadWhole(h, es);
    LastBlockForward(h, ZeroState(h), es);
    SummaryEmpty(h);
    RowIsQuadratic(h, [], es, [1.0]);
    UnitAverage(exp, bl);
  }

  lemma TwoBlocksWhole(bl: pos)
    ensures Whole(bl, bl)
  {}

  lemma UnitProjected(exp: real -> real, bl: pos, hs: seq<Vec>)
    ensures Project(UnitLayer(exp, bl), hs, 0) == seq(|hs|, _ => UnitQkv())
    ensures HeadEntries(Project(UnitLayer(exp, bl), hs, 0), 1, 0, true) == UnitEntries(|hs|)
  {}

  lemma FinishOne(exp: real -> real, bl: pos, hs: seq<Vec>, outs: seq<seq<Vec>>, v: Vec)
    requires |outs| == 1 && outs[0] == Constant(v, |hs|)
    ensures Finish(UnitLayer(exp, bl), hs, outs) == Constant(v, |hs|)
  {
    forall i: nat | i < |hs| ensures Gather(outs, i) == [v] {}
  }

  /** Whatever the hidden states of a first block are: 1 everywhere with the cache, 0 everywhere recomputed. */
  lemma CachedPureLinearDiffers(exp: real -> real, bl: pos, hs: seq<Vec>)
    requires IsExp(exp) && |hs| == bl
    ensures LayerOk(UnitLayer(exp, bl))
    ensures CachedOut(UnitLayer(exp, bl), EmptySlot(UnitLayer(exp, bl)), hs, 0) == Constant([1.0], bl)
    ensures LayerOut(UnitLayer(exp, bl), hs, bl, LinearKeys(bl, 0)) == Constant([0.0], bl)
  {
    UnitCached(exp, bl, hs);
    UnitRecomputed(exp, bl, hs);
    LinearKeysIff(bl, 0);
  }

  lemma UnitCached(exp: real -> real, bl: pos, hs: seq<Vec>)
    requires IsExp(exp) && |hs| == bl
    ensures CachedOut(UnitLayer(exp, bl), EmptySlot(UnitLayer(exp, bl)), hs, 0) == Constant([1.0], bl)
  {
    hide Forward, Finish, IsExp, HeadEntries;
    var l := UnitLayer(exp, bl);
    UnitProjected(exp, bl, hs);
    UnitForward(exp, bl);
    FinishOne(exp, bl, hs, CachedHeads(l, EmptySlot(l), Project(l, hs, 0)), [1.0]);
  }

  lemma UnitRecomputed(exp: real -> real, bl: pos, hs: seq<Vec>)
    requires |hs| == bl
    ensures LayerOut(UnitLayer(exp, bl), hs, bl, false) == Constant([0.0], bl)
  {
    hide AttnHead, Finish;
    var l := UnitLayer(exp, bl);
    var ps := Project(l, hs, 0);
    forall i: nat | i < bl ensures AttnHead(l, ps, bl, false, 0)[i] == [0.0] {
      PureLinearBlind(l, ps, bl, 0, i);
      assert Zeros(1) == [0.0];
    }
    assert AttnHead(l, ps, bl, false, 0) == Constant([0.0], bl);
    FinishOne(exp, bl, hs, AttnHeads(l, ps, bl, false), [0.0]);
  }
}
