/**
 A softmax layer that reads one position: with level scores every query gets the average of the values, and only
 the position read carries one.
 */
module Probe {
  import opened Vectors
  import opened Softmax
  import opened BlockMath
  import opened Layers

  function ReadQkv(h: Vec, p: nat, at: nat): Qkv {
    Qkv([[0.0]], [[0.0]], [[if p == at then At(h, 0) else 0.0]])
  }

  function ReadLayer(exp: real -> real, at: nat): Layer {
    Layer((h: Vec, p: nat) => ReadQkv(h, p, at), 1, SoftmaxAttn(exp, 1.0, 1, 1), (_, outs) => Pick(outs, 0))
  }

  function Level(n: nat): (s: seq<Score>)
    ensures |s| == n
  {
    seq(n, _ => Fin(0.0))
  }

  /** The weight of each of n equal scores. */
  function Share(exp: real -> real, n: pos): real {
    At(SoftmaxOf(exp, Level(n)), 0)
  }

  function Even(c: real, n: nat): (r: Vec)
    ensures |r| == n
  {
    seq(n, _ => c)
  }

  lemma LevelWeights(exp: real -> real, n: pos)
    requires IsExp(exp)
    ensures Weights(exp, Level(n)) == Even(1.0, n)
  {
    assert Level(n)[0].Fin?;
    RowMaxIsMax(Level(n));
  }

  lemma ShareEven(exp: real -> real, n: pos)
    requires IsExp(exp)
    ensures SoftmaxOf(exp, Level(n)) == Even(Share(exp, n), n) && Share(exp, n) > 0.0
  {
    hide Weights, Sum, IsExp;
    var w := Weights(exp, Level(n));
    LevelWeights(exp, n);
    assert Level(n)[0].Fin?;
    WeightsMass(exp, Level(n));
    assert Sum(w) > 0.0;
    SharePositive(Sum(w));
  }

  lemma SharePositive(s: real)
    requires s > 0.0
    ensures Ratio(1.0, s) > 0.0
  {
    assert (1.0 / s) * s == 1.0;
  }

  /** Equal weights on a column with one entry that is not zero. */
  lemma {:induction false} DotSpike(c: real, col: Vec, at: nat)
    requires at < |col| && forall j :: 0 <= j < |col| && j != at ==> col[j] == 0.0
    ensures Dot(Even(c, |col|), col) == c * col[at]
  {
    var w := Even(c, |col|);
    assert w[1..] == Even(c, |col| - 1);
    if at == 0 {
      DotZeroRight(w[1..], col[1..]);
    } else {
      DotSpike(c, col[1..], at - 1);
    }
  }

  lemma ReadAttend(exp: real -> real, values: seq<Vec>, at: nat, x: real)
    requires IsExp(exp) && at < |values|
    requires forall j :: 0 <= j < |values| ==> values[j] == [if j == at then x else 0.0]
    ensures Attend(exp, Level(|values|), values, 1) == [Times(Share(exp, |values|), x)]
  {
    hide IsExp, SoftmaxOf, Dot;
    var n: pos, col := |values|, Col(values, 0);
    ShareEven(exp, n);
    assert |col| == n && col[at] == x;
    DotSpike(Share(exp, n), col, at);
    var r := Attend(exp, Level(n), values, 1);
    assert |r| == 1 && r[0] == Dot(Even(Share(exp, n), n), col) == Times(Share(exp, n), x);
  }

  lemma LevelScores(keys: seq<Vec>)
    requires forall j :: 0 <= j < |keys| ==> keys[j] == [0.0]
    ensures OpenScores(1.0, [0.0], keys) == Level(|keys|)
  {
    assert Dot([0.0], [0.0]) == 0.0;
  }

  lemma ReadFinish(exp: real -> real, at: nat, hs: seq<Vec>, outs: seq<seq<Vec>>, i: nat)
    requires |outs| == 1 && |outs[0]| == |hs| && i < |hs|
    ensures Finish(ReadLayer(exp, at), hs, outs)[i] == outs[0][i]
  {
    assert Gather(outs, i)[0] == outs[0][i];
  }

  /** Recomputed over n + 1 blocks, the layer hands every position of the last block the value read. */
  lemma ReadOut(exp: real -> real, at: nat, hs: seq<Vec>, bl: pos, n: nat, lv: bool, i: nat)
    requires IsExp(exp) && |hs| == Span(n + 1, bl) && Span(n, bl) <= i < |hs|
    ensures LayerOut(ReadLayer(exp, at), hs, bl, lv)[i]
         == [Times(Share(exp, |hs|), if at < |hs| then At(hs[at], 0) else 0.0)]
  {
    hide IsExp, Attend, BlockScores, OpenScores, Finish, Shared, KeysOf, ValuesOf, AttnHead;
    var l := ReadLayer(exp, at);
    var ps := Project(l, hs, 0);
    var ks, vs := Shared(KeysOf(ps), 1, 0), Shared(ValuesOf(ps), 1, 0);
    SpanWhole(n, bl);
    SoftmaxHeadAt(l, ps, bl, lv, 0, i);
    ReadShared(exp, at, hs, 0);
    LastScores(1.0, [0.0], ks, Span(n, bl), i, bl);
    LevelScores(ks);
    ReadAttend(exp, vs, if at < |hs| then at else 0, if at < |hs| then At(hs[at], 0) else 0.0);
    ReadFinish(exp, at, hs, AttnHeads(l, ps, bl, lv), i);
  }

  lemma ReadShared(exp: real -> real, at: nat, hs: seq<Vec>, start: nat)
    ensures var ps := Project(ReadLayer(exp, at), hs, start);
            && (forall j :: 0 <= j < |hs| ==> Shared(KeysOf(ps), 1, 0)[j] == [0.0])
            && (forall j :: 0 <= j < |hs| ==>
                  Shared(ValuesOf(ps), 1, 0)[j] == [if start + j == at then At(hs[j], 0) else 0.0])
            && (forall j :: 0 <= j < |hs| ==> Pick(ps[j].q, 0) == [0.0])
  {}

  /** A cache of this layer in which no position carries a value. */
  ghost predicate Silent(s: Slot) {
    && s.Kv? && |s.keys| == |s.values|
    && (forall j :: 0 <= j < |s.keys| ==> s.keys[j] == [[0.0]])
    && (forall j :: 0 <= j < |s.values| ==> s.values[j] == [[0.0]])
  }

  /** The block adds no value: it does not hold the position read, or holds a zero there. */
  ghost predicate Quiet(at: nat, hs: seq<Vec>, start: nat) {
    forall j :: 0 <= j < |hs| && start + j == at ==> At(hs[j], 0) == 0.0
  }

  lemma QuietCommit(exp: real -> real, at: nat, s: Slot, hs: seq<Vec>, start: nat)
    requires Silent(s) && Quiet(at, hs, start)
    ensures Silent(Commit(ReadLayer(exp, at), s, hs, start))
  {}

  /** From a silent cache a quiet block reads zero. */
  lemma QuietOut(exp: real -> real, at: nat, s: Slot, hs: seq<Vec>, start: nat, i: nat)
    requires IsExp(exp) && Silent(s) && Quiet(at, hs, start) && i < |hs|
    ensures CachedOut(ReadLayer(exp, at), s, hs, start)[i] == [0.0]
  {
    hide IsExp, Attend, OpenScores, Finish;
    var l := ReadLayer(exp, at);
    var ps := Project(l, hs, start);
    var ks, vs := Shared(s.keys + KeysOf(ps), 1, 0), Shared(s.values + ValuesOf(ps), 1, 0);
    LevelScores(ks);
    ReadAttend(exp, vs, 0, 0.0);
    assert CachedHead(l, s, ps, 0)[i] == Attend(exp, OpenScores(1.0, [0.0], ks), vs, 1);
    ReadFinish(exp, at, hs, CachedHeads(l, s, ps), i);
  }
}
