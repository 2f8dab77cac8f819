/**
 The per-request reference of the fused kernel, one head at a time: state and features are handled in a
 positive and a negative half, and a request is one block without padding.
 */
module KernelMath {
  import opened Vectors
  import opened Softmax
  import opened BlockMath
  import opened Sequences
  import opened BlockAttention
  import opened AttentionForward

  ghost predicate AllValid(es: seq<Entry>) {
    forall j :: 0 <= j < |es| ==> es[j].valid
  }

  function FirstCols(p: Mat, n: nat): Mat {
    seq(|p|, j requires 0 <= j < |p| => if n <= |p[j]| then p[j][..n] else p[j])
  }

  function LastCols(p: Mat, n: nat): Mat {
    seq(|p|, j requires 0 <= j < |p| => if n <= |p[j]| then p[j][n..] else [])
  }

  function RawValues(blk: seq<Entry>): Mat {
    seq(|blk|, j requires 0 <= j < |blk| => blk[j].v)
  }

  function KeyFeatures(h: Head, blk: seq<Entry>): (p: Mat)
    ensures IsMat(p, |blk|, 2 * h.feat)
  {
    seq(|blk|, j requires 0 <= j < |blk| => Phi(h, blk[j].k))
  }

  function RawScores(h: Head, q: Vec, blk: seq<Entry>): Vec {
    seq(|blk|, j requires 0 <= j < |blk| => Times(Dot(q, blk[j].k), h.scale))
  }

  /** One output row as the reference computes it, from the halves of the committed state. */
  function RefRow(h: Head, gate: real, st: State, blk: seq<Entry>, q: Vec): Vec
    requires Shaped(h, st)
  {
    var f, phi := h.feat, Phi(h, q);
    var linNum := Add(VecMat(phi[..f], st.s[..f], h.dim), VecMat(phi[f..], st.s[f..], h.dim));
    var linDen := Dot(phi[..f], st.z[..f]) + Dot(phi[f..], st.z[f..]);
    var a := Weights(h.exp, FiniteRow(RawScores(h, q, blk)));
    Mix(h.eps, gate, linNum, linDen, VecMat(a, RawValues(blk), h.dim), Sum(a))
  }

  /** The state the reference writes, half by half. */
  function RefUpdate(h: Head, st: State, blk: seq<Entry>): State
    requires Shaped(h, st)
  {
    var f, p, v := h.feat, KeyFeatures(h, blk), RawValues(blk);
    State(MatAdd(st.s[..f], MatTMul(FirstCols(p, f), v, f, h.dim)) +
      MatAdd(st.s[f..], MatTMul(LastCols(p, f), v, f, h.dim)),
          Add(st.z[..f], ColSums(FirstCols(p, f), f)) + Add(st.z[f..], ColSums(LastCols(p, f), f)))
  }

  lemma RefReadout(h: Head, st: State, q: Vec)
    requires Shaped(h, st)
    ensures var f, phi := h.feat, Phi(h, q);
            && Add(VecMat(phi[..f], st.s[..f], h.dim), VecMat(phi[f..], st.s[f..], h.dim)) == VecMat(phi, st.s, h.dim)
            && Dot(phi[..f], st.z[..f]) + Dot(phi[f..], st.z[f..]) == Dot(phi, st.z)
  {
    hide Phi, Dot, VecMat, Add;
    var f, phi := h.feat, Phi(h, q);
    CutRejoin(phi, f);
    CutRejoin(st.s, f);
    CutRejoin(st.z, f);
    VecMatAppend(phi[..f], phi[f..], st.s[..f], st.s[f..], h.dim);
    DotAppend(phi[..f], phi[f..], st.z[..f], st.z[f..]);
  }

  /** The reference output is the hybrid output of an unmasked block. */
  lemma RefRowIsRow(h: Head, st: State, blk: seq<Entry>, q: Vec)
    requires h.kind.Hybrid? && Shaped(h, st) && AllValid(blk) && |blk| > 0
    ensures RefRow(h, h.kind.gate, st, blk, q) == Row(h, st, blk, q)
  {
    hide Phi, Dot, VecMat, Add, Weights, Mix;
    RefReadout(h, st, q);
    assert RawValues(blk) == Values(h, blk);
    assert FiniteRow(RawScores(h, q, blk)) == Scores(h, q, blk);
    assert Scores(h, q, blk)[0].Fin?;
  }

  lemma MatTMulHalves(p: Mat, v: Mat, f: nat, dim: nat)
    requires IsMat(p, |p|, 2 * f)
    ensures MatTMul(p, v, 2 * f, dim) == MatTMul(FirstCols(p, f), v, f, dim) + MatTMul(LastCols(p, f), v, f, dim)
    ensures ColSums(p, 2 * f) == ColSums(FirstCols(p, f), f) + ColSums(LastCols(p, f), f)
  {
    hide Dot, Sum;
    forall i: nat | i < f ensures Col(p, i) == Col(FirstCols(p, f), i) && Col(p, f + i) == Col(LastCols(p, f), i) {}
    var whole, first, last := MatTMul(p, v, 2 * f, dim), MatTMul(FirstCols(p, f), v, f, dim),
      MatTMul(LastCols(p, f), v, f, dim);
    forall i | 0 <= i < f ensures whole[i] == first[i] && whole[f + i] == last[i] {
      assert Col(p, i) == Col(FirstCols(p, f), i) && Col(p, f + i) == Col(LastCols(p, f), i);
    }
    forall i | 0 <= i < f
      ensures ColSums(p, 2 * f)[i] == ColSums(FirstCols(p, f), f)[i]
      ensures ColSums(p, 2 * f)[f + i] == ColSums(LastCols(p, f), f)[i]
    {
      assert Col(p, i) == Col(FirstCols(p, f), i) && Col(p, f + i) == Col(LastCols(p, f), i);
    }
  }

  lemma AddHalves(a: Vec, b: Vec, f: nat)
    requires |a| == |b| && f <= |a|
    ensures Add(a, b) == Add(a[..f], b[..f]) + Add(a[f..], b[f..])
  {}

  lemma MatAddHalves(a: Mat, b: Mat, f: nat)
    requires |a| == |b| && f <= |a|
    ensures MatAdd(a, b) == MatAdd(a[..f], b[..f]) + MatAdd(a[f..], b[f..])
  {
    hide Add;
  }

  /** The state the reference writes is the recurrence's update. */
  lemma RefUpdateIsUpdate(h: Head, st: State, blk: seq<Entry>)
    requires Shaped(h, st) && AllValid(blk)
    ensures RefUpdate(h, st, blk) == Update(h, st, blk)
  {
    hide Phi, MatTMul, ColSums, MatAdd, Add, FirstCols, LastCols;
    var f, p, v := h.feat, KeyFeatures(h, blk), RawValues(blk);
    assert p == Features(h, blk) && v == Values(h, blk);
    MatTMulHalves(p, v, f, h.dim);
    HalfLengths(p, v, f, h.dim);
    DropAppend(MatTMul(FirstCols(p, f), v, f, h.dim), MatTMul(LastCols(p, f), v, f, h.dim));
    DropAppend(ColSums(FirstCols(p, f), f), ColSums(LastCols(p, f), f));
    MatAddHalves(st.s, MatTMul(p, v, 2 * f, h.dim), f);
    AddHalves(st.z, ColSums(p, 2 * f), f);
  }

  lemma HalfLengths(p: Mat, v: Mat, f: nat, dim: nat)
    ensures |MatTMul(FirstCols(p, f), v, f, dim)| == f && |ColSums(FirstCols(p, f), f)| == f
    ensures |MatTMul(LastCols(p, f), v, f, dim)| == f && |ColSums(LastCols(p, f), f)| == f
  {}

  // ----- an unpadded block against the padded one -----

  lemma PaddedUpdate(h: Head, st: State, blk: seq<Entry>, n: nat)
    requires Shaped(h, st)
    ensures Update(h, st, blk + Padding(h, n)) == Update(h, st, blk)
  {
    hide Phi, Padding;
    PaddingInvalid(h, n);
    var pad := Padding(h, n);
    var fb, vb, fp, vp := Features(h, blk), Values(h, blk), Features(h, pad), Values(h, pad);
    assert Features(h, blk + pad) == fb + fp && Values(h, blk + pad) == vb + vp;
    MatTMulAppend(fb, fp, vb, vp, 2 * h.feat, h.dim);
    ColSumsAppend(fb, fp, 2 * h.feat);
    var mid := Update(h, st, blk);
    MaskedBlockUpdate(h, mid, pad);
    TwoUpdates(h, st, blk, pad);
  }

  lemma PaddingInvalid(h: Head, n: nat)
    ensures |Padding(h, n)| == n && forall i :: 0 <= i < n ==> !Padding(h, n)[i].valid
  {}

  lemma TwoUpdates(h: Head, st: State, a: seq<Entry>, b: seq<Entry>)
    requires Shaped(h, st)
    ensures Update(h, Update(h, st, a), b) == Update(h, st, a + b)
  {
    hide Phi;
    var fa, va, fb, vb := Features(h, a), Values(h, a), Features(h, b), Values(h, b);
    assert Features(h, a + b) == fa + fb && Values(h, a + b) == va + vb;
    MatTMulAppend(fa, fb, va, vb, 2 * h.feat, h.dim);
    ColSumsAppend(fa, fb, 2 * h.feat);
    MatAddAssociates(st.s, MatTMul(fa, va, 2 * h.feat, h.dim), MatTMul(fb, vb, 2 * h.feat, h.dim), 2 * h.feat, h.dim);
    AddAssociates(st.z, ColSums(fa, 2 * h.feat), ColSums(fb, 2 * h.feat));
  }

  lemma AddAssociates(a: Vec, b: Vec, c: Vec)
    requires |a| == |b| == |c|
    ensures Add(Add(a, b), c) == Add(a, Add(b, c))
  {}

  lemma MatAddAssociates(a: Mat, b: Mat, c: Mat, rows: nat, cols: nat)
    requires IsMat(a, rows, cols) && IsMat(b, rows, cols) && IsMat(c, rows, cols)
    ensures MatAdd(MatAdd(a, b), c) == MatAdd(a, MatAdd(b, c))
  {
    hide Add;
    forall i | 0 <= i < rows ensures Add(Add(a[i], b[i]), c[i]) == Add(a[i], Add(b[i], c[i])) {
      AddAssociates(a[i], b[i], c[i]);
    }
  }

  lemma PaddedRow(h: Head, st: State, blk: seq<Entry>, n: nat, q: Vec)
    requires h.kind.Hybrid? && AllValid(blk) && |blk| > 0
    ensures Row(h, st, blk + Padding(h, n), q) == Row(h, st, blk, q)
  {
    hide Phi, Dot, Padding, Mix, Weights, Times, Add;
    var pad, s, exp := Padding(h, n), Scores(h, q, blk), h.exp;
    PaddingInvalid(h, n);
    assert Scores(h, q, blk + pad) == s + MaskedRow(n);
    assert Values(h, blk + pad) == Values(h, blk) + Values(h, pad);
    assert s[0].Fin? && (s + MaskedRow(n))[0].Fin?;
    WeightsMaskedTail(exp, s, n);
    var a := Weights(exp, s);
    WeightsLength(exp, s);
    assert |a| == |Values(h, blk)|;
    SumAppend(a, Zeros(n));
    SumZeros(n);
    forall c | 0 <= c < h.dim
      ensures Dot(a + Zeros(n), Col(Values(h, blk) + Values(h, pad), c)) == Dot(a, Col(Values(h, blk), c))
    {
      ColAppend(Values(h, blk), Values(h, pad), c);
      DotAppend(a, Zeros(n), Col(Values(h, blk), c), Col(Values(h, pad), c));
      DotZeroLeft(Zeros(n), Col(Values(h, pad), c));
    }
    assert VecMat(a + Zeros(n), Values(h, blk + pad), h.dim) == VecMat(a, Values(h, blk), h.dim);
  }

  lemma WeightsLength(exp: real -> real, s: seq<Score>)
    ensures |Weights(exp, s)| == |s|
  {}

  // ----- block by block -----

  function RefOut(h: Head, st: State, blk: seq<Entry>): (out: seq<Vec>)
    requires h.kind.Hybrid? && Shaped(h, st)
    ensures |out| == |blk|
  {
    seq(|blk|, i requires 0 <= i < |blk| => RefRow(h, h.kind.gate, st, blk, blk[i].q))
  }

  function Take(size: nat, n: nat): nat { if n <= size then n else size }

  /** Calling the reference once per block, each call reading the state the call before it wrote. */
  function IteratedOut(h: Head, st: State, es: seq<Entry>): seq<Vec>
    requires h.kind.Hybrid? && Shaped(h, st) && h.blockSize > 0 && AllValid(es)
    decreases |es|
  {
    if |es| == 0 then []
    else
      var n := Take(h.blockSize, |es|);
      NextShaped(h, st, es[..n]);
      RefOut(h, st, es[..n]) + IteratedOut(h, RefUpdate(h, st, es[..n]), es[n..])
  }

  function IteratedState(h: Head, st: State, es: seq<Entry>): State
    requires Shaped(h, st) && h.blockSize > 0 && AllValid(es)
    decreases |es|
  {
    if |es| == 0 then st
    else
      var n := Take(h.blockSize, |es|);
      NextShaped(h, st, es[..n]);
      IteratedState(h, RefUpdate(h, st, es[..n]), es[n..])
  }

  lemma NextShaped(h: Head, st: State, blk: seq<Entry>)
    requires Shaped(h, st) && AllValid(blk)
    ensures Shaped(h, RefUpdate(h, st, blk))
  {
    RefUpdateIsUpdate(h, st, blk);
    UpdateShaped(h, st, blk);
  }

  /** One block of at most block_size tokens, padded by `forward` and unpadded in the reference. */
  lemma OneBlock(h: Head, st: State, blk: seq<Entry>)
    requires h.kind.Hybrid? && Shaped(h, st) && AllValid(blk) && 0 < |blk| <= h.blockSize
    ensures Forward(h, st, blk) == RefOut(h, st, blk)
    ensures FinalState(h, st, blk) == RefUpdate(h, st, blk)
  {
    hide Row, RefRow, Update, RefUpdate, RunState, Forward, PadLength, Padding;
    var n := PadLength(|blk|, h.blockSize);
    PadIs(h, blk, n);
    LastBlockForward(h, st, blk);
    forall i | 0 <= i < |blk| ensures Forward(h, st, blk)[i] == RefOut(h, st, blk)[i] {
      PaddedRow(h, st, blk, n, blk[i].q);
      RefRowIsRow(h, st, blk, blk[i].q);
    }
    OneBlockState(h, st, blk);
    PaddedUpdate(h, st, blk, n);
    RefUpdateIsUpdate(h, st, blk);
  }

  lemma OneBlockState(h: Head, st: State, blk: seq<Entry>)
    requires 0 < |blk| <= h.blockSize
    ensures FinalState(h, st, blk) == Update(h, st, Pad(h, blk))
  {
    hide Update, Pad;
    var p, size := Pad(h, blk), h.blockSize;
    LastBlockForward(h, st, blk);
    LastStep(h, st, p);
    assert p[..0] == [] && p[0..] == p;
    assert Blocks(size, p[..|p| - size]) == [];
  }

  /** The multi-block forward is the reference iterated over consecutive blocks, a short last one included. */
  lemma {:induction false} IteratedIsForward(h: Head, st: State, es: seq<Entry>)
    requires h.kind.Hybrid? && Shaped(h, st) && h.blockSize > 0 && AllValid(es)
    ensures IteratedOut(h, st, es) == Forward(h, st, es)
    ensures IteratedState(h, st, es) == FinalState(h, st, es)
    decreases |es|
  {
    hide Forward, FinalState, RefOut, RefUpdate;
    if |es| == 0 {
      EmptyForward(h, st);
    } else {
      var n := Take(h.blockSize, |es|);
      var a, b := es[..n], es[n..];
      NextShaped(h, st, a);
      IteratedIsForward(h, RefUpdate(h, st, a), b);
      OneBlock(h, st, a);
      if n < |es| {
        SplitAtWhole(h, st, es, n);
      } else {
        assert a == es && b == [];
        EmptyForward(h, RefUpdate(h, st, a));
        assert Forward(h, st, es) + [] == Forward(h, st, es);
      }
    }
  }

  lemma EmptyForward(h: Head, st: State)
    requires h.blockSize > 0
    ensures Forward(h, st, []) == [] && FinalState(h, st, []) == st
  {
    PadWhole(h, []);
  }

  // ----- reading and writing the same state -----

  function Repeat(blk: seq<Entry>, n: nat): seq<seq<Entry>> {
    seq(n, _ => blk)
  }

  lemma {:induction false} SumAdd(a: Vec, b: Vec)
    requires |a| == |b|
    ensures Sum(Add(a, b)) == Sum(a) + Sum(b)
  {
    if |a| > 0 {
      var n := |a| - 1;
      assert Add(a, b)[..n] == Add(a[..n], b[..n]);
      SumAdd(a[..n], b[..n]);
    }
  }

  /** A block adds exactly 2 to the total of Z per valid key. */
  lemma UpdateMass(h: Head, st: State, blk: seq<Entry>)
    requires IsExp(h.exp) && h.feat > 0 && Shaped(h, st) && AllValid(blk)
    ensures Sum(Update(h, st, blk).z) == Sum(st.z) + 2.0 * |blk| as real
  {
    hide Phi, Dot, Sum, MatTMul, MatAdd, IsExp;
    var p, ones := Features(h, blk), Ones(2 * h.feat);
    SumAdd(st.z, ColSums(p, 2 * h.feat));
    DotOnes(ColSums(p, 2 * h.feat));
    DotComm(ones, ColSums(p, 2 * h.feat));
    DotColSums(ones, p, 2 * h.feat);
    forall j | 0 <= j < |blk| ensures Dot(ones, p[j]) == 2.0 {
      DotComm(ones, p[j]);
      DotOnes(p[j]);
      PhiMass(h, blk[j].k);
    }
    ConstantSum(Kernel(ones, p), 2.0);
  }

  lemma PhiMass(h: Head, x: Vec)
    requires IsExp(h.exp) && h.feat > 0
    ensures Sum(Phi(h, x)) == 2.0
  {
    HedgehogMass(h.exp, h.proj, h.feat, x);
  }

  lemma {:induction false} DotComm(a: Vec, b: Vec)
    ensures Dot(a, b) == Dot(b, a)
  {
    if |a| > 0 && |b| > 0 { DotComm(a[1..], b[1..]); }
  }

  lemma {:induction false} ConstantSum(a: Vec, c: real)
    requires forall i :: 0 <= i < |a| ==> a[i] == c
    ensures Sum(a) == c * |a| as real
  {
    if |a| > 0 {
      ConstantSum(a[..|a| - 1], c);
      assert |a| as real == (|a| - 1) as real + 1.0;
    }
  }

  lemma {:induction false} RepeatMass(h: Head, st: State, blk: seq<Entry>, n: nat)
    requires IsExp(h.exp) && h.feat > 0 && Shaped(h, st) && AllValid(blk)
    ensures Sum(RunState(h, st, Repeat(blk, n)).z) == Sum(st.z) + 2.0 * |blk| as real * n as real
  {
    hide Update, IsExp;
    if n > 0 {
      var front := Repeat(blk, n)[..n - 1];
      assert front == Repeat(blk, n - 1);
      RunShaped(h, st, front);
      RepeatMass(h, st, blk, n - 1);
      UpdateMass(h, RunState(h, st, front), blk);
      var m, k := 2.0 * |blk| as real, (n - 1) as real;
      assert n as real == k + 1.0;
      assert m * (k + 1.0) == m * k + m;
    }
  }

  /**
   When a group of heads shares one state and reads what it writes, every member folds the block in again.
   The written state is then the intended one exactly for groups of one.
   */
  lemma AliasedGroup(h: Head, st: State, blk: seq<Entry>, groups: nat)
    requires IsExp(h.exp) && h.feat > 0 && Shaped(h, st) && AllValid(blk) && |blk| > 0 && groups > 0
    ensures RunState(h, st, Repeat(blk, groups)) == Update(h, st, blk) <==> groups == 1
  {
    hide Update, IsExp;
    RepeatMass(h, st, blk, groups);
    UpdateMass(h, st, blk);
    if groups == 1 {
      var one := Repeat(blk, 1);
      assert one[..0] == [];
    } else {
      var m := 2.0 * |blk| as real;
      assert m * groups as real > m by { assert m * (groups as real - 1.0) > 0.0; }
    }
  }
}
