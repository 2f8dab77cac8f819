/**
 The two recurrent attention classes, one head of one batch row at a time.

 `Hybrid` is BlockSoftmaxLinearHybrid: softmax inside a block, a linear state over earlier blocks,
 one shared normalisation, the state updated after the block has been queried.
 `Linear` is OrderInvariantKernelLinearAttention: the state is updated first and the block queries it.
 */
module BlockAttention {
  import opened Vectors
  import opened Softmax
  import opened BlockMath
  import opened Sequences

  datatype Kind = Hybrid(gate: real) | Linear

  datatype Head = Head(exp: real -> real, proj: Mat, feat: nat, dim: nat,
                       scale: real, eps: real, blockSize: nat, kind: Kind)

  /** The running pair (S, Z): a (2 * feat x dim) numerator and a 2 * feat normaliser. */
  datatype State = State(s: Mat, z: Vec)

  /** One position of the sequence; `valid` is the key-validity mask. */
  datatype Entry = Entry(q: Vec, k: Vec, v: Vec, valid: bool)

  ghost predicate Shaped(h: Head, st: State) {
    IsMat(st.s, 2 * h.feat, h.dim) && |st.z| == 2 * h.feat
  }

  function ZeroState(h: Head): (st: State)
    ensures Shaped(h, st)
  {
    State(seq(2 * h.feat, _ => Zeros(h.dim)), Zeros(2 * h.feat))
  }

  function Phi(h: Head, x: Vec): (phi: Vec)
    ensures |phi| == 2 * h.feat
  {
    Hedgehog(h.exp, h.proj, h.feat, x)
  }

  /** Feature vectors of the keys, masked keys zeroed. */
  function Features(h: Head, es: seq<Entry>): (p: Mat)
    ensures IsMat(p, |es|, 2 * h.feat)
  {
    seq(|es|, j requires 0 <= j < |es| => if es[j].valid then Phi(h, es[j].k) else Zeros(2 * h.feat))
  }

  /** Values, masked positions zeroed. */
  function Values(h: Head, es: seq<Entry>): Mat {
    seq(|es|, j requires 0 <= j < |es| => if es[j].valid then es[j].v else Zeros(h.dim))
  }

  function Update(h: Head, st: State, blk: seq<Entry>): State {
    State(MatAdd(st.s, MatTMul(Features(h, blk), Values(h, blk), 2 * h.feat, h.dim)),
          Add(st.z, ColSums(Features(h, blk), 2 * h.feat)))
  }

  function Scores(h: Head, q: Vec, blk: seq<Entry>): seq<Score> {
    seq(|blk|, j requires 0 <= j < |blk| =>
      if blk[j].valid then Fin(Times(Dot(q, blk[j].k), h.scale)) else Masked)
  }

  function Quotient(num: Vec, den: real): Vec {
    seq(|num|, d requires 0 <= d < |num| => Ratio(num[d], den))
  }

  /** The shared-normalisation mix of the two branches. */
  function Mix(eps: real, gate: real, linNum: Vec, linDen: real, smNum: Vec, smDen: real): Vec {
    Quotient(Add(Scale(gate, smNum), linNum),
             Max(gate * Max(smDen, eps) + Max(linDen, eps), eps))
  }

  function HybridRow(h: Head, gate: real, st: State, blk: seq<Entry>, q: Vec): Vec {
    var phi := Phi(h, q);
    var a := FilledWeights(h.exp, Scores(h, q, blk));
    Mix(h.eps, gate, VecMat(phi, st.s, h.dim), Dot(phi, st.z), VecMat(a, Values(h, blk), h.dim), Sum(a))
  }

  function LinearRow(h: Head, st: State, q: Vec): Vec {
    var phi := Phi(h, q);
    Quotient(VecMat(phi, st.s, h.dim), Max(Dot(phi, st.z), h.eps))
  }

  /** Output for query q of a block, from the state left by the blocks before it. */
  function Row(h: Head, st: State, blk: seq<Entry>, q: Vec): Vec {
    match h.kind
    case Hybrid(gate) => HybridRow(h, gate, st, blk, q)
    case Linear => LinearRow(h, Update(h, st, blk), q)
  }

  function BlockOut(h: Head, st: State, blk: seq<Entry>): (out: seq<Vec>)
    ensures |out| == |blk|
  {
    seq(|blk|, i requires 0 <= i < |blk| => Row(h, st, blk, blk[i].q))
  }

  /** The state after a run of blocks. */
  function RunState(h: Head, st: State, blks: seq<seq<Entry>>): State {
    if |blks| == 0 then st
    else Update(h, RunState(h, st, blks[..|blks| - 1]), blks[|blks| - 1])
  }

  /** The concatenated outputs of a run of blocks. */
  function RunOut(h: Head, st: State, blks: seq<seq<Entry>>): seq<Vec> {
    if |blks| == 0 then []
    else
      var front := blks[..|blks| - 1];
      RunOut(h, st, front) + BlockOut(h, RunState(h, st, front), blks[|blks| - 1])
  }

  // ----- cutting a sequence into blocks -----

  function Padding(h: Head, n: nat): seq<Entry> {
    seq(n, _ => Entry(Zeros(h.dim), Zeros(h.dim), Zeros(h.dim), false))
  }

  lemma PaddingLength(h: Head, n: nat)
    ensures |Padding(h, n)| == n
  {}

  /** Internal pad-to-block: zero vectors, masked as keys. */
  function Pad(h: Head, es: seq<Entry>): (r: seq<Entry>)
    requires h.blockSize > 0
    ensures Whole(|r|, h.blockSize) && |es| <= |r|
  {
    es + Padding(h, PadLength(|es|, h.blockSize))
  }

  function Blocks(size: nat, es: seq<Entry>): seq<seq<Entry>>
    requires size > 0 && Whole(|es|, size)
    decreases |es|
  {
    if |es| == 0 then [] else Blocks(size, es[..|es| - size]) + [es[|es| - size..]]
  }

  /** What `forward` returns: the outputs of the given positions... */
  function Forward(h: Head, st: State, es: seq<Entry>): (out: seq<Vec>)
    requires h.blockSize > 0
    ensures |out| == |es|
  {
    var blks := Blocks(h.blockSize, Pad(h, es));
    BlocksTotal(h.blockSize, Pad(h, es));
    RunOutLength(h, st, blks);
    RunOut(h, st, blks)[..|es|]
  }

  /** ... and the final (S, Z). */
  function FinalState(h: Head, st: State, es: seq<Entry>): State
    requires h.blockSize > 0
  {
    RunState(h, st, Blocks(h.blockSize, Pad(h, es)))
  }

  lemma {:induction false} BlocksTotal(size: nat, es: seq<Entry>)
    requires size > 0 && Whole(|es|, size)
    ensures Flat(Blocks(size, es)) == es
    ensures Span(|Blocks(size, es)|, size) == |es|
    ensures forall n :: 0 <= n < |Blocks(size, es)| ==> |Blocks(size, es)[n]| == size
    decreases |es|
  {
    if |es| > 0 {
      var front, last := es[..|es| - size], es[|es| - size..];
      BlocksTotal(size, front);
      DropAppend(Blocks(size, front), [last]);
      CutRejoin(es, |es| - size);
    }
  }

  lemma {:induction false} RunOutLength(h: Head, st: State, blks: seq<seq<Entry>>)
    ensures |RunOut(h, st, blks)| == |Flat(blks)|
  {
    if |blks| > 0 { RunOutLength(h, st, blks[..|blks| - 1]); }
  }

  lemma {:induction false} BlocksAppend(size: nat, a: seq<Entry>, b: seq<Entry>)
    requires size > 0 && Whole(|a|, size) && Whole(|b|, size)
    ensures Whole(|a + b|, size)
    ensures Blocks(size, a + b) == Blocks(size, a) + Blocks(size, b)
    decreases |b|
  {
    WholeAdd(|a|, |b|, size);
    if |b| == 0 {
      assert a + b == a;
    } else {
      var b', last := b[..|b| - size], b[|b| - size..];
      BlocksAppend(size, a, b');
      CutRejoin(b, |b| - size);
      AppendAssociates(a, b', last);
      DropAppend(a + b', last);
      AppendAssociates(Blocks(size, a), Blocks(size, b'), [last]);
    }
  }

  // ----- splitting a run -----

  lemma UpdateShaped(h: Head, st: State, blk: seq<Entry>)
    requires Shaped(h, st)
    ensures Shaped(h, Update(h, st, blk))
  {}

  lemma {:induction false} RunShaped(h: Head, st: State, blks: seq<seq<Entry>>)
    requires Shaped(h, st)
    ensures Shaped(h, RunState(h, st, blks))
  {
    if |blks| > 0 {
      RunShaped(h, st, blks[..|blks| - 1]);
      UpdateShaped(h, RunState(h, st, blks[..|blks| - 1]), blks[|blks| - 1]);
    }
  }

  lemma {:induction false} RunStateSplit(h: Head, st: State, a: seq<seq<Entry>>, b: seq<seq<Entry>>)
    ensures RunState(h, st, a + b) == RunState(h, RunState(h, st, a), b)
  {
    hide Update;
    if |b| == 0 {
      assert a + b == a;
    } else {
      assert (a + b)[..|a + b| - 1] == a + b[..|b| - 1];
      RunStateSplit(h, st, a, b[..|b| - 1]);
    }
  }

  lemma {:induction false} RunSplit(h: Head, st: State, a: seq<seq<Entry>>, b: seq<seq<Entry>>)
    ensures RunState(h, st, a + b) == RunState(h, RunState(h, st, a), b)
    ensures RunOut(h, st, a + b) == RunOut(h, st, a) + RunOut(h, RunState(h, st, a), b)
  {
    hide BlockOut, Update;
    RunStateSplit(h, st, a, b);
    if |b| == 0 {
      assert a + b == a;
    } else {
      var b', mid := b[..|b| - 1], RunState(h, st, a);
      assert (a + b)[..|a + b| - 1] == a + b';
      RunSplit(h, st, a, b');
      var last := BlockOut(h, RunState(h, mid, b'), b[|b| - 1]);
      assert RunOut(h, st, a + b) == RunOut(h, st, a + b') + last;
      assert RunOut(h, mid, b) == RunOut(h, mid, b') + last;
      AppendAssociates(RunOut(h, st, a), RunOut(h, mid, b'), last);
    }
  }

  lemma PadWhole(h: Head, es: seq<Entry>)
    requires h.blockSize > 0 && Whole(|es|, h.blockSize)
    ensures Pad(h, es) == es
  {
    WholePad(|es|, h.blockSize);
  }

  lemma PadIs(h: Head, es: seq<Entry>, n: nat)
    requires h.blockSize > 0 && n == PadLength(|es|, h.blockSize)
    ensures Pad(h, es) == es + Padding(h, n)
  {}

  lemma PadSameLength(h: Head, a: seq<Entry>, b: seq<Entry>)
    requires h.blockSize > 0 && |a| == |b|
    ensures |Pad(h, a)| == |Pad(h, b)|
  {
    hide PadLength, Whole;
  }

  lemma PadAppend(h: Head, a: seq<Entry>, b: seq<Entry>)
    requires h.blockSize > 0 && Whole(|a|, h.blockSize)
    ensures Pad(h, a + b) == a + Pad(h, b)
  {
    hide Whole, PadLength, Padding, Pad;
    var n := PadLength(|b|, h.blockSize);
    PadLengthAdd(|a|, |b|, h.blockSize);
    PadIs(h, a + b, n);
    PadIs(h, b, n);
    AppendAssociates(a, b, Padding(h, n));
  }

  lemma SplitAtWhole(h: Head, st: State, es: seq<Entry>, cut: nat)
    requires h.blockSize > 0 && cut <= |es| && Whole(cut, h.blockSize)
    ensures Forward(h, st, es)
         == Forward(h, st, es[..cut]) + Forward(h, FinalState(h, st, es[..cut]), es[cut..])
    ensures FinalState(h, st, es) == FinalState(h, FinalState(h, st, es[..cut]), es[cut..])
  {
    hide BlockOut, Update, RunState, RunOut, Blocks, Pad, Whole, PadLength, Flat, Span;
    var a, b := es[..cut], es[cut..];
    CutRejoin(es, cut);
    PadAppend(h, a, b);
    PadWhole(h, a);
    BlocksAppend(h.blockSize, a, Pad(h, b));
    var ba, bb := Blocks(h.blockSize, a), Blocks(h.blockSize, Pad(h, b));
    var mid := RunState(h, st, ba);
    RunSplit(h, st, ba, bb);
    BlocksTotal(h.blockSize, a);
    RunOutLength(h, st, ba);
    assert Forward(h, st, a) == RunOut(h, st, ba);
    BlocksTotal(h.blockSize, Pad(h, b));
    RunOutLength(h, mid, bb);
    TakeAppend(RunOut(h, st, ba), RunOut(h, mid, bb), |b|);
  }

  /**
   Processing a prefix that ends on a block boundary and carrying its (S, Z) into the rest gives the
   outputs and the final state of one pass.
   */
  lemma ForwardSplit(h: Head, st: State, es: seq<Entry>, cut: nat)
    requires h.blockSize > 0 && cut <= |es| && cut % h.blockSize == 0
    ensures Forward(h, st, es)
         == Forward(h, st, es[..cut]) + Forward(h, FinalState(h, st, es[..cut]), es[cut..])
    ensures FinalState(h, st, es) == FinalState(h, FinalState(h, st, es[..cut]), es[cut..])
  {
    WholeIsMod(cut, h.blockSize);
    SplitAtWhole(h, st, es, cut);
  }

  // ----- the recurrence refines quadratic attention -----

  /** Linear-attention weight of one earlier key: phi(q) . phi(k), 0 when the key is masked. */
  function KernelWeights(h: Head, q: Vec, es: seq<Entry>): Vec {
    seq(|es|, j requires 0 <= j < |es| => if es[j].valid then Dot(Phi(h, q), Phi(h, es[j].k)) else 0.0)
  }

  /** Attention written out over every visible key, with no running state. */
  function QuadraticRow(h: Head, prior: seq<Entry>, blk: seq<Entry>, q: Vec): Vec {
    match h.kind
    case Hybrid(gate) =>
      var c := KernelWeights(h, q, prior);
      var a := FilledWeights(h.exp, Scores(h, q, blk));
      Mix(h.eps, gate, VecMat(c, Values(h, prior), h.dim), Sum(c), VecMat(a, Values(h, blk), h.dim), Sum(a))
    case Linear =>
      var c := KernelWeights(h, q, prior + blk);
      Quotient(VecMat(c, Values(h, prior + blk), h.dim), Max(Sum(c), h.eps))
  }

  lemma KernelIsKernelWeights(h: Head, q: Vec, es: seq<Entry>)
    ensures Kernel(Phi(h, q), Features(h, es)) == KernelWeights(h, q, es)
  {
    forall j | 0 <= j < |es| && !es[j].valid
      ensures Dot(Phi(h, q), Features(h, es)[j]) == 0.0
    {
      DotZeroRight(Phi(h, q), Features(h, es)[j]);
    }
  }

  /** The state that summarises a list of positions, as one product over all of them. */
  function Summary(h: Head, es: seq<Entry>): State {
    State(MatTMul(Features(h, es), Values(h, es), 2 * h.feat, h.dim), ColSums(Features(h, es), 2 * h.feat))
  }

  lemma SummaryAppend(h: Head, a: seq<Entry>, b: seq<Entry>)
    ensures Summary(h, a + b) == Update(h, Summary(h, a), b)
  {
    assert Features(h, a + b) == Features(h, a) + Features(h, b);
    assert Values(h, a + b) == Values(h, a) + Values(h, b);
    MatTMulAppend(Features(h, a), Features(h, b), Values(h, a), Values(h, b), 2 * h.feat, h.dim);
    ColSumsAppend(Features(h, a), Features(h, b), 2 * h.feat);
  }

  lemma SummaryEmpty(h: Head)
    ensures Summary(h, []) == ZeroState(h)
  {
    forall f, d | 0 <= f < 2 * h.feat && 0 <= d < h.dim
      ensures MatTMul([], [], 2 * h.feat, h.dim)[f][d] == 0.0 {}
    forall f | 0 <= f < 2 * h.feat
      ensures Summary(h, []).s[f] == ZeroState(h).s[f] {}
    forall f | 0 <= f < 2 * h.feat
      ensures Summary(h, []).z[f] == 0.0 {}
  }

  /** From the zero state, the recurrence holds the summary of everything seen. */
  lemma {:induction false} RunStateIsSummary(h: Head, blks: seq<seq<Entry>>)
    ensures RunState(h, ZeroState(h), blks) == Summary(h, Flat(blks))
  {
    if |blks| == 0 {
      SummaryEmpty(h);
    } else {
      RunStateIsSummary(h, blks[..|blks| - 1]);
      SummaryAppend(h, Flat(blks[..|blks| - 1]), blks[|blks| - 1]);
    }
  }

  lemma SummaryReadout(h: Head, q: Vec, es: seq<Entry>)
    ensures VecMat(Phi(h, q), Summary(h, es).s, h.dim) == VecMat(KernelWeights(h, q, es), Values(h, es), h.dim)
    ensures Dot(Phi(h, q), Summary(h, es).z) == Sum(KernelWeights(h, q, es))
  {
    KernelIsKernelWeights(h, q, es);
    VecMatMatTMul(Phi(h, q), Features(h, es), Values(h, es), 2 * h.feat, h.dim);
    DotColSums(Phi(h, q), Features(h, es), 2 * h.feat);
  }

  lemma RowIsQuadratic(h: Head, prior: seq<Entry>, blk: seq<Entry>, q: Vec)
    ensures Row(h, Summary(h, prior), blk, q) == QuadraticRow(h, prior, blk, q)
  {
    match h.kind
    case Hybrid(_) => SummaryReadout(h, q, prior);
    case Linear =>
      SummaryAppend(h, prior, blk);
      SummaryReadout(h, q, prior + blk);
  }

  lemma BlockOutAt(h: Head, st: State, blk: seq<Entry>, i: nat)
    requires i < |blk|
    ensures BlockOut(h, st, blk)[i] == Row(h, st, blk, blk[i].q)
  {}

  /** Block n of a run from the zero state is quadratic attention over blocks 0..n. */
  lemma RecurrentIsQuadratic(h: Head, blks: seq<seq<Entry>>, n: nat, i: nat)
    requires n < |blks| && i < |blks[n]|
    ensures |Flat(blks[..n])| + i < |RunOut(h, ZeroState(h), blks)|
    ensures RunOut(h, ZeroState(h), blks)[|Flat(blks[..n])| + i]
         == QuadraticRow(h, Flat(blks[..n]), blks[n], blks[n][i].q)
  {
    hide BlockOut, Update, RunState, RunOut, Row, QuadraticRow;
    RunOutAt(h, ZeroState(h), blks, n);
    RunStateIsSummary(h, blks[..n]);
    RowIsQuadratic(h, Flat(blks[..n]), blks[n], blks[n][i].q);
    BlockOutAt(h, Summary(h, Flat(blks[..n])), blks[n], i);
    var lo := |Flat(blks[..n])|;
    assert RunOut(h, ZeroState(h), blks)[lo + i] == RunOut(h, ZeroState(h), blks)[lo..lo + |blks[n]|][i];
  }

  /** Block n of a run is the block output from the state the first n blocks leave. */
  lemma RunOutAt(h: Head, st: State, blks: seq<seq<Entry>>, n: nat)
    requires n < |blks|
    ensures |Flat(blks[..n])| + |blks[n]| <= |RunOut(h, st, blks)|
    ensures RunOut(h, st, blks)[|Flat(blks[..n])|..|Flat(blks[..n])| + |blks[n]|]
         == BlockOut(h, RunState(h, st, blks[..n]), blks[n])
  {
    hide BlockOut, Update, RunState;
    assert blks == blks[..n + 1] + blks[n + 1..];
    assert blks[..n + 1][..n] == blks[..n];
    RunSplit(h, st, blks[..n + 1], blks[n + 1..]);
    RunOutLength(h, st, blks[..n]);
  }
}
