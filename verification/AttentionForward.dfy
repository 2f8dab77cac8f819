/**
 The `forward` and `forward_bd3lm` loops of both attention classes, proved against the recurrence,
 and what they promise: padding is neutral, and the BD3LM staircase is sequential decoding.
 */
module AttentionForward {
  import opened Wrappers
  import opened Vectors
  import opened BlockMath
  import opened AttentionMask
  import opened Sequences
  import opened BlockAttention

  predicate MaskAt(mask: Option<seq<bool>>, i: nat) {
    mask.None? || (i < |mask.value| && mask.value[i])
  }

  /** The positions of a call, zipped with their key validity. A short mask is extended with zeros. */
  function Entries(q: seq<Vec>, k: seq<Vec>, v: seq<Vec>, mask: Option<seq<bool>>): (es: seq<Entry>)
    requires |q| == |k| == |v|
    ensures |es| == |q|
  {
    seq(|q|, i requires 0 <= i < |q| => Entry(q[i], k[i], v[i], MaskAt(mask, i)))
  }

  /** The padded tensors as the code builds them, the mask included. */
  function PaddedEntry(h: Head, q: seq<Vec>, k: seq<Vec>, v: seq<Vec>, mask: Option<seq<bool>>, i: nat): Entry
    requires |q| == |k| == |v|
  {
    if i < |q| then Entry(q[i], k[i], v[i], MaskAt(mask, i))
    else Entry(Zeros(h.dim), Zeros(h.dim), Zeros(h.dim),
               h.kind.Hybrid? && mask.Some? && MaskAt(mask, i))
  }

  /** The padded input, as `forward` lays it out. */
  function PaddedInput(h: Head, q: seq<Vec>, k: seq<Vec>, v: seq<Vec>, mask: Option<seq<bool>>): seq<Entry>
    requires |q| == |k| == |v| && h.blockSize > 0
  {
    var len := Span(NumBlocks(|q|, h.blockSize), h.blockSize);
    seq(len, i requires 0 <= i < len => PaddedEntry(h, q, k, v, mask, i))
  }

  function PaddedLength(h: Head, len: nat): nat
    requires h.blockSize > 0
  {
    Span(NumBlocks(len, h.blockSize), h.blockSize)
  }

  ghost predicate MaskFits(h: Head, mask: Option<seq<bool>>, len: nat) {
    h.kind.Linear? || mask.None? || |mask.value| <= len
  }

  lemma PaddedInputIsPad(h: Head, q: seq<Vec>, k: seq<Vec>, v: seq<Vec>, mask: Option<seq<bool>>)
    requires |q| == |k| == |v| && h.blockSize > 0 && MaskFits(h, mask, |q|)
    ensures PaddedInput(h, q, k, v, mask) == Pad(h, Entries(q, k, v, mask))
  {
    NumBlocksPad(|q|, h.blockSize);
  }

  lemma PaddedInputSize(h: Head, q: seq<Vec>, k: seq<Vec>, v: seq<Vec>, mask: Option<seq<bool>>)
    requires |q| == |k| == |v| && h.blockSize > 0
    ensures |q| <= |PaddedInput(h, q, k, v, mask)| == Span(NumBlocks(|q|, h.blockSize), h.blockSize)
    ensures Whole(|PaddedInput(h, q, k, v, mask)|, h.blockSize)
  {
    NumBlocksPad(|q|, h.blockSize);
    SpanWhole(NumBlocks(|q|, h.blockSize), h.blockSize);
  }

  /** One more block: the recurrence over a prefix that ends on a block boundary. */
  lemma RunStep(h: Head, st: State, es: seq<Entry>, lo: nat)
    requires h.blockSize > 0 && Whole(lo, h.blockSize) && lo + h.blockSize <= |es|
    ensures Whole(lo + h.blockSize, h.blockSize)
    ensures OutTo(h, st, es, lo + h.blockSize)
         == OutTo(h, st, es, lo) + BlockOut(h, StateTo(h, st, es, lo), es[lo..lo + h.blockSize])
    ensures StateTo(h, st, es, lo + h.blockSize)
         == Update(h, StateTo(h, st, es, lo), es[lo..lo + h.blockSize])
  {
    hide BlockOut, Update, Blocks;
    BlocksStep(h.blockSize, es, lo);
    var front, blk := Blocks(h.blockSize, es[..lo]), es[lo..lo + h.blockSize];
    assert (front + [blk])[..|front|] == front;
  }

  lemma BlocksStep(size: nat, es: seq<Entry>, lo: nat)
    requires size > 0 && Whole(lo, size) && lo + size <= |es|
    ensures Whole(lo + size, size)
    ensures Blocks(size, es[..lo + size]) == Blocks(size, es[..lo]) + [es[lo..lo + size]]
  {
    var a := es[..lo + size];
    assert a[..lo] == es[..lo] && a[lo..] == es[lo..lo + size];
  }

  /** Outputs and state after the positions below lo. */
  function OutTo(h: Head, st: State, es: seq<Entry>, lo: nat): seq<Vec>
    requires h.blockSize > 0 && lo <= |es| && Whole(lo, h.blockSize)
  {
    RunOut(h, st, Blocks(h.blockSize, es[..lo]))
  }

  function StateTo(h: Head, st: State, es: seq<Entry>, lo: nat): State
    requires h.blockSize > 0 && lo <= |es| && Whole(lo, h.blockSize)
  {
    RunState(h, st, Blocks(h.blockSize, es[..lo]))
  }

  /** `forward` is the recurrence over the whole padded input. */
  lemma RunToEnd(h: Head, st: State, es: seq<Entry>)
    requires h.blockSize > 0
    ensures var padded := Pad(h, es);
            && |OutTo(h, st, padded, |padded|)| == |padded|
            && Forward(h, st, es) == OutTo(h, st, padded, |padded|)[..|es|]
            && FinalState(h, st, es) == StateTo(h, st, padded, |padded|)
  {
    hide RunOut, RunState, Blocks, Whole;
    var padded := Pad(h, es);
    assert padded[..|padded|] == padded;
    BlocksTotal(h.blockSize, padded);
    RunOutLength(h, st, Blocks(h.blockSize, padded));
  }

  /** Every query of a block against a state that already holds the block. */
  function LinearRows(h: Head, st: State, blk: seq<Entry>): seq<Vec> {
    seq(|blk|, i requires 0 <= i < |blk| => LinearRow(h, st, blk[i].q))
  }

  lemma LinearBlockOut(h: Head, st: State, blk: seq<Entry>)
    requires h.kind.Linear?
    ensures BlockOut(h, st, blk) == LinearRows(h, Update(h, st, blk), blk)
  {
    hide LinearRow, Update;
  }

  lemma SpansWhole(size: nat)
    requires size > 0
    ensures forall n: nat :: Whole(Span(n, size), size)
  {
    forall n: nat ensures Whole(Span(n, size), size) { SpanWhole(n, size); }
  }

  lemma EmptyRun(h: Head, st: State, es: seq<Entry>)
    requires h.blockSize > 0
    ensures OutTo(h, st, es, 0) == [] && StateTo(h, st, es, 0) == st
  {}

  function StartState(h: Head, initS: Option<Mat>, initZ: Option<Vec>): State {
    State(if initS.Some? then initS.value else ZeroState(h).s,
          if initZ.Some? then initZ.value else ZeroState(h).z)
  }

  /**
   BlockSoftmaxLinearHybrid.forward: query the state, then fold the block into it. A key mask longer than the
   sequence reaches into the padding, whose zero vectors then count as keys.
   */
  method HybridForward(h: Head, q: seq<Vec>, k: seq<Vec>, v: seq<Vec>, mask: Option<seq<bool>>,
                       initS: Option<Mat>, initZ: Option<Vec>) returns (out: seq<Vec>, final: State)
    requires h.kind.Hybrid? && h.blockSize > 0 && |q| == |k| == |v|
    ensures |q| <= |PaddedInput(h, q, k, v, mask)|
    ensures out == Forward(h, StartState(h, initS, initZ), PaddedInput(h, q, k, v, mask))[..|q|]
    ensures final == FinalState(h, StartState(h, initS, initZ), PaddedInput(h, q, k, v, mask))
    ensures MaskFits(h, mask, |q|) ==> out == Forward(h, StartState(h, initS, initZ), Entries(q, k, v, mask))
    ensures MaskFits(h, mask, |q|) ==> final == FinalState(h, StartState(h, initS, initZ), Entries(q, k, v, mask))
  {
    hide BlockOut, Update, OutTo, StateTo, PaddedInput, NumBlocks, Forward, FinalState, Entries, StartState, Whole,
         LinearRows;
    SpansWhole(h.blockSize);
    var size := h.blockSize;
    var numBlocks := NumBlocks(|q|, size);
    var es := PaddedInput(h, q, k, v, mask);
    PaddedInputSize(h, q, k, v, mask);
    NumBlocksPad(|q|, size);
    ghost var start := StartState(h, initS, initZ);
    final := StartState(h, initS, initZ);
    out := [];
    EmptyRun(h, start, es);
    for n := 0 to numBlocks
      invariant Span(n, size) <= |es|
      invariant out == OutTo(h, start, es, Span(n, size))
      invariant final == StateTo(h, start, es, Span(n, size))
    {
      var lo := Span(n, size);
      SpanMonotone(n + 1, numBlocks, size);
      RunStep(h, start, es, lo);
      var blk := es[lo..lo + size];
      out := out + BlockOut(h, final, blk);
      final := Update(h, final, blk);
    }
    PadWhole(h, es);
    RunToEnd(h, start, es);
    out := out[..|q|];
    if MaskFits(h, mask, |q|) {
      PaddedInputIsPad(h, q, k, v, mask);
      RunToEnd(h, start, Entries(q, k, v, mask));
    }
  }

  /** The key mask of one row of the batch. */
  method InferMask(padding: Option<seq<bool>>, attention: Option<AttnMask>, row: nat, len: nat)
    returns (mask: Option<seq<bool>>)
    requires attention.Some? ==> row < Rows(attention.value)
    ensures mask == KeyMask(padding, attention, row, len)
  {
    mask := padding;
    if padding.None? && attention.Some? {
      var valid := InferKeyValid(attention.value, len);
      assert valid[row] == KeyValid(attention.value, len, row) by { hide Attends; }
      mask := Some(valid[row]);
    }
  }

  /** OrderInvariantKernelLinearAttention.forward on one row and head: fold the block in, then query the state. */
  method LinearForward(h: Head, q: seq<Vec>, k: seq<Vec>, v: seq<Vec>, padding: Option<seq<bool>>,
                       attention: Option<AttnMask>, row: nat, initS: Option<Mat>, initZ: Option<Vec>)
    returns (out: seq<Vec>, final: State)
    requires h.kind.Linear? && h.blockSize > 0 && |q| == |k| == |v|
    requires attention.Some? ==> row < Rows(attention.value)
    ensures var es := Entries(q, k, v, KeyMask(padding, attention, row, PaddedLength(h, |q|)));
            && out == Forward(h, StartState(h, initS, initZ), es)
            && final == FinalState(h, StartState(h, initS, initZ), es)
  {
    hide BlockOut, Update, OutTo, StateTo, PaddedInput, NumBlocks, Forward, FinalState, Entries, StartState, Whole,
         LinearRows, KeyMask;
    SpansWhole(h.blockSize);
    var size := h.blockSize;
    var numBlocks := NumBlocks(|q|, size);
    var mask := InferMask(padding, attention, row, PaddedLength(h, |q|));
    var es := PaddedInput(h, q, k, v, mask);
    PaddedInputIsPad(h, q, k, v, mask);
    NumBlocksPad(|q|, size);
    ghost var start := StartState(h, initS, initZ);
    final := StartState(h, initS, initZ);
    out := [];
    EmptyRun(h, start, es);
    for n := 0 to numBlocks
      invariant Span(n, size) <= |es|
      invariant out == OutTo(h, start, es, Span(n, size))
      invariant final == StateTo(h, start, es, Span(n, size))
    {
      var lo := Span(n, size);
      SpanMonotone(n + 1, numBlocks, size);
      RunStep(h, start, es, lo);
      var blk := es[lo..lo + size];
      ghost var prior := final;
      final := Update(h, final, blk);
      LinearBlockOut(h, prior, blk);
      out := out + LinearRows(h, final, blk);
    }
    RunToEnd(h, start, Entries(q, k, v, mask));
    out := out[..|q|];
  }

  // ----- the loops compute quadratic attention -----

  lemma {:induction false} OutPrefix(h: Head, st: State, es: seq<Entry>, lo: nat, hi: nat)
    requires h.blockSize > 0 && lo <= hi <= |es| && Whole(lo, h.blockSize) && Whole(hi, h.blockSize)
    ensures lo <= |OutTo(h, st, es, hi)| && |OutTo(h, st, es, lo)| == lo
    ensures OutTo(h, st, es, hi)[..lo] == OutTo(h, st, es, lo)
    decreases hi
  {
    hide BlockOut, StateTo, Update, RunOut, Blocks;
    BlocksTotal(h.blockSize, es[..lo]);
    RunOutLength(h, st, Blocks(h.blockSize, es[..lo]));
    if lo < hi {
      var mid := hi - h.blockSize;
      WholeGap(lo, hi, h.blockSize);
      OutPrefix(h, st, es, lo, mid);
      RunStep(h, st, es, mid);
    }
  }

  lemma BlockAt(h: Head, st: State, es: seq<Entry>, lo: nat)
    requires h.blockSize > 0 && Whole(lo, h.blockSize) && lo + h.blockSize <= |es| && Whole(|es|, h.blockSize)
    ensures |OutTo(h, st, es, |es|)| == |es|
    ensures OutTo(h, st, es, |es|)[lo..lo + h.blockSize] ==
      BlockOut(h, StateTo(h, st, es, lo), es[lo..lo + h.blockSize])
  {
    hide BlockOut, OutTo, StateTo, Whole;
    var hi := lo + h.blockSize;
    RunStep(h, st, es, lo);
    OutPrefix(h, st, es, lo, |es|);
    OutPrefix(h, st, es, hi, |es|);
    OutPrefix(h, st, es, |es|, |es|);
    var out := OutTo(h, st, es, |es|);
    assert out[lo..hi] == out[..hi][lo..];
    DropAppend(OutTo(h, st, es, lo), BlockOut(h, StateTo(h, st, es, lo), es[lo..hi]));
  }

  lemma BlockWithin(h: Head, es: seq<Entry>, i: nat)
    requires h.blockSize > 0 && i < |es|
    ensures BlockStart(i, h.blockSize) + h.blockSize <= |Pad(h, es)|
  {
    hide PadLength, Padding, Whole, BlockStart, Pad;
    WholeGap(BlockStart(i, h.blockSize), |Pad(h, es)|, h.blockSize);
  }

  /** Output i of `forward` is its query against its own block and the state left by the blocks before. */
  lemma ForwardAt(h: Head, st: State, es: seq<Entry>, i: nat)
    requires h.blockSize > 0 && i < |es|
    ensures var padded, lo := Pad(h, es), BlockStart(i, h.blockSize);
            && lo + h.blockSize <= |padded|
            && Forward(h, st, es)[i] == Row(h, StateTo(h, st, padded, lo), padded[lo..lo + h.blockSize], es[i].q)
  {
    hide BlockOut, OutTo, StateTo, Whole, Row, PadLength, Padding, Forward, FinalState, BlockStart;
    var size, padded := h.blockSize, Pad(h, es);
    var lo := BlockStart(i, size);
    BlockWithin(h, es, i);
    var blk := padded[lo..lo + size];
    RunToEnd(h, st, es);
    BlockAt(h, st, padded, lo);
    BlockOutAt(h, StateTo(h, st, padded, lo), blk, i - lo);
    var out := OutTo(h, st, padded, |padded|);
    assert Forward(h, st, es)[i] == out[i] == out[lo..lo + size][i - lo];
    assert blk[i - lo] == padded[i] == es[i];
  }

  /** `row` is attention from q over every key of `es` before lo + size, the block at lo being the current one. */
  ghost predicate QuadraticAt(h: Head, es: seq<Entry>, lo: nat, q: Vec, row: Vec) {
    lo + h.blockSize <= |es| && row == QuadraticRow(h, es[..lo], es[lo..lo + h.blockSize], q)
  }

  /**
   Output i of `forward` is attention written out over every visible key: all positions before the block
   of i, and the block itself. Padding positions are masked keys.
   */
  lemma ForwardIsQuadratic(h: Head, es: seq<Entry>, i: nat)
    requires h.blockSize > 0 && i < |es|
    ensures QuadraticAt(h, Pad(h, es), BlockStart(i, h.blockSize), es[i].q, Forward(h, ZeroState(h), es)[i])
  {
    hide StateTo, Whole, Row, QuadraticRow, Pad, Forward, BlockStart, Summary;
    var padded, lo := Pad(h, es), BlockStart(i, h.blockSize);
    ForwardAt(h, ZeroState(h), es, i);
    StateToSummary(h, padded, lo);
    RowIsQuadratic(h, padded[..lo], padded[lo..lo + h.blockSize], es[i].q);
  }

  lemma StateToSummary(h: Head, es: seq<Entry>, lo: nat)
    requires h.blockSize > 0 && lo <= |es| && Whole(lo, h.blockSize)
    ensures StateTo(h, ZeroState(h), es, lo) == Summary(h, es[..lo])
  {
    RunStateIsSummary(h, Blocks(h.blockSize, es[..lo]));
    BlocksTotal(h.blockSize, es[..lo]);
  }

  // ----- padding -----

  /** Two blocks that differ only in what masked positions hold. */
  ghost predicate SameKeys(a: seq<Entry>, b: seq<Entry>) {
    |a| == |b| && forall i :: 0 <= i < |a| ==> a[i].valid == b[i].valid && (a[i].valid ==> a[i] == b[i])
  }

  lemma SameKeysUpdate(h: Head, st: State, a: seq<Entry>, b: seq<Entry>)
    requires SameKeys(a, b)
    ensures Update(h, st, a) == Update(h, st, b)
  {
    assert Features(h, a) == Features(h, b);
    assert Values(h, a) == Values(h, b);
  }

  lemma SameKeysRow(h: Head, st: State, a: seq<Entry>, b: seq<Entry>, q: Vec)
    requires SameKeys(a, b)
    ensures Row(h, st, a, q) == Row(h, st, b, q)
  {
    SameKeysUpdate(h, st, a, b);
    assert Values(h, a) == Values(h, b);
    forall j | 0 <= j < |a| ensures Scores(h, q, a)[j] == Scores(h, q, b)[j] {
      if a[j].valid { assert a[j] == b[j]; }
    }
    assert Scores(h, q, a) == Scores(h, q, b);
  }

  lemma MaskedBlockUpdate(h: Head, st: State, blk: seq<Entry>)
    requires Shaped(h, st) && forall i :: 0 <= i < |blk| ==> !blk[i].valid
    ensures Update(h, st, blk) == st
  {
    var p, v := Features(h, blk), Values(h, blk);
    forall f | 0 <= f < 2 * h.feat ensures Sum(Col(p, f)) == 0.0 {
      assert Col(p, f) == Zeros(|blk|);
      SumZeros(|blk|);
    }
    assert Update(h, st, blk).z == st.z;
    forall f | 0 <= f < 2 * h.feat ensures Update(h, st, blk).s[f] == st.s[f] {
      forall d | 0 <= d < h.dim ensures Dot(Col(p, f), Col(v, d)) == 0.0 {
        DotZeroLeft(Col(p, f), Col(v, d));
      }
    }
  }

  lemma {:induction false} MaskedRun(h: Head, st: State, es: seq<Entry>)
    requires h.blockSize > 0 && Whole(|es|, h.blockSize) && Shaped(h, st)
    requires forall i :: 0 <= i < |es| ==> !es[i].valid
    ensures RunState(h, st, Blocks(h.blockSize, es)) == st
    decreases |es|
  {
    if |es| > 0 {
      var front := es[..|es| - h.blockSize];
      MaskedRun(h, st, front);
      LastStep(h, st, es);
      MaskedBlockUpdate(h, st, es[|es| - h.blockSize..]);
    }
  }

  lemma SameKeysBlockOut(h: Head, st: State, a: seq<Entry>, b: seq<Entry>)
    requires SameKeys(a, b)
    ensures forall i :: 0 <= i < |a| && a[i].q == b[i].q ==> BlockOut(h, st, a)[i] == BlockOut(h, st, b)[i]
  {
    hide Row;
    forall i | 0 <= i < |a| && a[i].q == b[i].q
      ensures BlockOut(h, st, a)[i] == BlockOut(h, st, b)[i]
    {
      SameKeysRow(h, st, a, b, a[i].q);
    }
  }

  /** Outputs agree wherever the queries do. */
  ghost predicate AgreeOnQueries(a: seq<Entry>, b: seq<Entry>, outA: seq<Vec>, outB: seq<Vec>) {
    |a| == |b| == |outA| == |outB| && forall i :: 0 <= i < |a| && a[i].q == b[i].q ==> outA[i] == outB[i]
  }

  lemma AgreeAppend(a: seq<Entry>, b: seq<Entry>, outA: seq<Vec>, outB: seq<Vec>,
                    a': seq<Entry>, b': seq<Entry>, outA': seq<Vec>, outB': seq<Vec>)
    requires AgreeOnQueries(a, b, outA, outB) && AgreeOnQueries(a', b', outA', outB')
    ensures AgreeOnQueries(a + a', b + b', outA + outA', outB + outB')
  {}

  /** Runs over inputs with the same keys agree on the state, and on outputs where queries agree. */
  lemma {:induction false} SameKeysRun(h: Head, st: State, a: seq<Entry>, b: seq<Entry>)
    requires h.blockSize > 0 && Whole(|a|, h.blockSize) && SameKeys(a, b)
    ensures RunState(h, st, Blocks(h.blockSize, a)) == RunState(h, st, Blocks(h.blockSize, b))
    ensures AgreeOnQueries(a, b, RunOut(h, st, Blocks(h.blockSize, a)), RunOut(h, st, Blocks(h.blockSize, b)))
    decreases |a|
  {
    hide BlockOut, Update, Blocks;
    if |a| == 0 {
      assert a == b;
      BlocksTotal(h.blockSize, a);
      RunOutLength(h, st, Blocks(h.blockSize, a));
    } else {
      var cut := |a| - h.blockSize;
      var fa, fb, la, lb := a[..cut], b[..cut], a[cut..], b[cut..];
      SameKeysRun(h, st, fa, fb);
      SameKeysLast(h, st, a, b);
    }
  }

  lemma SameKeysLast(h: Head, st: State, a: seq<Entry>, b: seq<Entry>)
    requires h.blockSize > 0 && Whole(|a|, h.blockSize) && SameKeys(a, b) && |a| > 0
    requires var cut := |a| - h.blockSize;
             && RunState(h, st, Blocks(h.blockSize, a[..cut])) == RunState(h, st, Blocks(h.blockSize, b[..cut]))
             && AgreeOnQueries(a[..cut], b[..cut], RunOut(h, st, Blocks(h.blockSize, a[..cut])),
               RunOut(h, st, Blocks(h.blockSize, b[..cut])))
    ensures RunState(h, st, Blocks(h.blockSize, a)) == RunState(h, st, Blocks(h.blockSize, b))
    ensures AgreeOnQueries(a, b, RunOut(h, st, Blocks(h.blockSize, a)), RunOut(h, st, Blocks(h.blockSize, b)))
  {
    hide BlockOut, Update, Blocks, RunState, RunOut, AgreeOnQueries;
    var cut := |a| - h.blockSize;
    var fa, fb, la, lb := a[..cut], b[..cut], a[cut..], b[cut..];
    LastStep(h, st, a);
    LastStep(h, st, b);
    var mid := RunState(h, st, Blocks(h.blockSize, fa));
    assert SameKeys(la, lb) by { SameKeysSlice(a, b, cut); }
    SameKeysUpdate(h, mid, la, lb);
    SameKeysBlockOut(h, mid, la, lb);
    AgreeOne(la, lb, BlockOut(h, mid, la), BlockOut(h, mid, lb));
    AgreeAppend(fa, fb, RunOut(h, st, Blocks(h.blockSize, fa)), RunOut(h, st, Blocks(h.blockSize, fb)),
                la, lb, BlockOut(h, mid, la), BlockOut(h, mid, lb));
    CutRejoin(a, cut);
    CutRejoin(b, cut);
  }

  lemma SameKeysSlice(a: seq<Entry>, b: seq<Entry>, cut: nat)
    requires SameKeys(a, b) && cut <= |a|
    ensures SameKeys(a[cut..], b[cut..])
  {}

  lemma AgreeOne(a: seq<Entry>, b: seq<Entry>, outA: seq<Vec>, outB: seq<Vec>)
    requires |a| == |b| == |outA| == |outB|
    requires forall i :: 0 <= i < |a| && a[i].q == b[i].q ==> outA[i] == outB[i]
    ensures AgreeOnQueries(a, b, outA, outB)
  {}

  lemma LastStep(h: Head, st: State, es: seq<Entry>)
    requires h.blockSize > 0 && Whole(|es|, h.blockSize) && |es| > 0
    ensures var cut := |es| - h.blockSize;
            var mid := RunState(h, st, Blocks(h.blockSize, es[..cut]));
            && RunState(h, st, Blocks(h.blockSize, es)) == Update(h, mid, es[cut..])
            && RunOut(h, st, Blocks(h.blockSize, es))
                == RunOut(h, st, Blocks(h.blockSize, es[..cut])) + BlockOut(h, mid, es[cut..])
  {
    hide BlockOut, Update;
    var blks := Blocks(h.blockSize, es);
    assert blks[..|blks| - 1] == Blocks(h.blockSize, es[..|es| - h.blockSize]);
  }

  /**
   Appending masked positions changes neither the outputs of the original positions nor the final
   state, however many whole blocks of masked keys that adds and whatever the masked positions hold.
   */
  lemma PaddingNeutral(h: Head, st: State, es: seq<Entry>, extra: seq<Entry>)
    requires h.blockSize > 0 && Shaped(h, st)
    requires forall i :: 0 <= i < |extra| ==> !extra[i].valid
    ensures Forward(h, st, es + extra)[..|es|] == Forward(h, st, es)
    ensures FinalState(h, st, es + extra) == FinalState(h, st, es)
  {
    hide BlockOut, Update, RunState, RunOut, Blocks, Whole, PadLength;
    var size := h.blockSize;
    var short, long := Pad(h, es), Pad(h, es + extra);
    PadLengthMinimal(|es|, |long|, size);
    var head, tail := long[..|short|], long[|short|..];
    assert long == head + tail;
    WholeAdd(|short|, |tail|, size);
    BlocksAppend(size, head, tail);
    assert SameKeys(short, head);
    SameKeysRun(h, st, short, head);
    var bh, bt := Blocks(size, head), Blocks(size, tail);
    RunSplit(h, st, bh, bt);
    RunShaped(h, st, bh);
    MaskedRun(h, RunState(h, st, bh), tail);
    AgreePrefix(short, head, RunOut(h, st, Blocks(size, short)), RunOut(h, st, bh),
                RunOut(h, RunState(h, st, bh), bt), |es|);
  }

  lemma AgreePrefix(a: seq<Entry>, b: seq<Entry>, outA: seq<Vec>, outB: seq<Vec>, rest: seq<Vec>, n: nat)
    requires AgreeOnQueries(a, b, outA, outB) && n <= |a|
    requires forall i :: 0 <= i < n ==> a[i].q == b[i].q
    ensures (outB + rest)[..n] == outA[..n]
  {}

  // ----- the BD3LM staircase -----

  /** Noisy half of the staircase: block n queries the clean state of blocks 0..n-1. */
  function NoisyOut(h: Head, st: State, noisy: seq<seq<Entry>>, clean: seq<seq<Entry>>): seq<Vec>
    requires |noisy| == |clean|
  {
    if |noisy| == 0 then []
    else
      var n := |noisy| - 1;
      NoisyOut(h, st, noisy[..n], clean[..n]) + BlockOut(h, RunState(h, st, clean[..n]), noisy[n])
  }

  /** The part of a mask over a half; a short mask leaves positions without an entry. */
  function HalfMask(mask: Option<seq<bool>>, from: nat, to: nat): Option<seq<bool>>
    requires from <= to
  {
    if mask.None? then None
    else Some(mask.value[Least(from, |mask.value|)..Least(to, |mask.value|)])
  }

  datatype Halves = Halves(noisy: seq<Entry>, clean: seq<Entry>)

  /** The [noisy | clean] input of a BD3LM call as two sequences of positions. */
  function SplitHalves(q: seq<Vec>, k: seq<Vec>, v: seq<Vec>, mask: Option<seq<bool>>, half: nat): (r: Halves)
    requires |q| == |k| == |v| == 2 * half && (mask.Some? ==> |mask.value| <= 2 * half)
    ensures |r.noisy| == |r.clean| == half
  {
    Halves(Entries(q[..half], k[..half], v[..half], HalfMask(mask, 0, half)),
           Entries(q[half..], k[half..], v[half..], HalfMask(mask, half, 2 * half)))
  }

  /** What `forward_bd3lm` returns. */
  function Staircase(h: Head, noisy: seq<Entry>, clean: seq<Entry>): seq<Vec>
    requires h.blockSize > 0 && |noisy| == |clean|
  {
    var bn, bc := Blocks(h.blockSize, Pad(h, noisy)), Blocks(h.blockSize, Pad(h, clean));
    BlocksTotal(h.blockSize, Pad(h, noisy));
    BlocksTotal(h.blockSize, Pad(h, clean));
    SpanInjective(|bn|, |bc|, h.blockSize);
    NoisyOutLength(h, ZeroState(h), bn, bc);
    NoisyOut(h, ZeroState(h), bn, bc)[..|noisy|] + Forward(h, ZeroState(h), clean)
  }

  lemma {:induction false} NoisyOutLength(h: Head, st: State, noisy: seq<seq<Entry>>, clean: seq<seq<Entry>>)
    requires |noisy| == |clean|
    ensures |NoisyOut(h, st, noisy, clean)| == |Flat(noisy)|
  {
    if |noisy| > 0 { NoisyOutLength(h, st, noisy[..|noisy| - 1], clean[..|noisy| - 1]); }
  }

  /** The noisy outputs of the blocks below lo. */
  function NoisyTo(h: Head, st: State, noisy: seq<Entry>, clean: seq<Entry>, lo: nat): (out: seq<Vec>)
    requires h.blockSize > 0 && |noisy| == |clean| && lo <= |noisy| && Whole(lo, h.blockSize)
    ensures |out| == lo
  {
    var bn, bc := Blocks(h.blockSize, noisy[..lo]), Blocks(h.blockSize, clean[..lo]);
    SameBlockCount(h.blockSize, noisy[..lo], clean[..lo]);
    BlocksTotal(h.blockSize, noisy[..lo]);
    NoisyOutLength(h, st, bn, bc);
    NoisyOut(h, st, bn, bc)
  }

  lemma EmptyNoisy(h: Head, st: State, noisy: seq<Entry>, clean: seq<Entry>)
    requires h.blockSize > 0 && |noisy| == |clean|
    ensures NoisyTo(h, st, noisy, clean, 0) == []
  {}

  lemma StaircaseParts(h: Head, noisy: seq<Entry>, clean: seq<Entry>)
    requires h.blockSize > 0 && |noisy| == |clean|
    ensures Staircase(h, noisy, clean)
         == NoisyTo(h, ZeroState(h), Pad(h, noisy), Pad(h, clean), |Pad(h, noisy)|)[..|noisy|]
          + Forward(h, ZeroState(h), clean)
  {
    hide NoisyOut, Forward, Blocks, Whole, PadLength;
    assert Pad(h, noisy)[..|Pad(h, noisy)|] == Pad(h, noisy);
    assert Pad(h, clean)[..|Pad(h, clean)|] == Pad(h, clean);
  }

  lemma SameBlockCount(size: nat, a: seq<Entry>, b: seq<Entry>)
    requires size > 0 && |a| == |b| && Whole(|a|, size)
    ensures |Blocks(size, a)| == |Blocks(size, b)|
  {
    BlocksTotal(size, a);
    BlocksTotal(size, b);
    SpanInjective(|Blocks(size, a)|, |Blocks(size, b)|, size);
  }

  lemma NoisyStep(h: Head, st: State, noisy: seq<Entry>, clean: seq<Entry>, lo: nat)
    requires h.blockSize > 0 && |noisy| == |clean| && Whole(lo, h.blockSize) && lo + h.blockSize <= |noisy|
    ensures Whole(lo + h.blockSize, h.blockSize)
    ensures NoisyTo(h, st, noisy, clean, lo + h.blockSize)
         == NoisyTo(h, st, noisy, clean, lo) + BlockOut(h, StateTo(h, st, clean, lo), noisy[lo..lo + h.blockSize])
  {
    hide BlockOut, Update, Blocks;
    BlocksStep(h.blockSize, noisy, lo);
    BlocksStep(h.blockSize, clean, lo);
    SameBlockCount(h.blockSize, noisy[..lo], clean[..lo]);
    var bn, bc := Blocks(h.blockSize, noisy[..lo]), Blocks(h.blockSize, clean[..lo]);
    DropAppend(bn, [noisy[lo..lo + h.blockSize]]);
    DropAppend(bc, [clean[lo..lo + h.blockSize]]);
  }

  /** The block loop of the hybrid staircase: both queries read the state before the update. */
  method HybridBlocks(h: Head, noisy: seq<Entry>, clean: seq<Entry>, numBlocks: nat)
    returns (outNoisy: seq<Vec>, outClean: seq<Vec>)
    requires h.kind.Hybrid? && h.blockSize > 0 && |noisy| == |clean| == Span(numBlocks, h.blockSize)
    ensures Whole(|noisy|, h.blockSize)
    ensures outNoisy == NoisyTo(h, ZeroState(h), noisy, clean, |noisy|)
    ensures outClean == OutTo(h, ZeroState(h), clean, |clean|)
  {
    hide BlockOut, Update, OutTo, StateTo, NoisyTo, NoisyOut, LinearRows, Whole, ZeroState;
    SpansWhole(h.blockSize);
    var size, st := h.blockSize, ZeroState(h);
    ghost var zero := ZeroState(h);
    outNoisy, outClean := [], [];
    EmptyRun(h, zero, clean);
    EmptyNoisy(h, zero, noisy, clean);
    for n := 0 to numBlocks
      invariant Span(n, size) <= |noisy| == |clean|
      invariant outNoisy == NoisyTo(h, zero, noisy, clean, Span(n, size))
      invariant outClean == OutTo(h, zero, clean, Span(n, size))
      invariant st == StateTo(h, zero, clean, Span(n, size))
    {
      var lo := Span(n, size);
      SpanMonotone(n + 1, numBlocks, size);
      RunStep(h, zero, clean, lo);
      NoisyStep(h, zero, noisy, clean, lo);
      var bn, bc := noisy[lo..lo + size], clean[lo..lo + size];
      outNoisy := outNoisy + BlockOut(h, st, bn);
      outClean := outClean + BlockOut(h, st, bc);
      st := Update(h, st, bc);
    }
  }

  /** BlockSoftmaxLinearHybrid.forward_bd3lm on one head: pad each half, walk the blocks, cut the padding off. */
  method HybridBd3lm(h: Head, q: seq<Vec>, k: seq<Vec>, v: seq<Vec>, half: nat, mask: Option<seq<bool>>)
    returns (out: seq<Vec>)
    requires h.kind.Hybrid? && h.blockSize > 0
    requires |q| == |k| == |v| == 2 * half && (mask.Some? ==> |mask.value| <= 2 * half)
    ensures var r := SplitHalves(q, k, v, mask, half); out == Staircase(h, r.noisy, r.clean)
  {
    hide OutTo, StateTo, PaddedInput, NumBlocks, NoisyTo, Forward, Staircase, Entries, Whole, Span, PadLength;
    NumBlocksPad(half, h.blockSize);
    var noisyMask, cleanMask := HalfMask(mask, 0, half), HalfMask(mask, half, 2 * half);
    var noisy := PaddedInput(h, q[..half], k[..half], v[..half], noisyMask);
    var clean := PaddedInput(h, q[half..], k[half..], v[half..], cleanMask);
    PaddedInputIsPad(h, q[..half], k[..half], v[..half], noisyMask);
    PaddedInputIsPad(h, q[half..], k[half..], v[half..], cleanMask);
    var outNoisy, outClean := HybridBlocks(h, noisy, clean, NumBlocks(half, h.blockSize));
    ghost var r := SplitHalves(q, k, v, mask, half);
    RunToEnd(h, ZeroState(h), r.clean);
    StaircaseParts(h, r.noisy, r.clean);
    out := outNoisy[..half] + outClean[..half];
  }

  /** The block loop of the linear staircase: the clean query reads the state after the update. */
  method LinearBlocks(h: Head, noisy: seq<Entry>, clean: seq<Entry>, numBlocks: nat)
    returns (outNoisy: seq<Vec>, outClean: seq<Vec>)
    requires h.kind.Linear? && h.blockSize > 0 && |noisy| == |clean| == Span(numBlocks, h.blockSize)
    ensures Whole(|noisy|, h.blockSize)
    ensures outNoisy == NoisyTo(h, ZeroState(h), noisy, clean, |noisy|)
    ensures outClean == OutTo(h, ZeroState(h), clean, |clean|)
  {
    hide BlockOut, Update, OutTo, StateTo, NoisyTo, NoisyOut, LinearRows, Whole, ZeroState;
    SpansWhole(h.blockSize);
    var size, st := h.blockSize, ZeroState(h);
    ghost var zero := ZeroState(h);
    outNoisy, outClean := [], [];
    EmptyRun(h, zero, clean);
    EmptyNoisy(h, zero, noisy, clean);
    for n := 0 to numBlocks
      invariant Span(n, size) <= |noisy| == |clean|
      invariant outNoisy == NoisyTo(h, zero, noisy, clean, Span(n, size))
      invariant outClean == OutTo(h, zero, clean, Span(n, size))
      invariant st == StateTo(h, zero, clean, Span(n, size))
    {
      var lo := Span(n, size);
      SpanMonotone(n + 1, numBlocks, size);
      RunStep(h, zero, clean, lo);
      NoisyStep(h, zero, noisy, clean, lo);
      var bn, bc := noisy[lo..lo + size], clean[lo..lo + size];
      LinearBlockOut(h, st, bn);
      LinearBlockOut(h, st, bc);
      outNoisy := outNoisy + LinearRows(h, Update(h, st, bn), bn);
      st := Update(h, st, bc);
      outClean := outClean + LinearRows(h, st, bc);
    }
  }

  /**
   OrderInvariantKernelLinearAttention.forward_bd3lm on one head: pad each half, walk the blocks, cut the padding
   off.
   */
  method LinearBd3lm(h: Head, q: seq<Vec>, k: seq<Vec>, v: seq<Vec>, half: nat, mask: Option<seq<bool>>)
    returns (out: seq<Vec>)
    requires h.kind.Linear? && h.blockSize > 0
    requires |q| == |k| == |v| == 2 * half && (mask.Some? ==> |mask.value| <= 2 * half)
    ensures var r := SplitHalves(q, k, v, mask, half); out == Staircase(h, r.noisy, r.clean)
  {
    hide OutTo, StateTo, PaddedInput, NumBlocks, NoisyTo, Forward, Staircase, Entries, Whole, Span, PadLength;
    NumBlocksPad(half, h.blockSize);
    var noisyMask, cleanMask := HalfMask(mask, 0, half), HalfMask(mask, half, 2 * half);
    var noisy := PaddedInput(h, q[..half], k[..half], v[..half], noisyMask);
    var clean := PaddedInput(h, q[half..], k[half..], v[half..], cleanMask);
    PaddedInputIsPad(h, q[..half], k[..half], v[..half], noisyMask);
    PaddedInputIsPad(h, q[half..], k[half..], v[half..], cleanMask);
    var outNoisy, outClean := LinearBlocks(h, noisy, clean, NumBlocks(half, h.blockSize));
    ghost var r := SplitHalves(q, k, v, mask, half);
    RunToEnd(h, ZeroState(h), r.clean);
    StaircaseParts(h, r.noisy, r.clean);
    out := outNoisy[..half] + outClean[..half];
  }

  lemma {:induction false} NoisyPrefix(h: Head, st: State, noisy: seq<Entry>, clean: seq<Entry>, lo: nat, hi: nat)
    requires h.blockSize > 0 && |noisy| == |clean| && lo <= hi <= |noisy|
    requires Whole(lo, h.blockSize) && Whole(hi, h.blockSize)
    ensures NoisyTo(h, st, noisy, clean, hi)[..lo] == NoisyTo(h, st, noisy, clean, lo)
    decreases hi
  {
    hide BlockOut, StateTo, NoisyTo;
    if lo < hi {
      var mid := hi - h.blockSize;
      WholeGap(lo, hi, h.blockSize);
      NoisyPrefix(h, st, noisy, clean, lo, mid);
      NoisyStep(h, st, noisy, clean, mid);
    }
  }

  /** Block at position lo of the noisy half, padded. */
  lemma NoisyBlock(h: Head, st: State, noisy: seq<Entry>, clean: seq<Entry>, lo: nat)
    requires h.blockSize > 0 && |noisy| == |clean| && Whole(|noisy|, h.blockSize)
    requires Whole(lo, h.blockSize) && lo + h.blockSize <= |noisy|
    ensures NoisyTo(h, st, noisy, clean, |noisy|)[lo..lo + h.blockSize]
         == BlockOut(h, StateTo(h, st, clean, lo), noisy[lo..lo + h.blockSize])
  {
    hide BlockOut, NoisyTo, StateTo, Whole;
    var hi := lo + h.blockSize;
    NoisyStep(h, st, noisy, clean, lo);
    NoisyPrefix(h, st, noisy, clean, hi, |noisy|);
    var out := NoisyTo(h, st, noisy, clean, |noisy|);
    assert out[lo..hi] == out[..hi][lo..];
    DropAppend(NoisyTo(h, st, noisy, clean, lo), BlockOut(h, StateTo(h, st, clean, lo), noisy[lo..hi]));
  }

  /** The block of a padded sequence that starts at lo is the padding of the positions it holds. */
  lemma PadOfBlock(h: Head, es: seq<Entry>, lo: nat, hi: nat)
    requires h.blockSize > 0 && Whole(lo, h.blockSize) && lo < hi <= |es|
    requires hi == lo + h.blockSize || (hi == |es| && hi < lo + h.blockSize)
    ensures lo + h.blockSize <= |Pad(h, es)| && Pad(h, es[lo..hi]) == Pad(h, es)[lo..lo + h.blockSize]
  {
    hide Whole, PadLength, Padding, Pad;
    var n, tail: nat := PadLength(|es|, h.blockSize), lo + h.blockSize - hi;
    PadWithin(hi - lo, h.blockSize);
    PadIs(h, es, n);
    PadIs(h, es[lo..hi], tail);
    PaddingLength(h, n);
    PaddingLength(h, tail);
    PadLengthAdd(lo, |es| - lo, h.blockSize);
    SliceAcross(es, Padding(h, n), lo, hi);
  }

  lemma PadWithin(len: nat, size: nat)
    requires 0 < len <= size
    ensures PadLength(len, size) == size - len
  {}

  /** A run over the single block that starts at lo. */
  lemma LastBlockForward(h: Head, st: State, part: seq<Entry>)
    requires h.blockSize > 0 && 0 < |part| <= h.blockSize
    ensures |Pad(h, part)| == h.blockSize
    ensures Forward(h, st, part) == BlockOut(h, st, Pad(h, part))[..|part|]
  {
    hide BlockOut, Update;
    var blk := Pad(h, part);
    assert blk[..0] == [] && blk[0..] == blk;
    assert Blocks(h.blockSize, blk) == [] + [blk];
    var one: seq<seq<Entry>> := [blk];
    assert one[..0] == [];
    assert RunOut(h, st, one) == RunOut(h, st, []) + BlockOut(h, st, blk);
  }

  /** Block of the noisy half that starts at lo == block of `forward` on clean[..lo] followed by it. */
  ghost predicate SequentialAt(h: Head, noisy: seq<Entry>, clean: seq<Entry>, lo: nat)
    requires h.blockSize > 0 && |noisy| == |clean| && lo < |noisy|
  {
    var hi := if lo + h.blockSize <= |noisy| then lo + h.blockSize else |noisy|;
    && |Staircase(h, noisy, clean)| == 2 * |noisy|
    && Staircase(h, noisy, clean)[lo..hi] == Forward(h, ZeroState(h), clean[..lo] + noisy[lo..hi])[lo..]
  }

  /**
   The staircase is sequential decoding. Its clean half is `forward` on the clean sequence; block n of
   its noisy half is block n of `forward` on clean blocks 0..n-1 followed by noisy block n.
   */
  lemma StaircaseIsSequential(h: Head, noisy: seq<Entry>, clean: seq<Entry>)
    requires h.blockSize > 0 && |noisy| == |clean|
    ensures |Staircase(h, noisy, clean)| == 2 * |noisy|
    ensures Staircase(h, noisy, clean)[|noisy|..] == Forward(h, ZeroState(h), clean)
    ensures forall lo: nat :: lo < |noisy| && lo % h.blockSize == 0 ==> SequentialAt(h, noisy, clean, lo)
  {
    hide SequentialAt, NoisyTo, Forward;
    StaircaseParts(h, noisy, clean);
    forall lo: nat | lo < |noisy| && lo % h.blockSize == 0 ensures SequentialAt(h, noisy, clean, lo) {
      WholeIsMod(lo, h.blockSize);
      StaircaseBlock(h, noisy, clean, lo);
    }
  }

  lemma StaircaseBlock(h: Head, noisy: seq<Entry>, clean: seq<Entry>, lo: nat)
    requires h.blockSize > 0 && |noisy| == |clean| && lo < |noisy| && Whole(lo, h.blockSize)
    ensures SequentialAt(h, noisy, clean, lo)
  {
    hide BlockOut, Update, RunState, RunOut, Blocks, Whole, PadLength, NoisyTo, NoisyOut, Staircase, Forward,
         FinalState, Pad, StateTo, ZeroState;
    var size, zero := h.blockSize, ZeroState(h);
    var hi := if lo + size <= |noisy| then lo + size else |noisy|;
    var pn, pc, part := Pad(h, noisy), Pad(h, clean), noisy[lo..hi];
    StaircaseParts(h, noisy, clean);
    PadOfBlock(h, noisy, lo, hi);
    PadSameLength(h, noisy, clean);
    NoisyBlock(h, zero, pn, pc, lo);
    var st, all := StateTo(h, zero, pc, lo), NoisyTo(h, zero, pn, pc, |pn|);
    SliceWithin(all, Forward(h, zero, clean), lo, hi, lo + size, |noisy|);

    DropAppend(clean[..lo], part);
    SplitAtWhole(h, zero, clean[..lo] + part, lo);
    CleanState(h, clean, lo);
    LastBlockForward(h, st, part);
    DropAppend(Forward(h, zero, clean[..lo]), Forward(h, st, part));
  }

  lemma CleanState(h: Head, clean: seq<Entry>, lo: nat)
    requires h.blockSize > 0 && lo <= |clean| && Whole(lo, h.blockSize)
    ensures FinalState(h, ZeroState(h), clean[..lo]) == StateTo(h, ZeroState(h), Pad(h, clean), lo)
  {
    hide RunState, Blocks;
    WholePad(lo, h.blockSize);
    assert Pad(h, clean[..lo]) == clean[..lo] == Pad(h, clean)[..lo];
  }
}
