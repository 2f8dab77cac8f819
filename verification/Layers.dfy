/**
 A stack of decoder layers, recomputed over a whole window and continued from a prefix cache.

 A layer projects every position to per-head queries, keys and values, attends, and finishes each
 position by itself (output projection, residuals, norms, MLP). Its attention is block-causal softmax
 or one of the two recurrent classes.
 */
module Layers {
  import opened Vectors
  import opened Softmax
  import opened BlockMath
  import opened AttentionMask
  import opened Sequences
  import opened BlockAttention

  type Token = int

  /** Projections of one position: one query per head, one key and value per key/value head. */
  datatype Qkv = Qkv(q: seq<Vec>, k: seq<Vec>, v: seq<Vec>)

  datatype Attn = SoftmaxAttn(exp: real -> real, scale: real, dim: nat, count: nat)
                | RecurrentAttn(heads: seq<Head>)

  datatype Layer = Layer(project: (Vec, nat) -> Qkv, groups: pos, attn: Attn, finish: (Vec, seq<Vec>) -> Vec)

  datatype Model = Model(embed: Token -> Vec, layers: seq<Layer>, logits: Vec -> Vec)

  function NumHeads(a: Attn): nat {
    match a
    case SoftmaxAttn(_, _, _, count) => count
    case RecurrentAttn(heads) => |heads|
  }

  ghost predicate LayerOk(l: Layer) {
    l.attn.RecurrentAttn? ==> forall h :: 0 <= h < |l.attn.heads| ==> l.attn.heads[h].blockSize > 0
  }

  ghost predicate ModelOk(m: Model) {
    forall n :: 0 <= n < |m.layers| ==> LayerOk(m.layers[n])
  }

  /** The attention block size of every recurrent head divides the generation block length. */
  ghost predicate Aligned(l: Layer, bl: pos) {
    && LayerOk(l)
    && (l.attn.RecurrentAttn? ==> forall h :: 0 <= h < |l.attn.heads| ==> Whole(bl, l.attn.heads[h].blockSize))
  }

  /** No head is OrderInvariantKernelLinearAttention. */
  ghost predicate NoPureLinear(l: Layer) {
    l.attn.RecurrentAttn? ==> forall h :: 0 <= h < |l.attn.heads| ==> l.attn.heads[h].kind.Hybrid?
  }

  // ----- projections -----

  function Project(l: Layer, hs: seq<Vec>, start: nat): (ps: seq<Qkv>)
    ensures |ps| == |hs|
  {
    seq(|hs|, i requires 0 <= i < |hs| => l.project(hs[i], start + i))
  }

  function Pick(vs: seq<Vec>, i: nat): Vec {
    if i < |vs| then vs[i] else []
  }

  /** Queries of head h, and the keys and values its group shares (`repeat_kv`). */
  function Queries(ps: seq<Qkv>, h: nat): (r: seq<Vec>)
    ensures |r| == |ps|
  {
    seq(|ps|, j requires 0 <= j < |ps| => Pick(ps[j].q, h))
  }

  function Shared(xs: seq<seq<Vec>>, groups: pos, h: nat): (r: seq<Vec>)
    ensures |r| == |xs|
  {
    seq(|xs|, j requires 0 <= j < |xs| => Pick(xs[j], h / groups))
  }

  function KeysOf(ps: seq<Qkv>): (r: seq<seq<Vec>>)
    ensures |r| == |ps|
  {
    seq(|ps|, j requires 0 <= j < |ps| => ps[j].k)
  }

  function ValuesOf(ps: seq<Qkv>): (r: seq<seq<Vec>>)
    ensures |r| == |ps|
  {
    seq(|ps|, j requires 0 <= j < |ps| => ps[j].v)
  }

  function HeadEntries(ps: seq<Qkv>, groups: pos, h: nat, valid: bool): (es: seq<Entry>)
    ensures |es| == |ps|
  {
    seq(|ps|, j requires 0 <= j < |ps| =>
      Entry(Pick(ps[j].q, h), Pick(ps[j].k, h / groups), Pick(ps[j].v, h / groups), valid))
  }

  // ----- softmax attention of one query -----

  /** Scores of a query at position i under the block-lower-triangular mask. */
  function BlockScores(scale: real, q: Vec, keys: seq<Vec>, i: nat, bl: pos): (s: seq<Score>)
    ensures |s| == |keys|
  {
    seq(|keys|, j requires 0 <= j < |keys| => if j / bl <= i / bl then Fin(Times(Dot(q, keys[j]), scale)) else Masked)
  }

  function OpenScores(scale: real, q: Vec, keys: seq<Vec>): (s: seq<Score>)
    ensures |s| == |keys|
  {
    seq(|keys|, j requires 0 <= j < |keys| => Fin(Times(Dot(q, keys[j]), scale)))
  }

  function Attend(exp: real -> real, scores: seq<Score>, values: seq<Vec>, dim: nat): Vec {
    VecMat(SoftmaxOf(exp, scores), values, dim)
  }

  // ----- recomputing a window -----

  /**
   Output of head h over a window. `linearValid` is the validity, the same for all keys, that pure-linear heads
   infer from the additive mask; hybrid heads ignore the mask.
   */
  function AttnHead(l: Layer, ps: seq<Qkv>, bl: pos, linearValid: bool, h: nat): (out: seq<Vec>)
    requires LayerOk(l) && h < NumHeads(l.attn)
    ensures |out| == |ps|
  {
    match l.attn
    case SoftmaxAttn(exp, scale, dim, _) =>
      var qs, ks, vs := Queries(ps, h), Shared(KeysOf(ps), l.groups, h), Shared(ValuesOf(ps), l.groups, h);
      seq(|ps|, i requires 0 <= i < |ps| => Attend(exp, BlockScores(scale, qs[i], ks, i, bl), vs, dim))
    case RecurrentAttn(heads) =>
      Forward(heads[h], ZeroState(heads[h]), HeadEntries(ps, l.groups, h, heads[h].kind.Hybrid? || linearValid))
  }

  /** The outputs of all heads at position i. */
  function Gather(outs: seq<seq<Vec>>, i: nat): seq<Vec> {
    seq(|outs|, h requires 0 <= h < |outs| => Pick(outs[h], i))
  }

  function Finish(l: Layer, hs: seq<Vec>, outs: seq<seq<Vec>>): (r: seq<Vec>)
    ensures |r| == |hs|
  {
    seq(|hs|, i requires 0 <= i < |hs| => l.finish(hs[i], Gather(outs, i)))
  }

  function AttnHeads(l: Layer, ps: seq<Qkv>, bl: pos, linearValid: bool): (outs: seq<seq<Vec>>)
    requires LayerOk(l)
    ensures |outs| == NumHeads(l.attn) && forall h :: 0 <= h < |outs| ==> |outs[h]| == |ps|
  {
    seq(NumHeads(l.attn), h requires 0 <= h < NumHeads(l.attn) => AttnHead(l, ps, bl, linearValid, h))
  }

  function LayerOut(l: Layer, hs: seq<Vec>, bl: pos, linearValid: bool): (out: seq<Vec>)
    requires LayerOk(l)
    ensures |out| == |hs|
  {
    Finish(l, hs, AttnHeads(l, Project(l, hs, 0), bl, linearValid))
  }

  /** Hidden states after the first n layers. */
  function Hidden(m: Model, hs: seq<Vec>, bl: pos, linearValid: bool, n: nat): (out: seq<Vec>)
    requires ModelOk(m) && n <= |m.layers|
    ensures |out| == |hs|
  {
    if n == 0 then hs else LayerOut(m.layers[n - 1], Hidden(m, hs, bl, linearValid, n - 1), bl, linearValid)
  }

  function Embed(m: Model, tokens: seq<Token>): (hs: seq<Vec>)
    ensures |hs| == |tokens|
  {
    seq(|tokens|, i requires 0 <= i < |tokens| => m.embed(tokens[i]))
  }

  function LogitRows(m: Model, hs: seq<Vec>): (r: seq<Vec>)
    ensures |r| == |hs|
  {
    seq(|hs|, i requires 0 <= i < |hs| => m.logits(hs[i]))
  }

  // ----- continuing from a cache -----

  /** What the cache holds for a layer: appended keys and values, or one (S, Z) per head. */
  datatype Slot = Kv(keys: seq<seq<Vec>>, values: seq<seq<Vec>>) | Rec(states: seq<State>)

  ghost predicate SlotFits(l: Layer, s: Slot) {
    match l.attn
    case SoftmaxAttn(_, _, _, _) => s.Kv? && |s.keys| == |s.values|
    case RecurrentAttn(heads) => s.Rec? && |s.states| == |heads|
  }

  function EmptySlot(l: Layer): (s: Slot)
    ensures SlotFits(l, s)
  {
    match l.attn
    case SoftmaxAttn(_, _, _, _) => Kv([], [])
    case RecurrentAttn(heads) => Rec(seq(|heads|, h requires 0 <= h < |heads| => ZeroState(heads[h])))
  }

  function CachedHead(l: Layer, s: Slot, ps: seq<Qkv>, h: nat): (out: seq<Vec>)
    requires LayerOk(l) && SlotFits(l, s) && h < NumHeads(l.attn)
    ensures |out| == |ps|
  {
    match l.attn
    case SoftmaxAttn(exp, scale, dim, _) =>
      var qs := Queries(ps, h);
      var ks, vs := Shared(s.keys + KeysOf(ps), l.groups, h), Shared(s.values + ValuesOf(ps), l.groups, h);
      seq(|ps|, i requires 0 <= i < |ps| => Attend(exp, OpenScores(scale, qs[i], ks), vs, dim))
    case RecurrentAttn(heads) =>
      Forward(heads[h], s.states[h], HeadEntries(ps, l.groups, h, true))
  }

  function CachedHeads(l: Layer, s: Slot, ps: seq<Qkv>): (outs: seq<seq<Vec>>)
    requires LayerOk(l) && SlotFits(l, s)
    ensures |outs| == NumHeads(l.attn) && forall h :: 0 <= h < |outs| ==> |outs[h]| == |ps|
  {
    seq(NumHeads(l.attn), h requires 0 <= h < NumHeads(l.attn) => CachedHead(l, s, ps, h))
  }

  /** Layer output for the positions from `start` on, given the cached prefix. */
  function CachedOut(l: Layer, s: Slot, hs: seq<Vec>, start: nat): (out: seq<Vec>)
    requires LayerOk(l) && SlotFits(l, s)
    ensures |out| == |hs|
  {
    Finish(l, hs, CachedHeads(l, s, Project(l, hs, start)))
  }

  /** The slot after these positions have been committed. */
  function Commit(l: Layer, s: Slot, hs: seq<Vec>, start: nat): (r: Slot)
    requires LayerOk(l) && SlotFits(l, s)
    ensures SlotFits(l, r)
  {
    var ps := Project(l, hs, start);
    match l.attn
    case SoftmaxAttn(_, _, _, _) => Kv(s.keys + KeysOf(ps), s.values + ValuesOf(ps))
    case RecurrentAttn(heads) =>
      Rec(seq(|heads|, h requires 0 <= h < |heads| =>
        FinalState(heads[h], s.states[h], HeadEntries(ps, l.groups, h, true))))
  }

  ghost predicate SlotsFit(m: Model, slots: seq<Slot>) {
    |slots| == |m.layers| && forall n :: 0 <= n < |slots| ==> SlotFits(m.layers[n], slots[n])
  }

  function EmptySlots(m: Model): (slots: seq<Slot>)
    ensures SlotsFit(m, slots)
  {
    seq(|m.layers|, n requires 0 <= n < |m.layers| => EmptySlot(m.layers[n]))
  }

  function CachedHidden(m: Model, slots: seq<Slot>, hs: seq<Vec>, start: nat, n: nat): (out: seq<Vec>)
    requires ModelOk(m) && SlotsFit(m, slots) && n <= |m.layers|
    ensures |out| == |hs|
  {
    if n == 0 then hs else CachedOut(m.layers[n - 1], slots[n - 1], CachedHidden(m, slots, hs, start, n - 1), start)
  }

  function CommitAll(m: Model, slots: seq<Slot>, hs: seq<Vec>, start: nat): (r: seq<Slot>)
    requires ModelOk(m) && SlotsFit(m, slots)
    ensures SlotsFit(m, r)
  {
    seq(|m.layers|, n requires 0 <= n < |m.layers| =>
      Commit(m.layers[n], slots[n], CachedHidden(m, slots, hs, start, n), start))
  }

  /** The cache after committing the first n blocks of a token sequence, one forward pass per block. */
  function Committed(m: Model, tokens: seq<Token>, bl: pos, n: nat): (slots: seq<Slot>)
    requires ModelOk(m) && Span(n, bl) <= |tokens|
    ensures SlotsFit(m, slots)
  {
    if n == 0 then EmptySlots(m)
    else
      var lo := Span(n - 1, bl);
      CommitAll(m, Committed(m, tokens, bl, n - 1), Embed(m, tokens[lo..lo + bl]), lo)
  }

  /** What recomputing a prefix would leave in the slot of a layer. */
  function SlotOf(l: Layer, hs: seq<Vec>): (s: Slot)
    requires LayerOk(l)
    ensures SlotFits(l, s)
  {
    Commit(l, EmptySlot(l), hs, 0)
  }

  // ----- a layer and its cache agree -----

  lemma ProjectAppend(l: Layer, p: seq<Vec>, b: seq<Vec>)
    ensures Project(l, p + b, 0) == Project(l, p, 0) + Project(l, b, |p|)
  {}

  lemma HeadEntriesAppend(a: seq<Qkv>, b: seq<Qkv>, groups: pos, h: nat, valid: bool)
    ensures HeadEntries(a + b, groups, h, valid) == HeadEntries(a, groups, h, valid) + HeadEntries(b, groups, h, valid)
  {}

  lemma SharedAppend(a: seq<seq<Vec>>, b: seq<seq<Vec>>, groups: pos, h: nat)
    ensures Shared(a + b, groups, h) == Shared(a, groups, h) + Shared(b, groups, h)
  {}

  lemma KvAppend(a: seq<Qkv>, b: seq<Qkv>)
    ensures KeysOf(a + b) == KeysOf(a) + KeysOf(b) && ValuesOf(a + b) == ValuesOf(a) + ValuesOf(b)
  {}

  /** Whole blocks below n come before every position from n on. */
  lemma {:induction false} BlockOrder(n: nat, i: nat, bl: pos)
    requires Whole(n, bl)
    ensures i < n ==> i / bl < n / bl
    ensures n <= i ==> n / bl <= i / bl
    ensures n <= i < n + bl ==> i / bl == n / bl
  {
    if n == 0 {
      RemainderUnique(0, 0, 0, bl);
      if i < bl { RemainderUnique(i, 0, i, bl); }
      assert 0 <= i / bl;
    } else {
      var i' := if i < bl then 0 else i - bl;
      BlockOrder(n - bl, i', bl);
      QuotientStep(n - bl, bl);
      if i < bl {
        RemainderUnique(i, 0, i, bl);
        assert 0 <= (n - bl) / bl;
      } else {
        QuotientStep(i - bl, bl);
      }
    }
  }

  lemma EarlyScores(scale: real, q: Vec, ka: seq<Vec>, kb: seq<Vec>, i: nat, bl: pos)
    requires Whole(|ka|, bl) && i < |ka|
    ensures BlockScores(scale, q, ka + kb, i, bl) == BlockScores(scale, q, ka, i, bl) + MaskedRow(|kb|)
  {
    hide Dot, Times, Whole;
    forall j | |ka| <= j < |ka + kb| ensures i / bl < j / bl {
      BlockOrder(|ka|, i, bl);
      BlockOrder(|ka|, j, bl);
    }
  }

  lemma LastScores(scale: real, q: Vec, keys: seq<Vec>, lo: nat, i: nat, bl: pos)
    requires Whole(lo, bl) && lo <= i < lo + bl == |keys|
    ensures BlockScores(scale, q, keys, i, bl) == OpenScores(scale, q, keys)
  {
    hide Dot, Times, Whole;
    forall j | 0 <= j < |keys| ensures j / bl <= i / bl {
      BlockOrder(lo, i, bl);
      BlockOrder(lo, j, bl);
    }
  }

  /** Keys masked at the end of a row do not contribute. */
  lemma AttendMaskedTail(exp: real -> real, s: seq<Score>, va: seq<Vec>, vb: seq<Vec>, dim: nat)
    requires |s| == |va|
    ensures Attend(exp, s + MaskedRow(|vb|), va + vb, dim) == Attend(exp, s, va, dim)
  {
    var n := |vb|;
    WeightsMaskedTail(exp, s, n);
    NormalizeZeroTail(Weights(exp, s), n);
    var w := SoftmaxOf(exp, s);
    forall c | 0 <= c < dim ensures Dot(w + Zeros(n), Col(va + vb, c)) == Dot(w, Col(va, c)) {
      ColAppend(va, vb, c);
      DotAppend(w, Zeros(n), Col(va, c), Col(vb, c));
      DotZeroLeft(Zeros(n), Col(vb, c));
    }
  }

  /** The keys and values that head h attends to. */
  lemma SharedSplit(pa: seq<Qkv>, pb: seq<Qkv>, groups: pos, h: nat)
    ensures Shared(KeysOf(pa + pb), groups, h) == Shared(KeysOf(pa), groups, h) + Shared(KeysOf(pb), groups, h)
    ensures Shared(ValuesOf(pa + pb), groups, h) == Shared(ValuesOf(pa), groups, h) + Shared(ValuesOf(pb), groups, h)
    ensures Shared(KeysOf(pa) + KeysOf(pb), groups, h) == Shared(KeysOf(pa), groups, h) + Shared(KeysOf(pb), groups, h)
    ensures Shared(ValuesOf(pa) + ValuesOf(pb), groups, h) ==
      Shared(ValuesOf(pa), groups, h) + Shared(ValuesOf(pb), groups, h)
  {
    hide Shared, KeysOf, ValuesOf;
    KvAppend(pa, pb);
    SharedAppend(KeysOf(pa), KeysOf(pb), groups, h);
    SharedAppend(ValuesOf(pa), ValuesOf(pb), groups, h);
  }

  lemma SoftmaxHeadAt(l: Layer, ps: seq<Qkv>, bl: pos, lv: bool, h: nat, i: nat)
    requires l.attn.SoftmaxAttn? && h < NumHeads(l.attn) && i < |ps|
    ensures AttnHead(l, ps, bl, lv, h)[i]
         == Attend(l.attn.exp, BlockScores(l.attn.scale, Pick(ps[i].q, h), Shared(KeysOf(ps), l.groups, h), i, bl),
                   Shared(ValuesOf(ps), l.groups, h), l.attn.dim)
  {
    hide Attend, BlockScores, Shared, KeysOf, ValuesOf;
  }

  lemma CachedHeadAt(l: Layer, pa: seq<Qkv>, pb: seq<Qkv>, h: nat, i: nat)
    requires l.attn.SoftmaxAttn? && h < NumHeads(l.attn) && i < |pb|
    ensures CachedHead(l, Kv(KeysOf(pa), ValuesOf(pa)), pb, h)[i]
         == Attend(l.attn.exp, OpenScores(l.attn.scale, Pick(pb[i].q, h), Shared(KeysOf(pa) + KeysOf(pb), l.groups, h)),
                   Shared(ValuesOf(pa) + ValuesOf(pb), l.groups, h), l.attn.dim)
  {
    hide Attend, OpenScores, Shared;
  }

  /** The prefix half: later keys are masked. */
  lemma SoftmaxEarly(l: Layer, pa: seq<Qkv>, pb: seq<Qkv>, bl: pos, lv: bool, h: nat, i: nat)
    requires l.attn.SoftmaxAttn? && h < NumHeads(l.attn) && Whole(|pa|, bl) && i < |pa|
    ensures AttnHead(l, pa + pb, bl, lv, h)[i] == AttnHead(l, pa, bl, lv, h)[i]
  {
    hide Attend, BlockScores, Whole, AttnHead, Shared, KeysOf, ValuesOf;
    var ka, kb := Shared(KeysOf(pa), l.groups, h), Shared(KeysOf(pb), l.groups, h);
    var va, vb := Shared(ValuesOf(pa), l.groups, h), Shared(ValuesOf(pb), l.groups, h);
    var q := Pick(pa[i].q, h);
    SoftmaxHeadAt(l, pa + pb, bl, lv, h, i);
    SoftmaxHeadAt(l, pa, bl, lv, h, i);
    SharedSplit(pa, pb, l.groups, h);
    EarlyScores(l.attn.scale, q, ka, kb, i, bl);
    AttendMaskedTail(l.attn.exp, BlockScores(l.attn.scale, q, ka, i, bl), va, vb, l.attn.dim);
  }

  /** The block half: no key is masked. */
  lemma SoftmaxLast(l: Layer, pa: seq<Qkv>, pb: seq<Qkv>, bl: pos, lv: bool, h: nat, i: nat)
    requires l.attn.SoftmaxAttn? && h < NumHeads(l.attn) && Whole(|pa|, bl) && i < |pb| == bl
    ensures AttnHead(l, pa + pb, bl, lv, h)[|pa| + i] == CachedHead(l, Kv(KeysOf(pa), ValuesOf(pa)), pb, h)[i]
  {
    hide Attend, BlockScores, OpenScores, Whole, AttnHead, CachedHead, Shared, KeysOf, ValuesOf;
    SoftmaxHeadAt(l, pa + pb, bl, lv, h, |pa| + i);
    CachedHeadAt(l, pa, pb, h, i);
    SharedSplit(pa, pb, l.groups, h);
    LastScores(l.attn.scale, Pick(pb[i].q, h), Shared(KeysOf(pa + pb), l.groups, h), |pa|, |pa| + i, bl);
  }

  lemma SoftmaxHeadSplit(l: Layer, pa: seq<Qkv>, pb: seq<Qkv>, bl: pos, lv: bool, h: nat)
    requires l.attn.SoftmaxAttn? && h < NumHeads(l.attn) && Whole(|pa|, bl) && |pb| == bl
    ensures AttnHead(l, pa + pb, bl, lv, h)
         == AttnHead(l, pa, bl, lv, h) + CachedHead(l, Kv(KeysOf(pa), ValuesOf(pa)), pb, h)
  {
    hide AttnHead, CachedHead, Whole, KeysOf, ValuesOf;
    var all, left := AttnHead(l, pa + pb, bl, lv, h), AttnHead(l, pa, bl, lv, h);
    var right := CachedHead(l, Kv(KeysOf(pa), ValuesOf(pa)), pb, h);
    forall i: nat | i < |pa| ensures all[i] == left[i] { SoftmaxEarly(l, pa, pb, bl, lv, h, i); }
    forall i: nat | i < |pb| ensures all[|pa| + i] == right[i] { SoftmaxLast(l, pa, pb, bl, lv, h, i); }
    Joined(all, left, right);
  }

  lemma RecurrentHeadSplit(l: Layer, pa: seq<Qkv>, pb: seq<Qkv>, bl: pos, h: nat)
    requires l.attn.RecurrentAttn? && h < NumHeads(l.attn) && Aligned(l, bl) && Whole(|pa|, bl)
    ensures var head := l.attn.heads[h];
            var ea, eb := HeadEntries(pa, l.groups, h, true), HeadEntries(pb, l.groups, h, true);
            var mid := FinalState(head, ZeroState(head), ea);
            && AttnHead(l, pa + pb, bl, true, h) == AttnHead(l, pa, bl, true, h) + Forward(head, mid, eb)
            && FinalState(head, ZeroState(head), HeadEntries(pa + pb, l.groups, h, true)) == FinalState(head, mid, eb)
  {
    hide Forward, FinalState, HeadEntries, Whole;
    var head := l.attn.heads[h];
    var ea, eb := HeadEntries(pa, l.groups, h, true), HeadEntries(pb, l.groups, h, true);
    HeadEntriesAppend(pa, pb, l.groups, h, true);
    WholeNested(|pa|, bl, head.blockSize);
    SplitAtWhole(head, ZeroState(head), ea + eb, |ea|);
    DropAppend(ea, eb);
  }

  lemma HeadSplit(l: Layer, p: seq<Vec>, b: seq<Vec>, bl: pos, h: nat)
    requires Aligned(l, bl) && h < NumHeads(l.attn) && Whole(|p|, bl) && |b| == bl
    ensures AttnHead(l, Project(l, p + b, 0), bl, true, h)
         == AttnHead(l, Project(l, p, 0), bl, true, h) + CachedHead(l, SlotOf(l, p), Project(l, b, |p|), h)
  {
    hide AttnHead, Forward, FinalState, Whole, Project;
    var pa, pb := Project(l, p, 0), Project(l, b, |p|);
    ProjectAppend(l, p, b);
    match l.attn
    case SoftmaxAttn(_, _, _, _) =>
      SoftmaxHeadSplit(l, pa, pb, bl, true, h);
      assert SlotOf(l, p) == Kv(KeysOf(pa), ValuesOf(pa));
    case RecurrentAttn(_) => RecurrentHeadSplit(l, pa, pb, bl, h);
  }

  lemma FinishSplit(l: Layer, p: seq<Vec>, b: seq<Vec>,
                    all: seq<seq<Vec>>, left: seq<seq<Vec>>, right: seq<seq<Vec>>)
    requires |all| == |left| == |right|
    requires forall h :: 0 <= h < |all| ==> |left[h]| == |p| && all[h] == left[h] + right[h]
    ensures Finish(l, p + b, all) == Finish(l, p, left) + Finish(l, b, right)
  {
    forall i: nat | i < |p| ensures Gather(all, i) == Gather(left, i) {}
    forall i: nat | i < |b| ensures Gather(all, |p| + i) == Gather(right, i) {}
  }

  /** Continuing from the slot of a prefix is recomputing prefix and block together. */
  lemma LayerSplit(l: Layer, p: seq<Vec>, b: seq<Vec>, bl: pos)
    requires Aligned(l, bl) && Whole(|p|, bl) && |b| == bl
    ensures LayerOut(l, p + b, bl, true) == LayerOut(l, p, bl, true) + CachedOut(l, SlotOf(l, p), b, |p|)
  {
    hide AttnHead, CachedHead, SlotOf, Project, Whole, Finish;
    var all := AttnHeads(l, Project(l, p + b, 0), bl, true);
    var left := AttnHeads(l, Project(l, p, 0), bl, true);
    var right := CachedHeads(l, SlotOf(l, p), Project(l, b, |p|));
    forall h | 0 <= h < |all| ensures all[h] == left[h] + right[h] {
      HeadSplit(l, p, b, bl, h);
    }
    FinishSplit(l, p, b, all, left, right);
  }

  /** Committing a block to the slot of a prefix gives the slot of both. */
  lemma CommitSplit(l: Layer, p: seq<Vec>, b: seq<Vec>, bl: pos)
    requires Aligned(l, bl) && Whole(|p|, bl)
    ensures Commit(l, SlotOf(l, p), b, |p|) == SlotOf(l, p + b)
  {
    hide AttnHead, Forward, FinalState, Whole, Project, HeadEntries;
    var pa, pb := Project(l, p, 0), Project(l, b, |p|);
    ProjectAppend(l, p, b);
    match l.attn
    case SoftmaxAttn(_, _, _, _) => KvAppend(pa, pb);
    case RecurrentAttn(heads) =>
      forall h | 0 <= h < |heads|
        ensures Commit(l, SlotOf(l, p), b, |p|).states[h] == SlotOf(l, p + b).states[h]
      {
        RecurrentHeadSplit(l, pa, pb, bl, h);
      }
  }

  lemma EmptyCommit(l: Layer)
    requires LayerOk(l)
    ensures SlotOf(l, []) == EmptySlot(l)
  {
    if l.attn.RecurrentAttn? {
      var heads := l.attn.heads;
      forall h | 0 <= h < |heads| ensures FinalState(heads[h], ZeroState(heads[h]), []) == ZeroState(heads[h]) {
        PadWhole(heads[h], []);
      }
      assert SlotOf(l, []).states == EmptySlot(l).states;
    }
  }

  // ----- the stack -----

  ghost predicate ModelAligned(m: Model, bl: pos) {
    forall n :: 0 <= n < |m.layers| ==> Aligned(m.layers[n], bl)
  }

  /** The slots that recomputing a prefix leaves, layer by layer. */
  function SlotsOf(m: Model, p: seq<Vec>, bl: pos): (slots: seq<Slot>)
    requires ModelOk(m)
    ensures SlotsFit(m, slots)
  {
    seq(|m.layers|, n requires 0 <= n < |m.layers| => SlotOf(m.layers[n], Hidden(m, p, bl, true, n)))
  }

  lemma SlotsOfAt(m: Model, p: seq<Vec>, bl: pos, n: nat)
    requires ModelOk(m) && n < |m.layers|
    ensures SlotsOf(m, p, bl)[n] == SlotOf(m.layers[n], Hidden(m, p, bl, true, n))
  {}

  lemma {:induction false} StackSplit(m: Model, p: seq<Vec>, b: seq<Vec>, bl: pos, n: nat)
    requires ModelOk(m) && ModelAligned(m, bl) && n <= |m.layers| && Whole(|p|, bl) && |b| == bl
    ensures Hidden(m, p + b, bl, true, n)
         == Hidden(m, p, bl, true, n) + CachedHidden(m, SlotsOf(m, p, bl), b, |p|, n)
  {
    hide LayerOut, CachedOut, SlotOf, Whole, SlotsOf, Aligned;
    if n == 0 {
      assert Hidden(m, p + b, bl, true, 0) == p + b;
    } else {
      var slots := SlotsOf(m, p, bl);
      var x, y := Hidden(m, p, bl, true, n - 1), CachedHidden(m, slots, b, |p|, n - 1);
      StackSplit(m, p, b, bl, n - 1);
      SlotsOfAt(m, p, bl, n - 1);
      LayerSplit(m.layers[n - 1], x, y, bl);
    }
  }

  lemma StackCommit(m: Model, p: seq<Vec>, b: seq<Vec>, bl: pos)
    requires ModelOk(m) && ModelAligned(m, bl) && Whole(|p|, bl) && |b| == bl
    ensures CommitAll(m, SlotsOf(m, p, bl), b, |p|) == SlotsOf(m, p + b, bl)
  {
    hide Commit, SlotOf, Whole, Hidden, CachedHidden;
    forall n | 0 <= n < |m.layers|
      ensures CommitAll(m, SlotsOf(m, p, bl), b, |p|)[n] == SlotsOf(m, p + b, bl)[n]
    {
      StackSplit(m, p, b, bl, n);
      CommitSplit(m.layers[n], Hidden(m, p, bl, true, n), CachedHidden(m, SlotsOf(m, p, bl), b, |p|, n), bl);
    }
  }

  lemma {:induction false} EmptyHidden(m: Model, bl: pos, n: nat)
    requires ModelOk(m) && n <= |m.layers|
    ensures Hidden(m, [], bl, true, n) == []
  {}

  lemma EmbedSlice(m: Model, tokens: seq<Token>, lo: nat, hi: nat)
    requires lo <= hi <= |tokens|
    ensures Embed(m, tokens[..hi]) == Embed(m, tokens[..lo]) + Embed(m, tokens[lo..hi])
  {}

  /** After n committed blocks every slot of the cache is what recomputing those blocks would leave. */
  lemma {:induction false} CommittedIsRecomputed(m: Model, tokens: seq<Token>, bl: pos, n: nat)
    requires ModelOk(m) && ModelAligned(m, bl) && Span(n, bl) <= |tokens|
    ensures Committed(m, tokens, bl, n) == SlotsOf(m, Embed(m, tokens[..Span(n, bl)]), bl)
  {
    hide SlotOf, EmptySlot, CommitAll, Embed, Hidden;
    if n == 0 {
      assert Embed(m, tokens[..0]) == [];
      forall k | 0 <= k < |m.layers| ensures Committed(m, tokens, bl, 0)[k] == SlotsOf(m, [], bl)[k] {
        EmptyHidden(m, bl, k);
        EmptyCommit(m.layers[k]);
      }
    } else {
      var lo := Span(n - 1, bl);
      CommittedIsRecomputed(m, tokens, bl, n - 1);
      EmbedSlice(m, tokens, lo, lo + bl);
      SpanWhole(n - 1, bl);
      StackCommit(m, Embed(m, tokens[..lo]), Embed(m, tokens[lo..lo + bl]), bl);
    }
  }

  // ----- logits of the last block of a window -----

  /** How a forward pass is run: over the whole window, or over its last block with the prefix cached. */
  datatype Mode = Recompute | Cached

  /** What a pure-linear head reads out of the generator's mask over n + 1 blocks, in row b of a batch. */
  function WindowKeys(bl: pos, n: nat, batch: nat, b: nat): seq<bool> {
    KeyValid(GeneratorMask(bl, n + 1, batch), Span(n + 1, bl), b)
  }

  /** Whether it takes the keys as valid. */
  predicate LinearKeys(bl: pos, n: nat) {
    false !in WindowKeys(bl, n, 1, 0)
  }

  /** In every row of a batch: all of them, or none, and all exactly if the window has more than one block. */
  lemma LinearKeysIff(bl: pos, n: nat)
    ensures LinearKeys(bl, n) <==> n > 0
    ensures forall batch: nat, b: nat :: b < batch ==> WindowKeys(bl, n, batch, b) == seq(Span(n + 1, bl), _ => n > 0)
  {
    hide WindowKeys;
    forall batch: nat, b: nat | b < batch
      ensures WindowKeys(bl, n, batch, b) == seq(Span(n + 1, bl), _ => n > 0)
    {
      RowKeys(bl, n, batch, b);
    }
    var valid := WindowKeys(bl, n, 1, 0);
    SpanMonotone(1, n + 1, bl);
    TwoBlocks(bl);
    assert valid[0] in valid;
  }

  lemma RowKeys(bl: pos, n: nat, batch: nat, b: nat)
    requires b < batch
    ensures WindowKeys(bl, n, batch, b) == seq(Span(n + 1, bl), _ => n > 0)
  {
    hide Attended, GeneratorMask, Span;
    var valid := WindowKeys(bl, n, batch, b);
    forall j: nat | j < Span(n + 1, bl) ensures valid[j] <==> n > 0 {
      GeneratorKeys(bl, n, batch, b, Span(n + 1, bl), j);
    }
  }

  /** Logits of the last block of a window of n + 1 blocks. */
  function LastLogits(m: Model, mode: Mode, window: seq<Token>, bl: pos, n: nat): (r: seq<Vec>)
    requires ModelOk(m) && |window| == Span(n + 1, bl)
    ensures |r| == bl
  {
    var lo := Span(n, bl);
    match mode
    case Recompute => LogitRows(m, Hidden(m, Embed(m, window), bl, LinearKeys(bl, n), |m.layers|))[lo..]
    case Cached =>
      LogitRows(m, CachedHidden(m, Committed(m, window, bl, n), Embed(m, window[lo..]), lo, |m.layers|))
  }

  lemma RecomputedAt(m: Model, window: seq<Token>, bl: pos, n: nat, i: nat)
    requires ModelOk(m) && |window| == Span(n + 1, bl) && i < bl
    ensures LastLogits(m, Recompute, window, bl, n)[i]
         == m.logits(Hidden(m, Embed(m, window), bl, LinearKeys(bl, n), |m.layers|)[Span(n, bl) + i])
  {
    hide Hidden, LinearKeys, Embed;
  }

  /** Pure-linear heads are harmless: there are none, or the window has more than one block. */
  ghost predicate MaskReadable(m: Model, n: nat) {
    n > 0 || forall k :: 0 <= k < |m.layers| ==> NoPureLinear(m.layers[k])
  }

  lemma {:induction false} HiddenIgnoresMask(m: Model, hs: seq<Vec>, bl: pos, n: nat, lv: bool)
    requires ModelOk(m) && n <= |m.layers|
    requires forall k :: 0 <= k < |m.layers| ==> NoPureLinear(m.layers[k])
    ensures Hidden(m, hs, bl, lv, n) == Hidden(m, hs, bl, true, n)
  {
    hide Forward, Attend, BlockScores;
    if n > 0 {
      HiddenIgnoresMask(m, hs, bl, n - 1, lv);
      var l, x := m.layers[n - 1], Hidden(m, hs, bl, true, n - 1);
      assert AttnHeads(l, Project(l, x, 0), bl, lv) == AttnHeads(l, Project(l, x, 0), bl, true);
    }
  }

  // ----- the first block: nothing is cached -----

  lemma FirstHead(l: Layer, ps: seq<Qkv>, bl: pos, h: nat)
    requires LayerOk(l) && NoPureLinear(l) && |ps| == bl && h < NumHeads(l.attn)
    ensures AttnHead(l, ps, bl, true, h) == CachedHead(l, EmptySlot(l), ps, h)
  {
    hide Forward, Attend, BlockScores, OpenScores;
    match l.attn
    case SoftmaxAttn(_, scale, _, _) =>
      assert [] + KeysOf(ps) == KeysOf(ps) && [] + ValuesOf(ps) == ValuesOf(ps);
      forall i | 0 <= i < |ps| ensures AttnHead(l, ps, bl, true, h)[i] == CachedHead(l, EmptySlot(l), ps, h)[i] {
        LastScores(scale, Queries(ps, h)[i], Shared(KeysOf(ps), l.groups, h), 0, i, bl);
      }
    case RecurrentAttn(heads) =>
      assert EmptySlot(l).states[h] == ZeroState(heads[h]);
  }

  lemma FirstLayer(l: Layer, hs: seq<Vec>, bl: pos)
    requires LayerOk(l) && NoPureLinear(l) && |hs| == bl
    ensures LayerOut(l, hs, bl, true) == CachedOut(l, EmptySlot(l), hs, 0)
  {
    hide AttnHead, CachedHead, EmptySlot, Finish;
    var ps := Project(l, hs, 0);
    forall h | 0 <= h < NumHeads(l.attn)
      ensures AttnHeads(l, ps, bl, true)[h] == CachedHeads(l, EmptySlot(l), ps)[h]
    {
      FirstHead(l, ps, bl, h);
    }
    assert AttnHeads(l, ps, bl, true) == CachedHeads(l, EmptySlot(l), ps);
  }

  lemma {:induction false} FirstStack(m: Model, hs: seq<Vec>, bl: pos, n: nat)
    requires ModelOk(m) && (forall k :: 0 <= k < |m.layers| ==> NoPureLinear(m.layers[k])) && n <= |m.layers|
    requires |hs| == bl
    ensures Hidden(m, hs, bl, true, n) == CachedHidden(m, EmptySlots(m), hs, 0, n)
  {
    hide LayerOut, CachedOut, EmptySlot, NoPureLinear;
    if n > 0 {
      FirstStack(m, hs, bl, n - 1);
      FirstLayer(m.layers[n - 1], Hidden(m, hs, bl, true, n - 1), bl);
    }
  }

  // ----- any block of an aligned model -----

  /** A cached forward pass gives the logits of the full recomputation. */
  lemma CachedLogitsAgree(m: Model, window: seq<Token>, bl: pos, n: nat)
    requires ModelOk(m) && ModelAligned(m, bl) && |window| == Span(n + 1, bl) && MaskReadable(m, n)
    ensures LastLogits(m, Cached, window, bl, n) == LastLogits(m, Recompute, window, bl, n)
  {
    hide Hidden, CachedHidden, Committed, SlotsOf, Embed, LinearKeys;
    var lo := Span(n, bl);
    CommittedIsRecomputed(m, window, bl, n);
    assert window[..|window|] == window && window[lo..|window|] == window[lo..];
    EmbedSlice(m, window, lo, |window|);
    SpanWhole(n, bl);
    var p, b := Embed(m, window[..lo]), Embed(m, window[lo..]);
    StackSplit(m, p, b, bl, |m.layers|);
    LinearKeysIff(bl, n);
    if n == 0 { HiddenIgnoresMask(m, Embed(m, window), bl, |m.layers|, LinearKeys(bl, n)); }
  }
}
