/**
 What the attentions compute, written out over the tensors they are given: weights known by their laws, and every
 coordinate of an output as a sum over the visible keys.
 */
module Written {
  import opened Wrappers
  import opened Vectors
  import opened Softmax
  import opened BlockMath
  import opened BlockAttention
  import opened AttentionForward
  import opened KernelMath
  import opened Layers

  // ----- sums -----

  /** Coordinate d of the vectors, each times its weight. */
  function Products(w: Vec, vs: seq<Vec>, d: nat): (r: Vec)
    requires |w| == |vs|
    ensures |r| == |w|
  {
    seq(|w|, j requires 0 <= j < |w| => Times(w[j], At(vs[j], d)))
  }

  lemma {:induction false} DotProducts(w: Vec, vs: seq<Vec>, d: nat)
    requires |w| == |vs|
    ensures Dot(w, Col(vs, d)) == Sum(Products(w, vs, d))
  {
    if |w| > 0 {
      var n := |w| - 1;
      DotProducts(w[..n], vs[..n], d);
      DotLast(w, Col(vs, d));
      assert Col(vs, d)[..n] == Col(vs[..n], d);
      assert Products(w, vs, d)[..n] == Products(w[..n], vs[..n], d) by { hide Times; }
    }
  }

  /** Zeroed values do not matter where the weight is zero. */
  lemma RawProducts(h: Head, w: Vec, es: seq<Entry>, d: nat)
    requires |w| == |es| && d < h.dim && forall j :: 0 <= j < |es| && !es[j].valid ==> w[j] == 0.0
    ensures Dot(w, Col(Values(h, es), d)) == Sum(Products(w, RawValues(es), d))
  {
    hide Sum, Dot;
    DotProducts(w, Values(h, es), d);
    var a, b := Products(w, Values(h, es), d), Products(w, RawValues(es), d);
    forall j | 0 <= j < |es| ensures a[j] == b[j] {
      if !es[j].valid { assert a[j] == 0.0 == b[j]; }
    }
    assert a == b;
  }

  lemma SumTail(a: Vec, n: nat)
    requires n <= |a| && forall j :: n <= j < |a| ==> a[j] == 0.0
    ensures Sum(a) == Sum(a[..n])
  {
    assert a == a[..n] + Zeros(|a| - n);
    SumAppend(a[..n], Zeros(|a| - n));
    SumZeros(|a| - n);
  }

  // ----- the recurrent classes -----

  /** phi(q) . phi(k_j) for each of these keys, nothing for a masked one. */
  function LinearWeights(h: Head, q: Vec, k: seq<Vec>, mask: Option<seq<bool>>): (c: Vec)
    ensures |c| == |k|
  {
    seq(|k|, j requires 0 <= j < |k| => if MaskAt(mask, j) then Dot(Phi(h, q), Phi(h, k[j])) else 0.0)
  }

  lemma LinearWeightsAre(h: Head, q: Vec, qs: seq<Vec>, k: seq<Vec>, v: seq<Vec>, mask: Option<seq<bool>>, n: nat)
    requires |qs| == |k| == |v| && n <= |k|
    ensures KernelWeights(h, q, Entries(qs, k, v, mask)[..n]) == LinearWeights(h, q, k[..n], mask)
    ensures RawValues(Entries(qs, k, v, mask)[..n]) == v[..n]
  {
    hide Phi, Dot;
  }

  /** The last position of i's attention block, or of the sequence. */
  function BlockEnd(i: nat, size: pos, len: nat): (hi: nat)
    requires i < len
    ensures i < hi <= len && BlockStart(i, size) < hi <= BlockStart(i, size) + size
  {
    var lo := BlockStart(i, size);
    if lo + size <= len then lo + size else len
  }

  lemma NoWeight()
    ensures forall x :: Times(0.0, x) == 0.0
  {}

  /** Padding adds nothing to a linear row. */
  lemma PriorSums(h: Head, q: Vec, es: seq<Entry>, n: nat, d: nat)
    requires n <= |es| && d < h.dim && forall j :: n <= j < |es| ==> !es[j].valid
    ensures Sum(KernelWeights(h, q, es)) == Sum(KernelWeights(h, q, es[..n]))
    ensures Dot(KernelWeights(h, q, es), Col(Values(h, es), d))
         == Sum(Products(KernelWeights(h, q, es[..n]), RawValues(es[..n]), d))
  {
    hide Sum, Dot, Phi, Values, Times;
    var c := KernelWeights(h, q, es);
    NoWeight();
    assert c[..n] == KernelWeights(h, q, es[..n]);
    SumTail(c, n);
    RawProducts(h, c, es, d);
    SumTail(Products(c, RawValues(es), d), n);
    assert Products(c, RawValues(es), d)[..n] == Products(c[..n], RawValues(es[..n]), d);
  }

  /**
   The linear class from the zero state, position i and coordinate d: over all keys up to the end of i's block, the
   weighted sum of the values over the sum of the weights, kept from zero.
   */
  lemma LinearWritten(h: Head, q: seq<Vec>, k: seq<Vec>, v: seq<Vec>, mask: Option<seq<bool>>, i: nat, d: nat)
    requires h.kind.Linear? && h.blockSize > 0 && |q| == |k| == |v| && i < |q| && d < h.dim
    ensures var hi := BlockEnd(i, h.blockSize, |q|);
            var c := LinearWeights(h, q[i], k[..hi], mask);
            && |Forward(h, ZeroState(h), Entries(q, k, v, mask))[i]| == h.dim
            && Forward(h, ZeroState(h), Entries(q, k, v, mask))[i][d]
               == Ratio(Sum(Products(c, v[..hi], d)), Max(Sum(c), h.eps))
  {
    hide Forward, Entries, BlockStart, KernelWeights, LinearWeights, Products, Values, Sum, Dot, Pad;
    var es, lo, hi := Entries(q, k, v, mask), BlockStart(i, h.blockSize), BlockEnd(i, h.blockSize, |q|);
    var padded := Pad(h, es);
    ForwardIsQuadratic(h, es, i);
    var seen := padded[..lo] + padded[lo..lo + h.blockSize];
    PaddedTo(h, es, lo + h.blockSize, hi);
    assert seen == padded[..lo + h.blockSize];
    PriorSums(h, q[i], seen, hi, d);
    LinearWeightsAre(h, q[i], q, k, v, mask, hi);
    EntryQuery(q, k, v, mask, i);
  }

  lemma EntryQuery(q: seq<Vec>, k: seq<Vec>, v: seq<Vec>, mask: Option<seq<bool>>, i: nat)
    requires |q| == |k| == |v| && i < |q|
    ensures Entries(q, k, v, mask)[i] == Entry(q[i], k[i], v[i], MaskAt(mask, i))
  {}

  /** Of the padded input, positions below the length are the sequence and the rest is masked. */
  lemma PaddedTo(h: Head, es: seq<Entry>, to: nat, hi: nat)
    requires h.blockSize > 0 && to <= |Pad(h, es)| && hi == (if to <= |es| then to else |es|)
    ensures hi <= to && Pad(h, es)[..to][..hi] == es[..hi] && forall j :: hi <= j < to ==> !Pad(h, es)[..to][j].valid
  {
    hide PadLength;
  }

  /** Two weights in the ratio of the exponentials of the scaled scores of their keys. */
  ghost predicate InRatio(h: Head, q: Vec, k: Vec, a: real, k': Vec, a': real) {
    a * h.exp(Times(Dot(q, k'), h.scale)) == a' * h.exp(Times(Dot(q, k), h.scale))
  }

  /**
   Weights of the keys of a block known by their laws: between 0 and 1, a largest one is 1, none for a masked key,
   and two unmasked keys in the ratio of the exponentials of their scaled scores.
   */
  ghost predicate BlockWeights(h: Head, q: Vec, k: seq<Vec>, valid: seq<bool>, a: Vec)
    requires |k| == |valid|
  {
    && |a| == |k| && 1.0 in a
    && (forall j :: 0 <= j < |a| ==> 0.0 <= a[j] <= 1.0 && (!valid[j] ==> a[j] == 0.0))
    && (forall x, y :: 0 <= x < |a| && 0 <= y < |a| && valid[x] && valid[y] ==> InRatio(h, q, k[x], a[x], k[y], a[y]))
  }

  function Keys(es: seq<Entry>): (r: seq<Vec>)
    ensures |r| == |es|
  {
    seq(|es|, j requires 0 <= j < |es| => es[j].k)
  }

  /** The mask over the positions lo..lo + n. */
  function MaskOver(mask: Option<seq<bool>>, lo: nat, n: nat): (r: seq<bool>)
    ensures |r| == n
  {
    seq(n, j requires 0 <= j => MaskAt(mask, lo + j))
  }

  function Flags(es: seq<Entry>): (r: seq<bool>)
    ensures |r| == |es|
  {
    seq(|es|, j requires 0 <= j < |es| => es[j].valid)
  }

  lemma ScoresAt(h: Head, q: Vec, blk: seq<Entry>)
    ensures |Scores(h, q, blk)| == |blk|
    ensures forall j :: 0 <= j < |blk| ==>
      Scores(h, q, blk)[j] == if blk[j].valid then Fin(Times(Dot(q, blk[j].k), h.scale)) else Masked
  {}

  /** The code's weights obey those laws, and padding has none. */
  lemma FilledAre(h: Head, q: Vec, blk: seq<Entry>, n: nat)
    requires IsExp(h.exp) && Multiplies(h.exp) && n <= |blk| && forall j :: n <= j < |blk| ==> !blk[j].valid
    requires exists j :: 0 <= j < n && blk[j].valid
    ensures var a := FilledWeights(h.exp, Scores(h, q, blk));
            && |a| == |blk| && (forall j :: 0 <= j < |blk| && !blk[j].valid ==> a[j] == 0.0)
            && BlockWeights(h, q, Keys(blk[..n]), Flags(blk[..n]), a[..n])
  {
    hide IsExp, Multiplies, InRatio, Scores, FilledWeights;
    var a := FilledWeights(h.exp, Scores(h, q, blk));
    FilledRange(h, q, blk, n);
    forall x, y | 0 <= x < n && 0 <= y < n && blk[x].valid && blk[y].valid
      ensures InRatio(h, q, blk[x].k, a[x], blk[y].k, a[y])
    {
      FilledRatio(h, q, blk, x, y);
    }
    var top :| 0 <= top < n && a[top] == 1.0;
    assert a[..n][top] == 1.0;
  }

  lemma FilledRange(h: Head, q: Vec, blk: seq<Entry>, n: nat)
    requires IsExp(h.exp) && n <= |blk| && forall j :: n <= j < |blk| ==> !blk[j].valid
    requires exists j :: 0 <= j < n && blk[j].valid
    ensures var a := FilledWeights(h.exp, Scores(h, q, blk));
            && |a| == |blk| && (forall j :: 0 <= j < |blk| ==> 0.0 <= a[j] <= 1.0)
            && (forall j :: 0 <= j < |blk| && !blk[j].valid ==> a[j] == 0.0)
            && exists j :: 0 <= j < n && a[j] == 1.0
  {
    hide Dot, Times, Scores, RowMax;
    var s := Scores(h, q, blk);
    ScoresAt(h, q, blk);
    var first :| 0 <= first < n && blk[first].valid;
    assert s[first].Fin?;
    WeightsMass(h.exp, s);
    RowMaxIsMax(s);
    var top :| 0 <= top < |s| && s[top] == Fin(RowMax(s));
    assert top < n && FilledWeights(h.exp, s)[top] == 1.0;
  }

  lemma FilledRatio(h: Head, q: Vec, blk: seq<Entry>, x: nat, y: nat)
    requires Multiplies(h.exp) && x < |blk| && y < |blk| && blk[x].valid && blk[y].valid
    ensures |FilledWeights(h.exp, Scores(h, q, blk))| == |blk|
    ensures var a := FilledWeights(h.exp, Scores(h, q, blk)); InRatio(h, q, blk[x].k, a[x], blk[y].k, a[y])
  {
    hide Multiplies, Dot, Times, RowMax;
    WeightsRatio(h.exp, Scores(h, q, blk), x, y);
  }

  lemma FilledSums(h: Head, a: Vec, blk: seq<Entry>, n: nat, d: nat)
    requires n <= |blk| == |a| && d < h.dim && (forall j :: n <= j < |blk| ==> !blk[j].valid)
    requires forall j :: 0 <= j < |blk| && !blk[j].valid ==> a[j] == 0.0
    ensures Sum(a) == Sum(a[..n])
    ensures Dot(a, Col(Values(h, blk), d)) == Sum(Products(a[..n], RawValues(blk[..n]), d))
  {
    hide Sum, Dot, Values, Times;
    NoWeight();
    SumTail(a, n);
    RawProducts(h, a, blk, d);
    SumTail(Products(a, RawValues(blk), d), n);
    assert Products(a, RawValues(blk), d)[..n] == Products(a[..n], RawValues(blk[..n]), d);
  }

  /** Coordinate d of the hybrid mix of weights a inside the block and c before it. */
  function Mixed(h: Head, gate: real, a: Vec, va: seq<Vec>, c: Vec, vc: seq<Vec>, d: nat): real
    requires |a| == |va| && |c| == |vc|
  {
    Ratio(Times(gate, Sum(Products(a, va, d))) + Sum(Products(c, vc, d)),
          Max(gate * Max(Sum(a), h.eps) + Max(Sum(c), h.eps), h.eps))
  }

  lemma MixedRow(h: Head, q: Vec, prior: seq<Entry>, blk: seq<Entry>, n: nat, d: nat)
    requires h.kind.Hybrid? && IsExp(h.exp) && Multiplies(h.exp) && d < h.dim && n <= |blk|
    requires (forall j :: n <= j < |blk| ==> !blk[j].valid) && exists j :: 0 <= j < n && blk[j].valid
    ensures var a := FilledWeights(h.exp, Scores(h, q, blk));
            && |a| == |blk| && BlockWeights(h, q, Keys(blk[..n]), Flags(blk[..n]), a[..n])
            && |KernelWeights(h, q, prior)| == |prior| && |QuadraticRow(h, prior, blk, q)| == h.dim
            && QuadraticRow(h, prior, blk, q)[d]
               == Mixed(h, h.kind.gate, a[..n], RawValues(blk[..n]), KernelWeights(h, q, prior), RawValues(prior), d)
  {
    hide IsExp, Multiplies, Sum, Dot, FilledWeights, Scores, Values, Times, Products, BlockWeights, Phi;
    FilledAre(h, q, blk, n);
    var a := FilledWeights(h.exp, Scores(h, q, blk));
    FilledSums(h, a, blk, n, d);
    PriorSums(h, q, prior, |prior|, d);
    assert prior[..|prior|] == prior;
  }

  /**
   The hybrid class from the zero state, position i and coordinate d, for a block that holds an unmasked key: the
   gate times the weighted sum over i's own block plus the linear sum over all keys before it, over the shared
   denominator.
   */
  lemma HybridWritten(h: Head, q: seq<Vec>, k: seq<Vec>, v: seq<Vec>, mask: Option<seq<bool>>, i: nat, d: nat)
    returns (a: Vec)
    requires h.kind.Hybrid? && h.blockSize > 0 && IsExp(h.exp) && Multiplies(h.exp)
    requires |q| == |k| == |v| && i < |q| && d < h.dim
    requires exists j :: BlockStart(i, h.blockSize) <= j < BlockEnd(i, h.blockSize, |q|) && MaskAt(mask, j)
    ensures var lo, hi := BlockStart(i, h.blockSize), BlockEnd(i, h.blockSize, |q|);
            && BlockWeights(h, q[i], k[lo..hi], MaskOver(mask, lo, hi - lo), a)
            && |Forward(h, ZeroState(h), Entries(q, k, v, mask))[i]| == h.dim
            && Forward(h, ZeroState(h), Entries(q, k, v, mask))[i][d]
               == Mixed(h, h.kind.gate, a, v[lo..hi], LinearWeights(h, q[i], k[..lo], mask), v[..lo], d)
  {
    hide Forward, Entries, BlockStart, KernelWeights, LinearWeights, FilledWeights, Scores, Sum, Dot, Pad, Mixed,
         QuadraticRow, IsExp, Multiplies, BlockWeights;
    var es, lo, hi := Entries(q, k, v, mask), BlockStart(i, h.blockSize), BlockEnd(i, h.blockSize, |q|);
    var padded := Pad(h, es);
    ForwardIsQuadratic(h, es, i);
    var prior, blk := padded[..lo], padded[lo..lo + h.blockSize];
    WindowIs(h, es, lo, hi);
    BlockIs(q, k, v, mask, padded, lo, hi);
    var j :| lo <= j < hi && MaskAt(mask, j);
    EntryQuery(q, k, v, mask, j);
    EntryQuery(q, k, v, mask, i);
    assert blk[j - lo] == es[j];
    MixedRow(h, q[i], prior, blk, hi - lo, d);
    a := FilledWeights(h.exp, Scores(h, q[i], blk))[..hi - lo];
    LinearWeightsAre(h, q[i], q, k, v, mask, lo);
  }

  lemma WindowIs(h: Head, es: seq<Entry>, lo: nat, hi: nat)
    requires h.blockSize > 0 && lo < |es| && lo + h.blockSize <= |Pad(h, es)|
    requires hi == if lo + h.blockSize <= |es| then lo + h.blockSize else |es|
    ensures var padded := Pad(h, es); var blk := padded[lo..lo + h.blockSize];
            && padded[..hi] == es[..hi] && padded[..lo] == es[..lo] && blk[..hi - lo] == padded[lo..hi] == es[lo..hi]
            && forall x :: hi - lo <= x < |blk| ==> !blk[x].valid
  {
    hide PadLength;
  }

  lemma BlockIs(q: seq<Vec>, k: seq<Vec>, v: seq<Vec>, mask: Option<seq<bool>>, padded: seq<Entry>, lo: nat, hi: nat)
    requires |q| == |k| == |v| && lo <= hi <= |q| && hi <= |padded| && padded[..hi] == Entries(q, k, v, mask)[..hi]
    ensures var blk := padded[lo..hi];
            && Keys(blk) == k[lo..hi] && RawValues(blk) == v[lo..hi]
            && Flags(blk) == MaskOver(mask, lo, hi - lo)
  {
    var es := Entries(q, k, v, mask);
    forall j | lo <= j < hi ensures padded[j] == es[j] {
      assert padded[..hi][j] == es[..hi][j];
    }
  }

  // ----- the heads of a layer -----

  /** The key and value vectors of key/value head g. */
  function GroupKeys(ps: seq<Qkv>, g: nat): (r: seq<Vec>)
    ensures |r| == |ps|
  {
    seq(|ps|, j requires 0 <= j < |ps| => Pick(ps[j].k, g))
  }

  function GroupValues(ps: seq<Qkv>, g: nat): (r: seq<Vec>)
    ensures |r| == |ps|
  {
    seq(|ps|, j requires 0 <= j < |ps| => Pick(ps[j].v, g))
  }

  /** Softmax weights of a query over keys of which those in its own block and before are visible. */
  ghost predicate LayerWeights(exp: real -> real, scale: real, q: Vec, k: seq<Vec>, i: nat, bl: pos, w: Vec) {
    && |w| == |k| && Sum(w) == 1.0
    && (forall j :: 0 <= j < |w| ==> w[j] >= 0.0 && (j / bl > i / bl ==> w[j] == 0.0))
    && (forall x, y :: 0 <= x < |w| && 0 <= y < |w| && x / bl <= i / bl && y / bl <= i / bl ==>
          w[x] * exp(Times(Dot(q, k[y]), scale)) == w[y] * exp(Times(Dot(q, k[x]), scale)))
  }

  lemma SoftmaxAre(exp: real -> real, scale: real, q: Vec, k: seq<Vec>, i: nat, bl: pos)
    requires IsExp(exp) && Multiplies(exp) && i < |k|
    ensures LayerWeights(exp, scale, q, k, i, bl, SoftmaxOf(exp, BlockScores(scale, q, k, i, bl)))
  {
    hide IsExp, Multiplies, SoftmaxOf, Sum, Dot, Times;
    var s := BlockScores(scale, q, k, i, bl);
    var w := SoftmaxOf(exp, s);
    SoftmaxRatio(exp, s, i, i);
    forall x, y | 0 <= x < |w| && 0 <= y < |w| && x / bl <= i / bl && y / bl <= i / bl
      ensures w[x] * exp(Times(Dot(q, k[y]), scale)) == w[y] * exp(Times(Dot(q, k[x]), scale))
    {
      SoftmaxRatio(exp, s, x, y);
    }
  }

  /**
   Head h of a softmax layer at position i: the sum of the values of key/value head h / groups, weighted by softmax
   of query head h against the keys of that head in i's block and before.
   */
  lemma SoftmaxWritten(l: Layer, ps: seq<Qkv>, bl: pos, lv: bool, h: nat, i: nat) returns (w: Vec)
    requires l.attn.SoftmaxAttn? && h < NumHeads(l.attn) && i < |ps| && IsExp(l.attn.exp) && Multiplies(l.attn.exp)
    ensures LayerWeights(l.attn.exp, l.attn.scale, Pick(ps[i].q, h), GroupKeys(ps, h / l.groups), i, bl, w)
    ensures |AttnHead(l, ps, bl, lv, h)[i]| == l.attn.dim && |w| == |ps|
    ensures forall d :: 0 <= d < l.attn.dim ==>
      AttnHead(l, ps, bl, lv, h)[i][d] == Sum(Products(w, GroupValues(ps, h / l.groups), d))
  {
    hide IsExp, Multiplies, SoftmaxOf, Sum, Dot, BlockScores, Products, AttnHead, LayerWeights;
    var q, ks, vs := Pick(ps[i].q, h), GroupKeys(ps, h / l.groups), GroupValues(ps, h / l.groups);
    SoftmaxHeadAt(l, ps, bl, lv, h, i);
    SharedAre(ps, l.groups, h);
    w := SoftmaxOf(l.attn.exp, BlockScores(l.attn.scale, q, ks, i, bl));
    SoftmaxAre(l.attn.exp, l.attn.scale, q, ks, i, bl);
    SoftmaxLength(l.attn.exp, BlockScores(l.attn.scale, q, ks, i, bl));
    forall d: nat | d < l.attn.dim ensures Dot(w, Col(vs, d)) == Sum(Products(w, vs, d)) {
      DotProducts(w, vs, d);
    }
  }

  lemma SharedAre(ps: seq<Qkv>, groups: pos, h: nat)
    ensures Shared(KeysOf(ps), groups, h) == GroupKeys(ps, h / groups)
    ensures Shared(ValuesOf(ps), groups, h) == GroupValues(ps, h / groups)
  {}

  /** Only query head h and its key/value head, as a single head. */
  function OwnHeads(ps: seq<Qkv>, groups: pos, h: nat): (r: seq<Qkv>)
    ensures |r| == |ps|
  {
    seq(|ps|, j requires 0 <= j < |ps| =>
      Qkv([Pick(ps[j].q, h)], [Pick(ps[j].k, h / groups)], [Pick(ps[j].v, h / groups)]))
  }

  /** A layer with one head, that of head h, and one group. */
  function OneHead(l: Layer, h: nat): Layer
    requires h < NumHeads(l.attn)
  {
    l.(groups := 1,
       attn := match l.attn
               case SoftmaxAttn(exp, scale, dim, _) => SoftmaxAttn(exp, scale, dim, 1)
               case RecurrentAttn(heads) => RecurrentAttn([heads[h]]))
  }

  /** Head h depends on query head h and key/value head h / groups alone: it is the one head of a layer on these. */
  lemma HeadAlone(l: Layer, ps: seq<Qkv>, bl: pos, lv: bool, h: nat)
    requires LayerOk(l) && h < NumHeads(l.attn)
    ensures LayerOk(OneHead(l, h))
    ensures AttnHead(l, ps, bl, lv, h) == AttnHead(OneHead(l, h), OwnHeads(ps, l.groups, h), bl, lv, 0)
  {
    hide Forward, Attend, BlockScores;
    var l', ps' := OneHead(l, h), OwnHeads(ps, l.groups, h);
    match l.attn
    case SoftmaxAttn(_, _, _, _) =>
      assert Queries(ps, h) == Queries(ps', 0);
      assert Shared(KeysOf(ps), l.groups, h) == Shared(KeysOf(ps'), 1, 0);
      assert Shared(ValuesOf(ps), l.groups, h) == Shared(ValuesOf(ps'), 1, 0);
    case RecurrentAttn(heads) =>
      var valid := heads[h].kind.Hybrid? || lv;
      assert HeadEntries(ps, l.groups, h, valid) == HeadEntries(ps', 1, 0, valid);
  }

  /** A layer's output at a position: its `finish` on the hidden state and the outputs of all heads there, in order. */
  lemma LayerWritten(l: Layer, hs: seq<Vec>, bl: pos, lv: bool, i: nat)
    requires LayerOk(l) && i < |hs|
    ensures var ps := seq(|hs|, j requires 0 <= j < |hs| => l.project(hs[j], j));
            LayerOut(l, hs, bl, lv)[i] == l.finish(hs[i], seq(NumHeads(l.attn), h requires 0 <= h < NumHeads(l.attn) =>
              AttnHead(l, ps, bl, lv, h)[i]))
  {
    hide AttnHead;
    var ps := seq(|hs|, j requires 0 <= j < |hs| => l.project(hs[j], j));
    assert Project(l, hs, 0) == ps;
    var outs := AttnHeads(l, ps, bl, lv);
    assert Gather(outs, i)
        == seq(NumHeads(l.attn), h requires 0 <= h < NumHeads(l.attn) => AttnHead(l, ps, bl, lv, h)[i]);
  }
}
