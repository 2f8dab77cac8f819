/**
 What several calls of `forward` and `forward_bd3lm` promise together: a carried state continues a call, the two
 halves of a BD3LM call are calls of `forward`, and a padding mask overrules an attention mask.
 */
module AttentionCalls {
  import opened Wrappers
  import opened Vectors
  import opened BlockMath
  import opened AttentionMask
  import opened BlockAttention
  import opened AttentionForward

  /** A mask over the first `to` positions, and over those from `from` on. */
  function MaskHead(mask: Option<seq<bool>>, to: nat): Option<seq<bool>> {
    if mask.None? then None else Some(mask.value[..Least(to, |mask.value|)])
  }

  function MaskTail(mask: Option<seq<bool>>, from: nat): Option<seq<bool>> {
    if mask.None? then None else Some(mask.value[Least(from, |mask.value|)..])
  }

  // ----- a carried state -----

  lemma PaddedSplit(h: Head, q: seq<Vec>, k: seq<Vec>, v: seq<Vec>, mask: Option<seq<bool>>, cut: nat)
    requires |q| == |k| == |v| && h.blockSize > 0 && cut <= |q| && Whole(cut, h.blockSize)
    ensures var all := PaddedInput(h, q, k, v, mask);
            && cut <= |all| && all[..cut] == PaddedInput(h, q[..cut], k[..cut], v[..cut], MaskHead(mask, cut))
            && all[cut..] == PaddedInput(h, q[cut..], k[cut..], v[cut..], MaskTail(mask, cut))
  {
    hide PaddedInput, PaddedEntry, Whole;
    var all := PaddedInput(h, q, k, v, mask);
    var left := PaddedInput(h, q[..cut], k[..cut], v[..cut], MaskHead(mask, cut));
    var right := PaddedInput(h, q[cut..], k[cut..], v[cut..], MaskTail(mask, cut));
    PaddedIs(h, q, k, v, mask);
    PaddedIs(h, q[..cut], k[..cut], v[..cut], MaskHead(mask, cut));
    PaddedIs(h, q[cut..], k[cut..], v[cut..], MaskTail(mask, cut));
    WholePad(cut, h.blockSize);
    PadLengthAdd(cut, |q| - cut, h.blockSize);
    assert |left| == cut && |all| == cut + |right|;
    forall i: nat | i < cut ensures all[i] == left[i] { PaddedEntrySplit(h, q, k, v, mask, cut, i); }
    forall i: nat | i < |right| ensures all[cut + i] == right[i] { PaddedEntrySplit(h, q, k, v, mask, cut, i); }
  }

  lemma PaddedIs(h: Head, q: seq<Vec>, k: seq<Vec>, v: seq<Vec>, mask: Option<seq<bool>>)
    requires |q| == |k| == |v| && h.blockSize > 0
    ensures var r := PaddedInput(h, q, k, v, mask);
            && |r| == |q| + PadLength(|q|, h.blockSize)
            && forall i: nat :: i < |r| ==> r[i] == PaddedEntry(h, q, k, v, mask, i)
  {
    hide PaddedEntry, PadLength, Span, NumBlocks;
    NumBlocksPad(|q|, h.blockSize);
  }

  lemma PaddedEntrySplit(h: Head, q: seq<Vec>, k: seq<Vec>, v: seq<Vec>, mask: Option<seq<bool>>, cut: nat, i: nat)
    requires |q| == |k| == |v| && cut <= |q|
    ensures i < cut ==>
      PaddedEntry(h, q, k, v, mask, i) == PaddedEntry(h, q[..cut], k[..cut], v[..cut], MaskHead(mask, cut), i)
    ensures PaddedEntry(h, q, k, v, mask, cut + i)
         == PaddedEntry(h, q[cut..], k[cut..], v[cut..], MaskTail(mask, cut), i)
  {}

  /**
   The hybrid class: the part before a block boundary, then the rest from the (S, Z) that part returned, gives the
   outputs and the state of one call on the whole, from any start and under any mask.
   */
  method HybridResumed(h: Head, q: seq<Vec>, k: seq<Vec>, v: seq<Vec>, mask: Option<seq<bool>>, initS: Option<Mat>,
                       initZ: Option<Vec>, cut: nat)
    returns (out: seq<Vec>, final: State, whole: seq<Vec>, last: State)
    requires h.kind.Hybrid? && h.blockSize > 0 && |q| == |k| == |v| && cut <= |q| && cut % h.blockSize == 0
    ensures out == whole && final == last
  {
    hide PaddedInput, Forward, FinalState, Entries, Whole, MaskFits;
    whole, last := HybridForward(h, q, k, v, mask, initS, initZ);
    var left, mid := HybridForward(h, q[..cut], k[..cut], v[..cut], MaskHead(mask, cut), initS, initZ);
    var right;
    right, final := HybridForward(h, q[cut..], k[cut..], v[cut..], MaskTail(mask, cut), Some(mid.s), Some(mid.z));
    out := left + right;
    WholeIsMod(cut, h.blockSize);
    PaddedSplit(h, q, k, v, mask, cut);
    ghost var start, all := StartState(h, initS, initZ), PaddedInput(h, q, k, v, mask);
    ForwardSplit(h, start, all, cut);
    ghost var a, b := Forward(h, start, all[..cut]), Forward(h, mid, all[cut..]);
    ForwardLength(h, start, all[..cut]);
    assert left == a[..cut] == a;
    assert (a + b)[..|q|] == a + b[..|q| - cut];
  }

  lemma ForwardLength(h: Head, st: State, es: seq<Entry>)
    requires h.blockSize > 0
    ensures |Forward(h, st, es)| == |es|
  {}

  lemma EntriesSplit(q: seq<Vec>, k: seq<Vec>, v: seq<Vec>, mask: Option<seq<bool>>, cut: nat)
    requires |q| == |k| == |v| && cut <= |q|
    ensures Entries(q, k, v, mask)[..cut] == Entries(q[..cut], k[..cut], v[..cut], MaskHead(mask, cut))
    ensures Entries(q, k, v, mask)[cut..] == Entries(q[cut..], k[cut..], v[cut..], MaskTail(mask, cut))
  {}

  /** The same for the linear class. */
  method LinearResumed(h: Head, q: seq<Vec>, k: seq<Vec>, v: seq<Vec>, padding: Option<seq<bool>>, initS: Option<Mat>,
                       initZ: Option<Vec>, cut: nat)
    returns (out: seq<Vec>, final: State, whole: seq<Vec>, last: State)
    requires h.kind.Linear? && h.blockSize > 0 && |q| == |k| == |v| && cut <= |q| && cut % h.blockSize == 0
    ensures out == whole && final == last
  {
    hide Forward, FinalState, Entries;
    whole, last := LinearForward(h, q, k, v, padding, None, 0, initS, initZ);
    var left, mid := LinearForward(h, q[..cut], k[..cut], v[..cut], MaskHead(padding, cut), None, 0, initS, initZ);
    var right;
    right, final := LinearForward(h, q[cut..], k[cut..], v[cut..], MaskTail(padding, cut), None, 0,
                                  Some(mid.s), Some(mid.z));
    out := left + right;
    EntriesSplit(q, k, v, padding, cut);
    ForwardSplit(h, StartState(h, initS, initZ), Entries(q, k, v, padding), cut);
  }

  /** The start of a call with a part of the state left out: the missing part counts as zeros. */
  function Filled(h: Head, initS: Option<Mat>): Mat {
    if initS.Some? then initS.value else seq(2 * h.feat, _ => Zeros(h.dim))
  }

  function FilledZ(h: Head, initZ: Option<Vec>): Vec {
    if initZ.Some? then initZ.value else Zeros(2 * h.feat)
  }

  lemma StartFilled(h: Head, initS: Option<Mat>, initZ: Option<Vec>)
    ensures StartState(h, initS, initZ) == StartState(h, Some(Filled(h, initS)), Some(FilledZ(h, initZ)))
  {
    assert ZeroState(h).s == Filled(h, None);
  }

  /** S or Z given alone, or neither: the same as giving zeros for what is missing. */
  method HybridStarts(h: Head, q: seq<Vec>, k: seq<Vec>, v: seq<Vec>, mask: Option<seq<bool>>, initS: Option<Mat>,
                      initZ: Option<Vec>)
    returns (out: seq<Vec>, final: State, filled: seq<Vec>, last: State)
    requires h.kind.Hybrid? && h.blockSize > 0 && |q| == |k| == |v|
    ensures out == filled && final == last
  {
    hide PaddedInput, Forward, FinalState, Entries, StartState, MaskFits;
    out, final := HybridForward(h, q, k, v, mask, initS, initZ);
    filled, last := HybridForward(h, q, k, v, mask, Some(Filled(h, initS)), Some(FilledZ(h, initZ)));
    StartFilled(h, initS, initZ);
  }

  method LinearStarts(h: Head, q: seq<Vec>, k: seq<Vec>, v: seq<Vec>, padding: Option<seq<bool>>,
                      attention: Option<AttnMask>, row: nat, initS: Option<Mat>, initZ: Option<Vec>)
    returns (out: seq<Vec>, final: State, filled: seq<Vec>, last: State)
    requires h.kind.Linear? && h.blockSize > 0 && |q| == |k| == |v|
    requires attention.Some? ==> row < Rows(attention.value)
    ensures out == filled && final == last
  {
    hide Forward, FinalState, Entries, StartState, KeyMask;
    out, final := LinearForward(h, q, k, v, padding, attention, row, initS, initZ);
    filled, last := LinearForward(h, q, k, v, padding, attention, row, Some(Filled(h, initS)), Some(FilledZ(h, initZ)));
    StartFilled(h, initS, initZ);
  }

  // ----- the priority of the masks -----

  /** With a padding mask given, any two attention masks lead to the same result. */
  method LinearPadded(h: Head, q: seq<Vec>, k: seq<Vec>, v: seq<Vec>, padding: seq<bool>, a: Option<AttnMask>,
                      rowA: nat, b: Option<AttnMask>, rowB: nat, initS: Option<Mat>, initZ: Option<Vec>)
    returns (out: seq<Vec>, final: State, out': seq<Vec>, final': State)
    requires h.kind.Linear? && h.blockSize > 0 && |q| == |k| == |v|
    requires (a.Some? ==> rowA < Rows(a.value)) && (b.Some? ==> rowB < Rows(b.value))
    ensures out == out' && final == final'
  {
    hide Forward, FinalState, Entries, StartState;
    out, final := LinearForward(h, q, k, v, Some(padding), a, rowA, initS, initZ);
    out', final' := LinearForward(h, q, k, v, Some(padding), b, rowB, initS, initZ);
  }

  // ----- the halves of a BD3LM call -----

  /** Clean positions before lo, then noisy positions lo..hi, out of a tensor that holds noisy and clean halves. */
  function Stair<T>(x: seq<T>, half: nat, lo: nat, hi: nat): (r: seq<T>)
    requires lo <= hi <= half && |x| == 2 * half
    ensures |r| == hi
  {
    x[half..half + lo] + x[lo..hi]
  }

  /** Their part of the mask; positions a short mask does not reach are masked. */
  function StairMask(mask: Option<seq<bool>>, half: nat, lo: nat, hi: nat): Option<seq<bool>>
    requires lo <= hi <= half
  {
    if mask.None? then None
    else
      Some(seq(hi, i requires 0 <= i < hi =>
        var at := if i < lo then half + i else i; at < |mask.value| && mask.value[at]))
  }

  lemma StairEntries(q: seq<Vec>, k: seq<Vec>, v: seq<Vec>, mask: Option<seq<bool>>, half: nat, lo: nat, hi: nat)
    requires |q| == |k| == |v| == 2 * half && (mask.Some? ==> |mask.value| <= 2 * half) && lo <= hi <= half
    ensures var r := SplitHalves(q, k, v, mask, half);
            Entries(Stair(q, half, lo, hi), Stair(k, half, lo, hi), Stair(v, half, lo, hi),
                    StairMask(mask, half, lo, hi)) == r.clean[..lo] + r.noisy[lo..hi]
  {
    hide SplitHalves;
    var r := SplitHalves(q, k, v, mask, half);
    var a := Entries(Stair(q, half, lo, hi), Stair(k, half, lo, hi), Stair(v, half, lo, hi),
                     StairMask(mask, half, lo, hi));
    forall i | 0 <= i < hi ensures a[i] == (if i < lo then r.clean[i] else r.noisy[i]) {
      HalfAt(q, k, v, mask, half, i);
    }
  }

  lemma HalfAt(q: seq<Vec>, k: seq<Vec>, v: seq<Vec>, mask: Option<seq<bool>>, half: nat, i: nat)
    requires |q| == |k| == |v| == 2 * half && (mask.Some? ==> |mask.value| <= 2 * half) && i < half
    ensures var r := SplitHalves(q, k, v, mask, half);
            && r.noisy[i] == Entry(q[i], k[i], v[i], MaskAt(mask, i))
            && r.clean[i] == Entry(q[half + i], k[half + i], v[half + i], MaskAt(mask, half + i))
  {}

  lemma CleanEntries(q: seq<Vec>, k: seq<Vec>, v: seq<Vec>, mask: Option<seq<bool>>, half: nat)
    requires |q| == |k| == |v| == 2 * half && (mask.Some? ==> |mask.value| <= 2 * half)
    ensures Entries(q[half..], k[half..], v[half..], MaskTail(mask, half)) == SplitHalves(q, k, v, mask, half).clean
  {}

  /**
   BD3LM for the hybrid class: the second half of the result is `forward` on the second half of the tensors; the
   block at lo of the first half is the last block of `forward` on the clean positions before lo followed by the
   noisy block.
   */
  method HybridHalves(h: Head, q: seq<Vec>, k: seq<Vec>, v: seq<Vec>, half: nat, mask: Option<seq<bool>>, lo: nat,
                      hi: nat)
    returns (out: seq<Vec>, clean: seq<Vec>, stair: seq<Vec>)
    requires h.kind.Hybrid? && h.blockSize > 0 && lo < half && lo % h.blockSize == 0
    requires |q| == |k| == |v| == 2 * half && (mask.Some? ==> |mask.value| <= 2 * half)
    requires hi == if lo + h.blockSize <= half then lo + h.blockSize else half
    ensures |out| == 2 * half && |stair| == hi && out[half..] == clean && out[lo..hi] == stair[lo..]
  {
    hide Forward, FinalState, Entries, StartState, SplitHalves, Staircase, PaddedInput, Stair, StairMask;
    out := HybridBd3lm(h, q, k, v, half, mask);
    var end;
    clean, end := HybridForward(h, q[half..], k[half..], v[half..], MaskTail(mask, half), None, None);
    stair, end := HybridForward(h, Stair(q, half, lo, hi), Stair(k, half, lo, hi), Stair(v, half, lo, hi),
                                StairMask(mask, half, lo, hi), None, None);
    CleanEntries(q, k, v, mask, half);
    StairEntries(q, k, v, mask, half, lo, hi);
    FreshStart(h);
    StairFits(mask, half, lo, hi);
    ghost var r := SplitHalves(q, k, v, mask, half);
    StaircaseIsSequential(h, r.noisy, r.clean);
    assert SequentialAt(h, r.noisy, r.clean, lo);
  }

  lemma FreshStart(h: Head)
    ensures StartState(h, None, None) == ZeroState(h)
  {}

  lemma StairFits(mask: Option<seq<bool>>, half: nat, lo: nat, hi: nat)
    requires lo <= hi <= half
    ensures StairMask(mask, half, lo, hi).Some? ==> |StairMask(mask, half, lo, hi).value| == hi
  {}

  /** The same for the linear class. */
  method LinearHalves(h: Head, q: seq<Vec>, k: seq<Vec>, v: seq<Vec>, half: nat, mask: Option<seq<bool>>, lo: nat,
                      hi: nat)
    returns (out: seq<Vec>, clean: seq<Vec>, stair: seq<Vec>)
    requires h.kind.Linear? && h.blockSize > 0 && lo < half && lo % h.blockSize == 0
    requires |q| == |k| == |v| == 2 * half && (mask.Some? ==> |mask.value| <= 2 * half)
    requires hi == if lo + h.blockSize <= half then lo + h.blockSize else half
    ensures |out| == 2 * half && |stair| == hi && out[half..] == clean && out[lo..hi] == stair[lo..]
  {
    hide Forward, FinalState, Entries, StartState, SplitHalves, Staircase, Stair, StairMask;
    out := LinearBd3lm(h, q, k, v, half, mask);
    var end;
    clean, end := LinearForward(h, q[half..], k[half..], v[half..], MaskTail(mask, half), None, 0, None, None);
    stair, end := LinearForward(h, Stair(q, half, lo, hi), Stair(k, half, lo, hi), Stair(v, half, lo, hi),
                                StairMask(mask, half, lo, hi), None, 0, None, None);
    CleanEntries(q, k, v, mask, half);
    StairEntries(q, k, v, mask, half, lo, hi);
    FreshStart(h);
    ghost var r := SplitHalves(q, k, v, mask, half);
    StaircaseIsSequential(h, r.noisy, r.clean);
    assert SequentialAt(h, r.noisy, r.clean, lo);
  }
}
