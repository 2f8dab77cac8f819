/** What every run of the decoder keeps. */
module DecodeProperties {
  import opened Wrappers
  import opened Selection
  import opened BlockMath
  import opened Layers
  import opened Decode

  // ----- frozen positions -----

  /** Row r agrees with row `was` outside block n, and on the prompt positions that hold a token. */
  ghost predicate KeepsOutside(c: Config, prompt: nat, was: Row, r: Row, n: nat) {
    && |r| == |was|
    && (forall i :: 0 <= i < |r| && !(Span(n, c.bl) <= i < Span(n + 1, c.bl)) ==> r[i] == was[i])
    && (forall i :: 0 <= i < |r| && i < prompt && was[i] != c.mask ==> r[i] == was[i])
  }

  ghost predicate AllKeep(c: Config, prompt: nat, x: seq<Row>, y: seq<Row>, n: nat) {
    |x| == |y| && forall b :: 0 <= b < |x| ==> KeepsOutside(c, prompt, x[b], y[b], n)
  }

  /** The top-k fallback picks only masked positions. */
  lemma TransferIsMasked(d: Decoder, block: Row, smp: seq<(Token, real)>)
    requires |smp| == |block| && SelectsTopK(d.topk)
    ensures MaskTransfer(d, block, smp) <= MaskPositions(d.cfg, block)
  {
    var active, conf := MaskPositions(d.cfg, block), MaskConfidence(d.cfg, block, smp);
    assert FinitePositions(conf) == active;
    BoundedSize(active, |block|);
    var k := Min(d.cfg.numTransfer, |active|);
    if active != {} && |HighConfidence(d.cfg, block, smp)| < d.cfg.numTransfer {
      assert IsTopK(conf, k, d.topk(conf, k));
      TopKAvoidsMasked(conf, k, d.topk(conf, k));
    }
  }

  lemma StepKeeps(d: Decoder, mode: Mode, prompt: nat, row: Row, n: nat)
    requires ModelOk(d.model) && Span(n + 1, d.cfg.bl) <= |row| && SelectsTopK(d.topk)
    ensures KeepsOutside(d.cfg, prompt, row, StepRow(d, mode, prompt, row, n), n)
  {
    hide Samples, SelectsTopK, MaskTransfer;
    var lo := Span(n, d.cfg.bl);
    var block, smp := Block(d.cfg, row, n), Samples(d, mode, row, n);
    TransferIsMasked(d, block, smp);
    var r := StepRow(d, mode, prompt, row, n);
    forall i | lo <= i < lo + d.cfg.bl && i < prompt && row[i] != d.cfg.mask ensures r[i] == row[i] {
      assert block[i - lo] == row[i];
      assert r[i] == NewBlock(d, block, smp, PromptIn(d.cfg, prompt, lo))[i - lo];
    }
  }

  lemma KeepsTransitive(c: Config, prompt: nat, x: seq<Row>, y: seq<Row>, z: seq<Row>, n: nat)
    requires AllKeep(c, prompt, x, y, n) && AllKeep(c, prompt, y, z, n)
    ensures AllKeep(c, prompt, x, z, n)
  {}

  lemma {:induction false} DenoiseKeeps(d: Decoder, mode: Mode, prompt: nat, x: seq<Row>, n: nat, len: nat,
                                        count: nat, post: int)
    requires ModelOk(d.model) && Rect(x, len) && Span(n + 1, d.cfg.bl) <= len && SelectsTopK(d.topk)
    ensures AllKeep(d.cfg, prompt, x, Denoise(d, mode, prompt, x, n, len, count, post), n)
    decreases EffectiveSteps(d.cfg) - count
  {
    hide StepRow, AnyMasked, AnyEdited, SelectsTopK;
    var y := Step(d, mode, prompt, x, n, len);
    forall b | 0 <= b < |x| ensures KeepsOutside(d.cfg, prompt, x[b], y[b], n) {
      StepKeeps(d, mode, prompt, x[b], n);
    }
    if count < EffectiveSteps(d.cfg) {
      var post' := if AnyMasked(d.cfg, x, n, len) then post else post + 1;
      DenoiseKeeps(d, mode, prompt, y, n, len, count + 1, post');
      KeepsTransitive(d.cfg, prompt, x, y, Denoise(d, mode, prompt, y, n, len, count + 1, post'), n);
    }
  }

  /** Rows agree below `lo` and on the prompt positions that hold a token. */
  ghost predicate FrozenBelow(c: Config, prompt: nat, lo: nat, x: seq<Row>, y: seq<Row>) {
    |x| == |y| && forall b :: 0 <= b < |x| ==>
      && |x[b]| == |y[b]|
      && (forall i :: 0 <= i < |x[b]| && i < lo ==> y[b][i] == x[b][i])
      && (forall i :: 0 <= i < |x[b]| && i < prompt && x[b][i] != c.mask ==> y[b][i] == x[b][i])
  }

  lemma FrozenStep(c: Config, prompt: nat, x: seq<Row>, y: seq<Row>, z: seq<Row>, n: nat)
    requires AllKeep(c, prompt, x, y, n) && FrozenBelow(c, prompt, Span(n + 1, c.bl), y, z)
    ensures FrozenBelow(c, prompt, Span(n, c.bl), x, z)
  {
    forall b | 0 <= b < |x|
      ensures |x[b]| == |z[b]|
      ensures forall i :: 0 <= i < |x[b]| && i < Span(n, c.bl) ==> z[b][i] == x[b][i]
      ensures forall i :: 0 <= i < |x[b]| && i < prompt && x[b][i] != c.mask ==> z[b][i] == x[b][i]
    {
      assert KeepsOutside(c, prompt, x[b], y[b], n);
    }
  }

  /** Committed blocks are frozen: from block n on, no run changes a position of the blocks before it. */
  lemma {:induction false} BlocksFrozen(d: Decoder, mode: Mode, early: Option<Token>, prompt: nat, x: seq<Row>,
                                        n: nat, total: nat)
    requires ModelOk(d.model) && Rect(x, Span(total, d.cfg.bl)) && n <= total && SelectsTopK(d.topk)
    ensures FrozenBelow(d.cfg, prompt, Span(n, d.cfg.bl), x, RunBlocks(d, mode, early, prompt, x, n, total))
    decreases total - n
  {
    hide Denoise, SelectsTopK, Stops;
    if n < total {
      SpanMonotone(n + 1, total, d.cfg.bl);
      var y := Denoise(d, mode, prompt, x, n, Span(total, d.cfg.bl), 0, 0);
      DenoiseKeeps(d, mode, prompt, x, n, Span(total, d.cfg.bl), 0, 0);
      BlocksFrozen(d, mode, early, prompt, y, n + 1, total);
      FrozenStep(d.cfg, prompt, x, y, RunBlocks(d, mode, early, prompt, y, n + 1, total), n);
      FrozenStep(d.cfg, prompt, x, y, y, n);
    }
  }

  /** The prompt survives: exactly the mask tokens of a partial prompt block may be replaced. */
  lemma PromptFrozen(d: Decoder, mode: Mode, early: Option<Token>, prompts: seq<Row>, prompt: nat, b: nat, i: nat)
    requires ModelOk(d.model) && Rect(prompts, prompt) && SelectsTopK(d.topk)
    requires b < |prompts| && i < prompt
    requires prompts[b][i] != d.cfg.mask || i < prompt / d.cfg.bl * d.cfg.bl
    ensures i < |FinalRows(d, mode, early, prompts, prompt)[b]|
    ensures FinalRows(d, mode, early, prompts, prompt)[b][i] == prompts[b][i]
  {
    hide RunBlocks, SelectsTopK;
    BufferFits(d.cfg, prompt);
    var total := TotalBlocks(d.cfg, prompt);
    var x := Initial(d.cfg, prompts, prompt, Span(total, d.cfg.bl));
    SpanIsProduct(prompt / d.cfg.bl, d.cfg.bl);
    BlocksFrozen(d, mode, early, prompt, x, prompt / d.cfg.bl, total);
    assert x[b][i] == prompts[b][i];
  }

  // ----- early stop -----

  /**
   Rows of an early-stopped run and of the full run agree below hi; from hi on the early-stopped rows
   are still those the run started from.
   */
  ghost predicate AgreeTo(hi: nat, start: seq<Row>, early: seq<Row>, full: seq<Row>) {
    && |start| == |early| == |full|
    && forall b :: 0 <= b < |start| ==>
        && |start[b]| == |early[b]| == |full[b]|
        && (forall i :: 0 <= i < |start[b]| && i < hi ==> early[b][i] == full[b][i])
        && (forall i :: 0 <= i < |start[b]| && hi <= i ==> early[b][i] == start[b][i])
  }

  /** Either the stop came after the last block, or it cut at the end of a block m before it. */
  lemma {:induction false} StopAgrees(d: Decoder, mode: Mode, eos: Token, prompt: nat, x: seq<Row>, n: nat, total: nat)
      returns (m: nat)
    requires ModelOk(d.model) && Rect(x, Span(total, d.cfg.bl)) && n <= total && SelectsTopK(d.topk)
    ensures var early := RunBlocks(d, mode, Some(eos), prompt, x, n, total);
            var full := RunBlocks(d, mode, None, prompt, x, n, total);
            early == full || (n <= m && m + 1 < total && Stops(d.cfg, prompt, early, Span(m + 1, d.cfg.bl), eos)
                              && AgreeTo(Span(m + 1, d.cfg.bl), x, early, full))
    decreases total - n
  {
    hide Denoise, SelectsTopK, Stops;
    m := n;
    if n < total {
      SpanMonotone(n + 1, total, d.cfg.bl);
      var y := Denoise(d, mode, prompt, x, n, Span(total, d.cfg.bl), 0, 0);
      DenoiseKeeps(d, mode, prompt, x, n, Span(total, d.cfg.bl), 0, 0);
      var full := RunBlocks(d, mode, None, prompt, y, n + 1, total);
      if Stops(d.cfg, prompt, y, Span(n + 1, d.cfg.bl), eos) {
        if n + 1 < total {
          BlocksFrozen(d, mode, None, prompt, y, n + 1, total);
          AgreeAtStop(d.cfg, prompt, x, y, full, n);
        }
      } else {
        m := StopAgrees(d, mode, eos, prompt, y, n + 1, total);
        var early := RunBlocks(d, mode, Some(eos), prompt, y, n + 1, total);
        if early != full {
          SpanMonotone(n + 1, m + 1, d.cfg.bl);
          AgreeBack(d.cfg, prompt, x, y, early, full, n, Span(m + 1, d.cfg.bl));
        }
      }
    }
  }

  lemma AgreeAtStop(c: Config, prompt: nat, x: seq<Row>, y: seq<Row>, full: seq<Row>, n: nat)
    requires AllKeep(c, prompt, x, y, n) && FrozenBelow(c, prompt, Span(n + 1, c.bl), y, full)
    ensures AgreeTo(Span(n + 1, c.bl), x, y, full)
  {
    assert forall b :: 0 <= b < |x| ==> KeepsOutside(c, prompt, x[b], y[b], n);
  }

  lemma AgreeBack(c: Config, prompt: nat, x: seq<Row>, y: seq<Row>, early: seq<Row>, full: seq<Row>, n: nat, hi: nat)
    requires AllKeep(c, prompt, x, y, n) && AgreeTo(hi, y, early, full) && Span(n + 1, c.bl) <= hi
    ensures AgreeTo(hi, x, early, full)
  {
    assert forall b :: 0 <= b < |x| ==> KeepsOutside(c, prompt, x[b], y[b], n);
  }

  /** Rows that agree up to an end token are trimmed to the same row. */
  lemma TrimAgree(a: Row, b: Row, eos: Token, e: nat)
    requires |a| == |b| && e < |a| && a[e] == eos
    requires forall i :: 0 <= i <= e ==> a[i] == b[i]
    ensures TrimRow(a, eos) == TrimRow(b, eos)
  {
    assert FirstEos(a, eos) == FirstEos(b, eos);
  }

  /** The run with every block decoded, then everything after the first end token overwritten by it. */
  function Reference(d: Decoder, mode: Mode, eos: Token, prompts: seq<Row>, prompt: nat): (r: seq<Row>)
    requires ModelOk(d.model) && Rect(prompts, prompt)
    ensures |r| == |prompts|
  {
    BufferFits(d.cfg, prompt);
    var x := FinalRows(d, mode, None, prompts, prompt);
    seq(|x|, b requires 0 <= b < |x| => TrimRow(x[b][prompt..prompt + d.cfg.genLength], eos))
  }

  /** A row whose answer holds an end token gets the answer of the full run. */
  lemma EarlyStopPerRow(d: Decoder, mode: Mode, eos: Token, prompts: seq<Row>, prompt: nat, b: nat)
    requires ModelOk(d.model) && Rect(prompts, prompt) && SelectsTopK(d.topk) && b < |prompts|
    requires eos in Generated(d, mode, Some(eos), prompts, prompt)[b] || |prompts| == 1
    ensures Generated(d, mode, Some(eos), prompts, prompt)[b] == Reference(d, mode, eos, prompts, prompt)[b]
  {
    hide RunBlocks, SelectsTopK, Stops, AgreeTo, FirstEos, TrimRow, Initial;
    BufferFits(d.cfg, prompt);
    var total, end := TotalBlocks(d.cfg, prompt), prompt + d.cfg.genLength;
    var len, n := Span(total, d.cfg.bl), prompt / d.cfg.bl;
    var x := Initial(d.cfg, prompts, prompt, len);
    var early := RunBlocks(d, mode, Some(eos), prompt, x, n, total);
    var full := RunBlocks(d, mode, None, prompt, x, n, total);
    var m := StopAgrees(d, mode, eos, prompt, x, n, total);
    if early != full {
      BlockInside(d.cfg, prompt, m);
      SameTrim(d.cfg, prompt, prompts, x, early, full, eos, b, Span(m + 1, d.cfg.bl), end, len);
    }
  }

  /** A block before the last one ends inside the answer. */
  lemma BlockInside(c: Config, prompt: nat, m: nat)
    requires m + 1 < TotalBlocks(c, prompt)
    ensures Span(m + 1, c.bl) < prompt + c.genLength
  {
    hide PadLength;
    NumBlocksPad(prompt + c.genLength, c.bl);
    SpanMonotone(m + 2, TotalBlocks(c, prompt), c.bl);
  }

  lemma SameTrim(c: Config, prompt: nat, prompts: seq<Row>, x: seq<Row>, early: seq<Row>, full: seq<Row>,
                 eos: Token, b: nat, hi: nat, end: nat, len: nat)
    requires Rect(prompts, prompt) && b < |prompts| && prompt <= end <= len
    requires x == Initial(c, prompts, prompt, len) && Rect(early, len) && Rect(full, len)
    requires Stops(c, prompt, early, hi, eos) && AgreeTo(hi, x, early, full) && hi <= end
    requires eos in TrimRow(early[b][prompt..end], eos) || |prompts| == 1
    ensures TrimRow(early[b][prompt..end], eos) == TrimRow(full[b][prompt..end], eos)
  {
    hide FirstEos, TrimRow, Initial, Stops;
    var i := EosBelow(c, prompt, prompts, x, early, full, eos, b, hi, end, len);
    TrimAgree(early[b][prompt..end], full[b][prompt..end], eos, i - prompt);
  }

  /** The end token of a stopped row lies in the part that is final. */
  lemma EosBelow(c: Config, prompt: nat, prompts: seq<Row>, x: seq<Row>, early: seq<Row>, full: seq<Row>,
                 eos: Token, b: nat, hi: nat, end: nat, len: nat) returns (i: nat)
    requires Rect(prompts, prompt) && b < |prompts| && prompt <= end <= len
    requires x == Initial(c, prompts, prompt, len) && Rect(early, len)
    requires Stops(c, prompt, early, hi, eos) && AgreeTo(hi, x, early, full) && hi <= end
    requires eos in TrimRow(early[b][prompt..end], eos) || |prompts| == 1
    ensures prompt <= i < hi && early[b][i] == eos
  {
    assert |x| == |prompts|;
    var b0, i0 :| 0 <= b0 < |early| && prompt <= i0 < hi && i0 < |early[b0]| && early[b0][i0] == eos;
    if |prompts| == 1 {
      i := i0;
    } else {
      var gen := early[b][prompt..end];
      var cut := FirstEos(gen, eos);
      assert cut < |gen| by {
        var t := TrimRow(gen, eos);
        var j :| 0 <= j < |t| && t[j] == eos;
      }
      i := prompt + cut;
      assert early[b][i] == gen[cut] == eos != c.mask;
      assert x[b][i] == c.mask;
    }
  }

  /** For a one-row batch early stop cannot be observed. */
  lemma EarlyStopTransparent(d: Decoder, mode: Mode, eos: Token, prompts: seq<Row>, prompt: nat)
    requires ModelOk(d.model) && Rect(prompts, prompt) && SelectsTopK(d.topk) && |prompts| == 1
    ensures Generated(d, mode, Some(eos), prompts, prompt) == Reference(d, mode, eos, prompts, prompt)
  {
    EarlyStopPerRow(d, mode, eos, prompts, prompt, 0);
  }

  // ----- progress -----

  ghost predicate NeverMask(d: Decoder) {
    forall v :: d.sample(v).0 != d.cfg.mask
  }

  /** A block's step budget is enough to fill it. */
  ghost predicate Enough(c: Config) {
    c.numTransfer >= 1 && c.maxPostSteps >= 0 && EffectiveSteps(c) * c.numTransfer >= c.bl
  }

  /** The sampler never returns the mask and a block's step budget is enough to fill it. */
  ghost predicate Clears(d: Decoder) {
    NeverMask(d) && Enough(d.cfg)
  }

  function RowMasks(c: Config, row: Row, n: nat): set<nat>
    requires Span(n + 1, c.bl) <= |row|
  {
    MaskPositions(c, Block(c, row, n))
  }

  /** A step unmasks at least min(num_to_transfer, remaining) positions of every row and masks none. */
  lemma StepProgress(d: Decoder, mode: Mode, prompt: nat, row: Row, n: nat)
    requires ModelOk(d.model) && Span(n + 1, d.cfg.bl) <= |row| && SelectsTopK(d.topk)
    requires NeverMask(d)
    ensures RowMasks(d.cfg, StepRow(d, mode, prompt, row, n), n) <= RowMasks(d.cfg, row, n)
    ensures |RowMasks(d.cfg, StepRow(d, mode, prompt, row, n), n)|
         <= |RowMasks(d.cfg, row, n)| - Min(d.cfg.numTransfer, |RowMasks(d.cfg, row, n)|)
  {
    hide SelectsTopK, Samples, MaskTransfer, NewBlock;
    var lo := Span(n, d.cfg.bl);
    var block, smp := Block(d.cfg, row, n), Samples(d, mode, row, n);
    SamplesNeverMask(d, mode, row, n);
    var next := NewBlock(d, block, smp, PromptIn(d.cfg, prompt, lo));
    assert Block(d.cfg, StepRow(d, mode, prompt, row, n), n) == next;
    NewBlockMasks(d, block, smp, PromptIn(d.cfg, prompt, lo));
  }

  lemma SamplesNeverMask(d: Decoder, mode: Mode, row: Row, n: nat)
    requires ModelOk(d.model) && Span(n + 1, d.cfg.bl) <= |row| && NeverMask(d)
    ensures forall i :: 0 <= i < d.cfg.bl ==> Samples(d, mode, row, n)[i].0 != d.cfg.mask
  {
    hide LastLogits, Penalize;
    var window := row[..Span(n + 1, d.cfg.bl)];
    var logits := LastLogits(d.model, mode, window, d.cfg.bl, n);
    forall i | 0 <= i < d.cfg.bl ensures Samples(d, mode, row, n)[i].0 != d.cfg.mask {
      assert d.sample(Penalize(d.cfg, logits[i], window)).0 != d.cfg.mask;
    }
  }

  lemma NewBlockMasks(d: Decoder, block: Row, smp: seq<(Token, real)>, promptIn: nat)
    requires |smp| == |block| && SelectsTopK(d.topk)
    requires forall i :: 0 <= i < |block| ==> smp[i].0 != d.cfg.mask
    ensures var left := MaskPositions(d.cfg, NewBlock(d, block, smp, promptIn));
            var was := MaskPositions(d.cfg, block);
            left <= was && |left| <= |was| - Min(d.cfg.numTransfer, |was|)
  {
    hide SelectsTopK, MaskTransfer;
    var moved, was := MaskTransfer(d, block, smp), MaskPositions(d.cfg, block);
    TransferIsMasked(d, block, smp);
    TransferSize(d, block, smp);
    assert MaskPositions(d.cfg, NewBlock(d, block, smp, promptIn)) == was - moved;
    SplitSize(was, moved);
  }

  lemma SplitSize(a: set<nat>, b: set<nat>)
    requires b <= a
    ensures |a - b| == |a| - |b|
  {
    assert a == (a - b) + b;
  }

  lemma TransferSize(d: Decoder, block: Row, smp: seq<(Token, real)>)
    requires |smp| == |block| && SelectsTopK(d.topk)
    ensures |MaskTransfer(d, block, smp)| >= Min(d.cfg.numTransfer, |MaskPositions(d.cfg, block)|)
  {
    var active, conf := MaskPositions(d.cfg, block), MaskConfidence(d.cfg, block, smp);
    BoundedSize(active, |block|);
    var k := Min(d.cfg.numTransfer, |active|);
    if active != {} && |HighConfidence(d.cfg, block, smp)| < d.cfg.numTransfer {
      assert IsTopK(conf, k, d.topk(conf, k));
    }
  }

  /** Every row of block n has at most k masks left. */
  ghost predicate AtMost(c: Config, x: seq<Row>, n: nat, len: nat, k: int)
    requires Rect(x, len) && Span(n + 1, c.bl) <= len
  {
    forall b :: 0 <= b < |x| ==> |RowMasks(c, x[b], n)| <= k
  }

  lemma MaskedIffCounted(c: Config, x: seq<Row>, n: nat, len: nat)
    requires Rect(x, len) && Span(n + 1, c.bl) <= len
    ensures AnyMasked(c, x, n, len) <==> !AtMost(c, x, n, len, 0)
  {
    forall b | 0 <= b < |x| ensures RowMasked(c, x[b], n) <==> |RowMasks(c, x[b], n)| > 0 {
      var block := Block(c, x[b], n);
      if RowMasked(c, x[b], n) {
        var i :| 0 <= i < |block| && block[i] == c.mask;
        assert i in RowMasks(c, x[b], n);
      } else {
        assert RowMasks(c, x[b], n) == {};
      }
    }
  }

  lemma {:induction false} DenoiseClears(d: Decoder, mode: Mode, prompt: nat, x: seq<Row>, n: nat, len: nat,
                                         count: nat, post: int)
    requires ModelOk(d.model) && Rect(x, len) && Span(n + 1, d.cfg.bl) <= len && SelectsTopK(d.topk)
    requires NeverMask(d) && d.cfg.numTransfer >= 1 && post <= d.cfg.maxPostSteps
    requires count <= EffectiveSteps(d.cfg)
    requires AtMost(d.cfg, x, n, len, Span(EffectiveSteps(d.cfg) - count, d.cfg.numTransfer))
    ensures AtMost(d.cfg, Denoise(d, mode, prompt, x, n, len, count, post), n, len, 0)
    decreases EffectiveSteps(d.cfg) - count
  {
    hide SelectsTopK, StepRow, RowMasks, AnyMasked, AnyEdited, NeverMask;
    if count < EffectiveSteps(d.cfg) {
      MaskedIffCounted(d.cfg, x, n, len);
      var y := Step(d, mode, prompt, x, n, len);
      forall b | 0 <= b < |x|
        ensures |RowMasks(d.cfg, y[b], n)|
             <= |RowMasks(d.cfg, x[b], n)| - Min(d.cfg.numTransfer, |RowMasks(d.cfg, x[b], n)|)
      {
        StepProgress(d, mode, prompt, x[b], n);
      }
      var post' := if AnyMasked(d.cfg, x, n, len) then post else post + 1;
      if post' <= d.cfg.maxPostSteps { DenoiseClears(d, mode, prompt, y, n, len, count + 1, post'); }
    }
  }

  lemma RowMasksBound(c: Config, row: Row, n: nat)
    requires Span(n + 1, c.bl) <= |row|
    ensures |RowMasks(c, row, n)| <= c.bl
  {
    BoundedSize(RowMasks(c, row, n), c.bl);
  }

  /** With enough steps every visited block ends without masks. */
  lemma BlockCleared(d: Decoder, mode: Mode, prompt: nat, x: seq<Row>, n: nat, len: nat)
    requires ModelOk(d.model) && Rect(x, len) && Span(n + 1, d.cfg.bl) <= len && SelectsTopK(d.topk)
    requires Clears(d)
    ensures !AnyMasked(d.cfg, Denoise(d, mode, prompt, x, n, len, 0, 0), n, len)
  {
    hide Denoise, SelectsTopK, NeverMask, AnyMasked, RowMasks, EffectiveSteps;
    var e := EffectiveSteps(d.cfg);
    assert e >= 0 by { assert e < 0 ==> e * d.cfg.numTransfer < 0; }
    SpanIsProduct(e, d.cfg.numTransfer);
    forall b | 0 <= b < |x| ensures |RowMasks(d.cfg, x[b], n)| <= d.cfg.bl {
      RowMasksBound(d.cfg, x[b], n);
    }
    DenoiseClears(d, mode, prompt, x, n, len, 0, 0);
    MaskedIffCounted(d.cfg, Denoise(d, mode, prompt, x, n, len, 0, 0), n, len);
  }

  ghost predicate Clear(c: Config, x: seq<Row>, lo: nat, hi: nat) {
    forall b, i :: 0 <= b < |x| && lo <= i < hi && i < |x[b]| ==> x[b][i] != c.mask
  }

  lemma {:induction false} RunClears(d: Decoder, mode: Mode, prompt: nat, x: seq<Row>, n: nat, total: nat)
    requires ModelOk(d.model) && Rect(x, Span(total, d.cfg.bl)) && n <= total && SelectsTopK(d.topk)
    requires Clears(d)
    ensures Clear(d.cfg, RunBlocks(d, mode, None, prompt, x, n, total), Span(n, d.cfg.bl), Span(total, d.cfg.bl))
    decreases total - n
  {
    hide Denoise, SelectsTopK, Clears, AnyMasked;
    if n < total {
      SpanMonotone(n + 1, total, d.cfg.bl);
      var len := Span(total, d.cfg.bl);
      var y := Denoise(d, mode, prompt, x, n, len, 0, 0);
      BlockCleared(d, mode, prompt, x, n, len);
      RunClears(d, mode, prompt, y, n + 1, total);
      BlocksFrozen(d, mode, None, prompt, y, n + 1, total);
      ClearExtend(d.cfg, prompt, y, RunBlocks(d, mode, None, prompt, y, n + 1, total), n, len);
    }
  }

  lemma ClearExtend(c: Config, prompt: nat, y: seq<Row>, z: seq<Row>, n: nat, len: nat)
    requires Rect(y, len) && Rect(z, len) && Span(n + 1, c.bl) <= len && !AnyMasked(c, y, n, len)
    requires FrozenBelow(c, prompt, Span(n + 1, c.bl), y, z) && Clear(c, z, Span(n + 1, c.bl), len)
    ensures Clear(c, z, Span(n, c.bl), len)
  {
    var lo, hi := Span(n, c.bl), Span(n + 1, c.bl);
    forall b, i | 0 <= b < |z| && lo <= i < hi ensures z[b][i] != c.mask {
      assert !RowMasked(c, y[b], n);
      assert Block(c, y[b], n)[i - lo] == y[b][i] == z[b][i];
    }
  }

  /** With enough steps the answer of a full run holds no mask. */
  lemma AnswerUnmasked(d: Decoder, mode: Mode, prompts: seq<Row>, prompt: nat)
    requires ModelOk(d.model) && Rect(prompts, prompt) && SelectsTopK(d.topk)
    requires Clears(d)
    ensures forall b :: 0 <= b < |prompts| ==> d.cfg.mask !in Generated(d, mode, None, prompts, prompt)[b]
  {
    hide RunBlocks, SelectsTopK, Clears;
    BufferFits(d.cfg, prompt);
    var total := TotalBlocks(d.cfg, prompt);
    var x := Initial(d.cfg, prompts, prompt, Span(total, d.cfg.bl));
    RunClears(d, mode, prompt, x, prompt / d.cfg.bl, total);
    var y := FinalRows(d, mode, None, prompts, prompt);
    forall b | 0 <= b < |prompts| ensures d.cfg.mask !in Generated(d, mode, None, prompts, prompt)[b] {
      var gen := Generated(d, mode, None, prompts, prompt)[b];
      forall i | 0 <= i < |gen| ensures gen[i] != d.cfg.mask {
        assert gen[i] == y[b][prompt + i];
      }
    }
  }

  // ----- the cached run is the uncached run -----

  /** Both modes give the same logits for block n, whatever the window holds. */
  ghost predicate LogitsAgree(m: Model, bl: pos, n: nat)
    requires ModelOk(m)
  {
    forall window: seq<Token> :: |window| == Span(n + 1, bl) ==>
      LastLogits(m, Cached, window, bl, n) == LastLogits(m, Recompute, window, bl, n)
  }

  lemma AlignedAgree(m: Model, bl: pos, n: nat)
    requires ModelOk(m) && ModelAligned(m, bl) && MaskReadable(m, n)
    ensures LogitsAgree(m, bl, n)
  {
    hide LastLogits;
    forall window: seq<Token> | |window| == Span(n + 1, bl)
      ensures LastLogits(m, Cached, window, bl, n) == LastLogits(m, Recompute, window, bl, n)
    {
      CachedLogitsAgree(m, window, bl, n);
    }
  }

  lemma SamplesAgree(d: Decoder, row: Row, n: nat)
    requires ModelOk(d.model) && Span(n + 1, d.cfg.bl) <= |row| && LogitsAgree(d.model, d.cfg.bl, n)
    ensures Samples(d, Cached, row, n) == Samples(d, Recompute, row, n)
  {
    hide LastLogits;
    assert |row[..Span(n + 1, d.cfg.bl)]| == Span(n + 1, d.cfg.bl);
  }

  lemma {:induction false} DenoiseAgree(d: Decoder, prompt: nat, x: seq<Row>, n: nat, len: nat, count: nat, post: int)
    requires ModelOk(d.model) && Rect(x, len) && Span(n + 1, d.cfg.bl) <= len && LogitsAgree(d.model, d.cfg.bl, n)
    ensures Denoise(d, Cached, prompt, x, n, len, count, post) == Denoise(d, Recompute, prompt, x, n, len, count, post)
    decreases EffectiveSteps(d.cfg) - count
  {
    hide Samples, ModelOk, LogitsAgree, NewBlock, EditTransfer;
    forall b | 0 <= b < |x|
      ensures StepRow(d, Cached, prompt, x[b], n) == StepRow(d, Recompute, prompt, x[b], n)
      ensures RowEdited(d, Cached, prompt, x[b], n) == RowEdited(d, Recompute, prompt, x[b], n)
    {
      SamplesAgree(d, x[b], n);
    }
    var y := Step(d, Cached, prompt, x, n, len);
    assert y == Step(d, Recompute, prompt, x, n, len);
    if count < EffectiveSteps(d.cfg) {
      var post' := if AnyMasked(d.cfg, x, n, len) then post else post + 1;
      DenoiseAgree(d, prompt, y, n, len, count + 1, post');
    }
  }

  lemma {:induction false} RunAgree(d: Decoder, early: Option<Token>, prompt: nat, x: seq<Row>, n: nat, total: nat)
    requires ModelOk(d.model) && Rect(x, Span(total, d.cfg.bl)) && n <= total
    requires ModelAligned(d.model, d.cfg.bl) && MaskReadable(d.model, n)
    ensures RunBlocks(d, Cached, early, prompt, x, n, total) == RunBlocks(d, Recompute, early, prompt, x, n, total)
    decreases total - n
  {
    hide Denoise, ModelOk, ModelAligned, LogitsAgree, Stops;
    if n < total {
      SpanMonotone(n + 1, total, d.cfg.bl);
      AlignedAgree(d.model, d.cfg.bl, n);
      DenoiseAgree(d, prompt, x, n, Span(total, d.cfg.bl), 0, 0);
      RunAgree(d, early, prompt, Denoise(d, Cached, prompt, x, n, Span(total, d.cfg.bl), 0, 0), n + 1, total);
    }
  }

  /**
   Generating with the prefix cache returns the tokens of the uncached run, for every prompt, sampler and
   stack of softmax and hybrid layers. Pure-linear layers are covered when the prompt fills a block.
   */
  lemma CachedEqualsUncached(d: Decoder, early: Option<Token>, prompts: seq<Row>, prompt: nat)
    requires ModelOk(d.model) && Rect(prompts, prompt)
    requires ModelAligned(d.model, d.cfg.bl)
    requires prompt >= d.cfg.bl || forall k :: 0 <= k < |d.model.layers| ==> NoPureLinear(d.model.layers[k])
    ensures Generated(d, Cached, early, prompts, prompt) == Generated(d, Recompute, early, prompts, prompt)
  {
    hide RunBlocks, ModelOk, ModelAligned;
    BufferFits(d.cfg, prompt);
    var n, total := prompt / d.cfg.bl, TotalBlocks(d.cfg, prompt);
    assert n > 0 <==> prompt >= d.cfg.bl;
    RunAgree(d, early, prompt, Initial(d.cfg, prompts, prompt, Span(total, d.cfg.bl)), n, total);
  }
}
