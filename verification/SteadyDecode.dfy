/**
 Decoders whose samples for a block do not depend on what is already filled in: one step fills the block, and
 the denoising loop then leaves it alone.
 */
module SteadyDecode {
  import opened Wrappers
  import opened Selection
  import opened BlockMath
  import opened Layers
  import opened Decode
  import opened DecodeProperties

  /** Every sample for block n of the row is `tok`, with a confidence above the threshold. */
  ghost predicate Sampled(d: Decoder, mode: Mode, row: Row, n: nat, tok: Token)
    requires ModelOk(d.model) && Span(n + 1, d.cfg.bl) <= |row|
  {
    forall i :: 0 <= i < d.cfg.bl ==>
      Samples(d, mode, row, n)[i].0 == tok && Samples(d, mode, row, n)[i].1 > d.cfg.threshold
  }

  /** The masks of block n replaced by tok. */
  function FillRow(c: Config, row: Row, n: nat, tok: Token): (r: Row)
    requires Span(n + 1, c.bl) <= |row|
    ensures |r| == |row|
    ensures forall i :: 0 <= i < |r| ==>
      r[i] == if Span(n, c.bl) <= i < Span(n + 1, c.bl) && row[i] == c.mask then tok else row[i]
  {
    seq(|row|, i requires 0 <= i < |row| =>
      if Span(n, c.bl) <= i < Span(n + 1, c.bl) && row[i] == c.mask then tok else row[i])
  }

  /** Behind the prompt, block n holds only masks and tok. */
  ghost predicate Fillable(c: Config, prompt: nat, row: Row, n: nat, tok: Token)
    requires Span(n + 1, c.bl) <= |row|
  {
    tok != c.mask && forall i :: 0 <= i < |row| && Span(n, c.bl) <= i < Span(n + 1, c.bl) && prompt <= i ==>
      row[i] == c.mask || row[i] == tok
  }

  lemma SameSize<T>(a: set<T>, b: set<T>)
    requires a <= b && |a| == |b|
    ensures a == b
  {
    assert b == a + (b - a);
  }

  /** With every sample confident, all masked positions are transferred, whatever num_to_transfer is. */
  lemma TransferAll(d: Decoder, block: Row, smp: seq<(Token, real)>)
    requires |smp| == |block| && SelectsTopK(d.topk) && forall i :: 0 <= i < |block| ==> smp[i].1 > d.cfg.threshold
    ensures MaskTransfer(d, block, smp) == MaskPositions(d.cfg, block)
  {
    var active, conf := MaskPositions(d.cfg, block), MaskConfidence(d.cfg, block, smp);
    assert HighConfidence(d.cfg, block, smp) == active;
    if active != {} && |active| < d.cfg.numTransfer {
      assert FinitePositions(conf) == active;
      BoundedSize(active, |block|);
      assert IsTopK(conf, |active|, d.topk(conf, |active|));
      TopKAvoidsMasked(conf, |active|, d.topk(conf, |active|));
      SameSize(d.topk(conf, |active|), active);
    }
  }

  lemma NoEdit(d: Decoder, mode: Mode, prompt: nat, row: Row, n: nat, tok: Token)
    requires ModelOk(d.model) && Span(n + 1, d.cfg.bl) <= |row|
    requires Sampled(d, mode, row, n, tok) && Fillable(d.cfg, prompt, row, n, tok)
    ensures EditTransfer(d.cfg, Block(d.cfg, row, n), Samples(d, mode, row, n),
      PromptIn(d.cfg, prompt, Span(n, d.cfg.bl))) == {}
  {
    hide Samples;
    var lo, block, smp := Span(n, d.cfg.bl), Block(d.cfg, row, n), Samples(d, mode, row, n);
    forall i: nat | i < |block| && block[i] != d.cfg.mask && PromptIn(d.cfg, prompt, lo) <= i
      ensures smp[i].0 == block[i]
    {
      assert block[i] == row[lo + i];
    }
  }

  lemma StepFills(d: Decoder, mode: Mode, prompt: nat, row: Row, n: nat, tok: Token)
    requires ModelOk(d.model) && Span(n + 1, d.cfg.bl) <= |row| && SelectsTopK(d.topk)
    requires Sampled(d, mode, row, n, tok) && Fillable(d.cfg, prompt, row, n, tok)
    ensures StepRow(d, mode, prompt, row, n) == FillRow(d.cfg, row, n, tok) && !RowEdited(d, mode, prompt, row, n)
  {
    hide Samples, SelectsTopK, MaskTransfer, EditTransfer;
    var lo, block, smp := Span(n, d.cfg.bl), Block(d.cfg, row, n), Samples(d, mode, row, n);
    TransferAll(d, block, smp);
    NoEdit(d, mode, prompt, row, n, tok);
    var next := NewBlock(d, block, smp, PromptIn(d.cfg, prompt, lo));
    forall i | 0 <= i < |row| ensures StepRow(d, mode, prompt, row, n)[i] == FillRow(d.cfg, row, n, tok)[i] {
      if lo <= i < lo + d.cfg.bl {
        assert StepRow(d, mode, prompt, row, n)[i] == next[i - lo];
        assert block[i - lo] == row[i];
      }
    }
  }

  ghost predicate AllFillable(d: Decoder, mode: Mode, prompt: nat, x: seq<Row>, n: nat, len: nat, toks: seq<Token>)
    requires ModelOk(d.model) && Rect(x, len) && Span(n + 1, d.cfg.bl) <= len
  {
    |toks| == |x| && forall b :: 0 <= b < |x| ==>
      && Fillable(d.cfg, prompt, x[b], n, toks[b])
      && Sampled(d, mode, x[b], n, toks[b]) && Sampled(d, mode, FillRow(d.cfg, x[b], n, toks[b]), n, toks[b])
  }

  function FillAll(c: Config, x: seq<Row>, n: nat, len: nat, toks: seq<Token>): (r: seq<Row>)
    requires Rect(x, len) && Span(n + 1, c.bl) <= len && |toks| == |x|
    ensures |r| == |x| && Rect(r, len)
  {
    seq(|x|, b requires 0 <= b < |x| => FillRow(c, x[b], n, toks[b]))
  }

  lemma StepFillsAll(d: Decoder, mode: Mode, prompt: nat, x: seq<Row>, n: nat, len: nat, toks: seq<Token>)
    requires ModelOk(d.model) && Rect(x, len) && Span(n + 1, d.cfg.bl) <= len && SelectsTopK(d.topk) && |toks| == |x|
    requires forall b :: 0 <= b < |x| ==>
      Fillable(d.cfg, prompt, x[b], n, toks[b]) && Sampled(d, mode, x[b], n, toks[b])
    ensures Step(d, mode, prompt, x, n, len) == FillAll(d.cfg, x, n, len, toks)
    ensures !AnyEdited(d, mode, prompt, x, n, len)
  {
    hide StepRow, FillRow, RowEdited, SelectsTopK, Sampled, Fillable;
    forall b | 0 <= b < |x|
      ensures StepRow(d, mode, prompt, x[b], n) == FillRow(d.cfg, x[b], n, toks[b])
      ensures !RowEdited(d, mode, prompt, x[b], n)
    {
      StepFills(d, mode, prompt, x[b], n, toks[b]);
    }
  }

  lemma Filled(c: Config, prompt: nat, row: Row, n: nat, tok: Token)
    requires Span(n + 1, c.bl) <= |row| && Fillable(c, prompt, row, n, tok)
    ensures Fillable(c, prompt, FillRow(c, row, n, tok), n, tok) && !RowMasked(c, FillRow(c, row, n, tok), n)
    ensures FillRow(c, FillRow(c, row, n, tok), n, tok) == FillRow(c, row, n, tok)
  {
    var r, lo := FillRow(c, row, n, tok), Span(n, c.bl);
    forall i | 0 <= i < c.bl ensures Block(c, r, n)[i] != c.mask { assert Block(c, r, n)[i] == r[lo + i]; }
  }

  /** The denoising loop of a steady decoder fills every row's block with its token. */
  lemma DenoiseFills(d: Decoder, mode: Mode, prompt: nat, x: seq<Row>, n: nat, len: nat, toks: seq<Token>)
    requires ModelOk(d.model) && Rect(x, len) && Span(n + 1, d.cfg.bl) <= len && SelectsTopK(d.topk)
    requires AllFillable(d, mode, prompt, x, n, len, toks) && AnyMasked(d.cfg, x, n, len)
    requires EffectiveSteps(d.cfg) >= 1 && d.cfg.maxPostSteps >= 0
    ensures Denoise(d, mode, prompt, x, n, len, 0, 0) == FillAll(d.cfg, x, n, len, toks)
  {
    hide Step, FillRow, SelectsTopK, Sampled, Fillable, RowMasked, AnyEdited;
    var y := FillAll(d.cfg, x, n, len, toks);
    StepFillsAll(d, mode, prompt, x, n, len, toks);
    forall b | 0 <= b < |x|
      ensures Fillable(d.cfg, prompt, y[b], n, toks[b]) && !RowMasked(d.cfg, y[b], n)
      ensures FillRow(d.cfg, y[b], n, toks[b]) == y[b]
    {
      Filled(d.cfg, prompt, x[b], n, toks[b]);
    }
    StepFillsAll(d, mode, prompt, y, n, len, toks);
    assert FillAll(d.cfg, y, n, len, toks) == y;
    assert Denoise(d, mode, prompt, y, n, len, 1, 0) == y;
  }

  /** Position i of block n, masked at first, holds the row's token when the run ends. */
  lemma RunFills(d: Decoder, mode: Mode, early: Option<Token>, prompt: nat, x: seq<Row>, n: nat, total: nat,
                 toks: seq<Token>, b: nat, i: nat)
    requires ModelOk(d.model) && Rect(x, Span(total, d.cfg.bl)) && n < total && SelectsTopK(d.topk) && b < |x|
    requires EffectiveSteps(d.cfg) >= 1 && d.cfg.maxPostSteps >= 0
    requires Span(n, d.cfg.bl) <= i < Span(n + 1, d.cfg.bl) <= Span(total, d.cfg.bl) && x[b][i] == d.cfg.mask
    requires AllFillable(d, mode, prompt, x, n, Span(total, d.cfg.bl), toks)
    ensures RunBlocks(d, mode, early, prompt, x, n, total)[b][i] == toks[b]
  {
    hide Denoise, SelectsTopK, Sampled, Fillable, Stops, AnyMasked;
    var len := Span(total, d.cfg.bl);
    MaskedBlock(d.cfg, x, n, len, b, i);
    DenoiseFills(d, mode, prompt, x, n, len, toks);
    var y := FillAll(d.cfg, x, n, len, toks);
    assert y[b][i] == toks[b];
    BlocksFrozen(d, mode, early, prompt, y, n + 1, total);
  }

  lemma MaskedBlock(c: Config, x: seq<Row>, n: nat, len: nat, b: nat, i: nat)
    requires Rect(x, len) && Span(n, c.bl) <= i < Span(n + 1, c.bl) <= len && b < |x| && x[b][i] == c.mask
    ensures AnyMasked(c, x, n, len)
  {
    assert Block(c, x[b], n)[i - Span(n, c.bl)] == c.mask;
    assert RowMasked(c, x[b], n);
  }

  lemma AnswerHead(c: Config, early: Option<Token>, prompt: nat, row: Row)
    requires prompt + c.genLength <= |row| && c.genLength >= 1
    ensures |Answer(c, early, prompt, row)| == c.genLength && Answer(c, early, prompt, row)[0] == row[prompt]
  {
    hide FirstEos;
  }

  /** Where the first generated block of a run lies. */
  lemma FirstBlock(c: Config, prompt: nat)
    requires c.genLength >= 1
    ensures var n, total := prompt / c.bl, TotalBlocks(c, prompt);
            n < total && Span(n, c.bl) <= prompt < Span(n + 1, c.bl) <= Span(total, c.bl)
  {
    hide Span;
    BufferFits(c, prompt);
    var n, total := prompt / c.bl, TotalBlocks(c, prompt);
    if n >= total { SpanMonotone(total, n, c.bl); }
    SpanMonotone(n + 1, total, c.bl);
  }

  /** The first generated block of every row holds its token, and every answer starts with it. */
  lemma FirstGenerated(d: Decoder, mode: Mode, early: Option<Token>, prompts: seq<Row>, prompt: nat, toks: seq<Token>,
                       b: nat)
    requires ModelOk(d.model) && Rect(prompts, prompt) && SelectsTopK(d.topk) && b < |prompts|
    requires EffectiveSteps(d.cfg) >= 1 && d.cfg.maxPostSteps >= 0 && d.cfg.genLength >= 1
    requires var n, len := prompt / d.cfg.bl, Span(TotalBlocks(d.cfg, prompt), d.cfg.bl);
             prompt < Span(n + 1, d.cfg.bl) <= len
             && AllFillable(d, mode, prompt, Initial(d.cfg, prompts, prompt, len), n, len, toks)
    ensures |FinalRows(d, mode, early, prompts, prompt)[b]| >= Span(prompt / d.cfg.bl + 1, d.cfg.bl) > prompt
    ensures forall i :: prompt <= i < Span(prompt / d.cfg.bl + 1, d.cfg.bl) ==>
      FinalRows(d, mode, early, prompts, prompt)[b][i] == toks[b]
    ensures |Generated(d, mode, early, prompts, prompt)[b]| == d.cfg.genLength
    ensures Generated(d, mode, early, prompts, prompt)[b][0] == toks[b]
  {
    BufferFits(d.cfg, prompt);
    assert |toks| == |prompts|;
    hide RunBlocks, SelectsTopK, AllFillable, Answer, AnyMasked;
    FirstBlock(d.cfg, prompt);
    var n, total := prompt / d.cfg.bl, TotalBlocks(d.cfg, prompt);
    var x := Initial(d.cfg, prompts, prompt, Span(total, d.cfg.bl));
    forall i | prompt <= i < Span(n + 1, d.cfg.bl)
      ensures FinalRows(d, mode, early, prompts, prompt)[b][i] == toks[b]
    {
      RunFills(d, mode, early, prompt, x, n, total, toks, b, i);
    }
    AnswerHead(d.cfg, early, prompt, FinalRows(d, mode, early, prompts, prompt)[b]);
  }
}
