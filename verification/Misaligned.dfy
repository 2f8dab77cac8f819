/**
 Exactly when attention blocks of a given size leave the prefix cache transparent: if they divide the generation
 blocks, or no second block is generated.
 */
module Misaligned {
  import opened Wrappers
  import opened Softmax
  import opened Selection
  import opened BlockMath
  import opened Layers
  import opened SkewModel
  import opened Decode
  import opened DecodeProperties
  import opened SteadyDecode
  import opened CacheExact

  /** Softmax and hybrid layers only, every hybrid head with this attention block size. */
  ghost predicate SizedLayer(l: Layer, size: pos) {
    && NoPureLinear(l)
    && (l.attn.RecurrentAttn? ==> forall h :: 0 <= h < |l.attn.heads| ==> l.attn.heads[h].blockSize == size)
  }

  ghost predicate Sized(m: Model, size: pos) {
    forall k :: 0 <= k < |m.layers| ==> SizedLayer(m.layers[k], size)
  }

  /** The attention blocks divide the generation blocks, or only one block, or none, is denoised. */
  ghost predicate Fits(c: Config, size: pos, prompt: nat) {
    Whole(c.bl, size) || TotalBlocks(c, prompt) <= 1 || EffectiveSteps(c) < 1 || c.maxPostSteps < 0
  }

  // ----- one block: nothing is cached -----

  /** On a window of one block both modes see the same keys, whatever the attention block size. */
  lemma FirstLogits(m: Model, bl: pos)
    requires ModelOk(m) && forall k :: 0 <= k < |m.layers| ==> NoPureLinear(m.layers[k])
    ensures LogitsAgree(m, bl, 0)
  {
    hide Hidden, CachedHidden, EmptySlots, Embed, NoPureLinear, LinearKeys;
    forall window: seq<Token> | |window| == Span(1, bl)
      ensures LastLogits(m, Cached, window, bl, 0) == LastLogits(m, Recompute, window, bl, 0)
    {
      NextSpan(bl);
      assert window[0..] == window;
      var hs := Embed(m, window);
      HiddenIgnoresMask(m, hs, bl, |m.layers|, LinearKeys(bl, 0));
      FirstStack(m, hs, bl, |m.layers|);
      var rows := LogitRows(m, Hidden(m, hs, bl, true, |m.layers|));
      assert rows[0..] == rows;
    }
  }

  lemma OneBlockAgrees(d: Decoder, early: Option<Token>, prompts: seq<Row>, prompt: nat, size: pos)
    requires ModelOk(d.model) && Rect(prompts, prompt) && Sized(d.model, size) && TotalBlocks(d.cfg, prompt) <= 1
    ensures Agrees(d, early, prompts, prompt)
  {
    hide ModelOk, NoPureLinear, Denoise, LogitsAgree, Stops, Initial;
    BufferFits(d.cfg, prompt);
    var n, total := prompt / d.cfg.bl, TotalBlocks(d.cfg, prompt);
    var len := Span(total, d.cfg.bl);
    var x := Initial(d.cfg, prompts, prompt, len);
    FirstLogits(d.model, d.cfg.bl);
    if n < total {
      DenoiseAgree(d, prompt, x, 0, len, 0, 0);
      LastBlock(d, Cached, early, prompt, x, total);
      LastBlock(d, Recompute, early, prompt, x, total);
    }
  }

  lemma LastBlock(d: Decoder, mode: Mode, early: Option<Token>, prompt: nat, x: seq<Row>, total: nat)
    requires ModelOk(d.model) && Rect(x, Span(total, d.cfg.bl)) && total == 1
    ensures RunBlocks(d, mode, early, prompt, x, 0, total) ==
      Denoise(d, mode, prompt, x, 0, Span(total, d.cfg.bl), 0, 0)
  {
    hide Denoise, Stops;
  }

  lemma SizedAligned(m: Model, size: pos, bl: pos)
    requires ModelOk(m) && Sized(m, size) && Whole(bl, size)
    ensures ModelAligned(m, bl) && forall k :: 0 <= k < |m.layers| ==> NoPureLinear(m.layers[k])
  {
    hide Whole;
  }

  lemma FitsAgrees(d: Decoder, early: Option<Token>, prompts: seq<Row>, prompt: nat, size: pos)
    requires ModelOk(d.model) && Rect(prompts, prompt) && Sized(d.model, size) && Fits(d.cfg, size, prompt)
    ensures Agrees(d, early, prompts, prompt)
  {
    hide RunBlocks, ModelOk, Sized, Whole;
    if Whole(d.cfg.bl, size) {
      SizedAligned(d.model, size, d.cfg.bl);
      CachedEqualsUncached(d, early, prompts, prompt);
    } else if TotalBlocks(d.cfg, prompt) <= 1 {
      OneBlockAgrees(d, early, prompts, prompt, size);
    } else {
      BufferFits(d.cfg, prompt);
      var total := TotalBlocks(d.cfg, prompt);
      NoSteps(d, early, prompt, Initial(d.cfg, prompts, prompt, Span(total, d.cfg.bl)), prompt / d.cfg.bl, total);
    }
  }

  // ----- a second block: a model that tells the two apart -----

  function SkewDecoder(c: Config, exp: real -> real, topk: (seq<Score>, nat) -> set<nat>, size: pos): Decoder {
    Decoder(Skew(exp, size, c.bl), c,
            v => (if v == [0.0] then CachedToken(c.mask) else RecomputedToken(c.mask), c.threshold + 1.0), topk)
  }

  function SkewToken(c: Config, mode: Mode, n: nat): Token {
    if n == 0 then CachedToken(c.mask) else TokenOf(c.mask, mode)
  }

  lemma SkewSampled(c: Config, exp: real -> real, topk: (seq<Score>, nat) -> set<nat>, size: pos, mode: Mode,
                    row: Row, n: nat)
    requires IsExp(exp) && !Whole(c.bl, size) && Span(n + 1, c.bl) <= |row| && (c.mask == 0 || 0 !in row)
    ensures ModelOk(Skew(exp, size, c.bl))
    ensures Sampled(SkewDecoder(c, exp, topk, size), mode, row, n, SkewToken(c, mode, n))
  {
    hide LastLogits, IsExp, Whole, Skew;
    var d, window := SkewDecoder(c, exp, topk, size), row[..Span(n + 1, c.bl)];
    SkewOk(exp, size, c.bl);
    var logits := LastLogits(d.model, mode, window, c.bl, n);
    forall i: nat | i < c.bl
      ensures Penalize(c, logits[i], window) == logits[i] && (logits[i] == [0.0] <==> n == 0 || mode.Cached?)
    {
      if mode.Cached? {
        SkewCached(exp, size, c.bl, window, n, i);
      } else {
        SkewRecomputed(exp, size, c.bl, window, n, i);
      }
      assert |logits[i]| == 1;
    }
  }

  /** A row whose block n is masked behind the prompt is filled with the block's token. */
  lemma SkewFillable(c: Config, exp: real -> real, topk: (seq<Score>, nat) -> set<nat>, size: pos, mode: Mode,
                     row: Row, prompt: nat, n: nat)
    requires IsExp(exp) && !Whole(c.bl, size) && Span(n + 1, c.bl) <= |row| && (c.mask == 0 || 0 !in row)
    requires forall i :: 0 <= i < |row| && Span(n, c.bl) <= i && prompt <= i ==> row[i] == c.mask
    ensures ModelOk(Skew(exp, size, c.bl))
    ensures AllFillable(SkewDecoder(c, exp, topk, size), mode, prompt, [row], n, |row|, [SkewToken(c, mode, n)])
    ensures c.mask == 0 || 0 !in FillRow(c, row, n, SkewToken(c, mode, n))
  {
    hide IsExp, Whole, Sampled, Skew;
    var tok := SkewToken(c, mode, n);
    SkewSampled(c, exp, topk, size, mode, row, n);
    SkewSampled(c, exp, topk, size, mode, FillRow(c, row, n, tok), n);
  }

  /** A prompt of at least one block: the answer starts with a token that names the mode. */
  lemma LongPrompt(c: Config, exp: real -> real, topk: (seq<Score>, nat) -> set<nat>, size: pos, mode: Mode,
                   prompt: nat)
    requires IsExp(exp) && SelectsTopK(topk) && !Whole(c.bl, size) && prompt >= c.bl
    requires EffectiveSteps(c) >= 1 && c.maxPostSteps >= 0 && c.genLength >= 1
    ensures var d := SkewDecoder(c, exp, topk, size);
            && ModelOk(d.model) && |Generated(d, mode, None, [UnitPrompt(c, prompt)], prompt)[0]| > 0
            && Generated(d, mode, None, [UnitPrompt(c, prompt)], prompt)[0][0] == TokenOf(c.mask, mode)
  {
    hide Generated, IsExp, SelectsTopK, Whole, AllFillable, Skew, FinalRows;
    var d, n, prompts := SkewDecoder(c, exp, topk, size), prompt / c.bl, [UnitPrompt(c, prompt)];
    SkewOk(exp, size, c.bl);
    FirstBlock(c, prompt);
    var len := Span(TotalBlocks(c, prompt), c.bl);
    var x := Initial(c, prompts, prompt, len);
    assert x == [x[0]];
    SkewFillable(c, exp, topk, size, mode, x[0], prompt, n);
    assert n > 0;
    FirstGenerated(d, mode, None, prompts, prompt, [SkewToken(c, mode, n)], 0);
  }

  /** A shorter prompt: the second block of the buffer holds that token. */
  lemma ShortPrompt(c: Config, exp: real -> real, topk: (seq<Score>, nat) -> set<nat>, size: pos, mode: Mode,
                    prompt: nat)
    requires IsExp(exp) && SelectsTopK(topk) && !Whole(c.bl, size) && prompt < c.bl && TotalBlocks(c, prompt) >= 2
    requires EffectiveSteps(c) >= 1 && c.maxPostSteps >= 0
    ensures var d := SkewDecoder(c, exp, topk, size);
            && ModelOk(d.model) && |FinalRows(d, mode, None, [UnitPrompt(c, prompt)], prompt)[0]| > c.bl
            && FinalRows(d, mode, None, [UnitPrompt(c, prompt)], prompt)[0][c.bl] == TokenOf(c.mask, mode)
  {
    hide IsExp, SelectsTopK, Whole, AllFillable, Skew, RunBlocks;
    var d, total, prompts := SkewDecoder(c, exp, topk, size), TotalBlocks(c, prompt), [UnitPrompt(c, prompt)];
    SkewOk(exp, size, c.bl);
    BufferFits(c, prompt);
    RemainderUnique(prompt, 0, prompt, c.bl);
    SpanMonotone(2, total, c.bl);
    NextSpan(c.bl);
    var len := Span(total, c.bl);
    var x := Initial(c, prompts, prompt, len);
    assert x == [x[0]];
    var a := SkewToken(c, mode, 0);
    SkewFillable(c, exp, topk, size, mode, x[0], prompt, 0);
    FirstFilled(d, mode, prompt, x, total, a);
    var y := FillAll(c, x, 0, len, [a]);
    assert y == [y[0]];
    SkewFillable(c, exp, topk, size, mode, y[0], prompt, 1);
    RunFills(d, mode, None, prompt, y, 1, total, [SkewToken(c, mode, 1)], 0, c.bl);
  }

  lemma FirstFilled(d: Decoder, mode: Mode, prompt: nat, x: seq<Row>, total: nat, tok: Token)
    requires ModelOk(d.model) && total >= 2 && Rect(x, Span(total, d.cfg.bl)) && SelectsTopK(d.topk) && |x| == 1
    requires EffectiveSteps(d.cfg) >= 1 && d.cfg.maxPostSteps >= 0 && prompt < d.cfg.bl < Span(total, d.cfg.bl)
    requires x[0][prompt] == d.cfg.mask && AllFillable(d, mode, prompt, x, 0, Span(total, d.cfg.bl), [tok])
    ensures RunBlocks(d, mode, None, prompt, x, 0, total)
         == RunBlocks(d, mode, None, prompt, FillAll(d.cfg, x, 0, Span(total, d.cfg.bl), [tok]), 1, total)
  {
    hide Denoise, SelectsTopK, AllFillable, Stops, AnyMasked;
    NextSpan(d.cfg.bl);
    MaskedBlock(d.cfg, x, 0, Span(total, d.cfg.bl), 0, prompt);
    DenoiseFills(d, mode, prompt, x, 0, Span(total, d.cfg.bl), [tok]);
  }

  lemma AnswerAt(c: Config, prompt: nat, row: Row, i: nat)
    requires prompt + c.genLength <= |row| && prompt <= i < prompt + c.genLength
    ensures Answer(c, None, prompt, row)[i - prompt] == row[i]
  {}

  lemma SkewDisagrees(c: Config, exp: real -> real, topk: (seq<Score>, nat) -> set<nat>, size: pos, prompt: nat)
    requires IsExp(exp) && SelectsTopK(topk) && !Fits(c, size, prompt)
    ensures var d := SkewDecoder(c, exp, topk, size);
            ModelOk(d.model) && Sized(d.model, size) && !Agrees(d, None, [UnitPrompt(c, prompt)], prompt)
  {
    hide IsExp, SelectsTopK, Whole, FinalRows, TotalBlocks, Answer;
    var d, prompts := SkewDecoder(c, exp, topk, size), [UnitPrompt(c, prompt)];
    SkewSized(exp, size, c.bl);
    RemainderUnique(0, 0, 0, c.minimalTopk);
    if prompt >= c.bl {
      LongPrompt(c, exp, topk, size, Cached, prompt);
      LongPrompt(c, exp, topk, size, Recompute, prompt);
    } else {
      ShortPrompt(c, exp, topk, size, Cached, prompt);
      ShortPrompt(c, exp, topk, size, Recompute, prompt);
      BufferFits(c, prompt);
      SecondInside(c, prompt);
      AnswerAt(c, prompt, FinalRows(d, Cached, None, prompts, prompt)[0], c.bl);
      AnswerAt(c, prompt, FinalRows(d, Recompute, None, prompts, prompt)[0], c.bl);
      assert Generated(d, Cached, None, prompts, prompt)[0] != Generated(d, Recompute, None, prompts, prompt)[0];
    }
  }

  lemma SkewSized(exp: real -> real, size: pos, bl: pos)
    ensures ModelOk(Skew(exp, size, bl)) && Sized(Skew(exp, size, bl), size)
  {}

  lemma OneBlock(len: nat, bl: pos)
    ensures len <= bl ==> NumBlocks(len, bl) <= 1
  {
    NumBlocksPad(len, bl);
    NextSpan(bl);
    if len <= bl { PadLengthMinimal(len, bl, bl); }
    if NumBlocks(len, bl) >= 2 { SpanMonotone(2, NumBlocks(len, bl), bl); }
  }

  /** With two blocks, the answer reaches into the second. */
  lemma SecondInside(c: Config, prompt: nat)
    requires TotalBlocks(c, prompt) >= 2
    ensures prompt + c.genLength > c.bl
  {
    OneBlock(prompt + c.genLength, c.bl);
  }

  /**
   For every stack of softmax and hybrid layers with attention blocks of this size, every sampler, stopping mode
   and batch of prompts of this length, the cached generator returns the tokens of the recomputing one if and only
   if the attention blocks divide the generation blocks, or no second block is generated, or nothing is denoised.
   */
  lemma AlignmentIff(c: Config, exp: real -> real, topk: (seq<Score>, nat) -> set<nat>, size: pos, prompt: nat)
    requires IsExp(exp) && SelectsTopK(topk)
    ensures Fits(c, size, prompt) <==>
      forall d: Decoder, early: Option<Token>, prompts: seq<Row> ::
        d.cfg == c && SelectsTopK(d.topk) && ModelOk(d.model) && Sized(d.model, size) && Rect(prompts, prompt) ==>
        Agrees(d, early, prompts, prompt)
  {
    hide Agrees, IsExp, SelectsTopK, ModelOk, Sized, Fits;
    if Fits(c, size, prompt) {
      forall d: Decoder, early: Option<Token>, prompts: seq<Row> |
          d.cfg == c && SelectsTopK(d.topk) && ModelOk(d.model) && Sized(d.model, size) && Rect(prompts, prompt)
        ensures Agrees(d, early, prompts, prompt)
      {
        FitsAgrees(d, early, prompts, prompt, size);
      }
    } else {
      var d, prompts := SkewDecoder(c, exp, topk, size), [UnitPrompt(c, prompt)];
      assert Rect(prompts, prompt);
      SkewDisagrees(c, exp, topk, size, prompt);
      assert !Agrees(d, None, prompts, prompt);
    }
  }
}
