/**
 Exactly when the prefix cache is transparent for every model. A one-layer pure-linear model separates the cached
 from the recomputed generator whenever a denoising step runs on a one-block window.
 */
module CacheExact {
  import opened Wrappers
  import opened Softmax
  import opened Selection
  import opened BlockMath
  import opened Layers
  import opened LinearMask
  import opened Decode
  import opened DecodeProperties
  import opened SteadyDecode

  // ----- a decoder that tells the two apart -----

  function UnitModel(exp: real -> real, bl: pos): Model {
    Model(_ => [0.0], [UnitLayer(exp, bl)], v => v)
  }

  /** Two tokens that are neither the mask nor 0, the only entry of the logits. */
  function CachedToken(mask: Token): Token { (if mask < 0 then -mask else mask) + 1 }

  function RecomputedToken(mask: Token): Token { CachedToken(mask) + 1 }

  function TokenOf(mask: Token, mode: Mode): Token {
    if mode.Cached? then CachedToken(mask) else RecomputedToken(mask)
  }

  function UnitDecoder(c: Config, exp: real -> real, topk: (seq<Score>, nat) -> set<nat>): Decoder {
    Decoder(UnitModel(exp, c.bl), c,
            v => (if v == [1.0] then CachedToken(c.mask) else RecomputedToken(c.mask), c.threshold + 1.0), topk)
  }

  lemma UnitLogits(exp: real -> real, bl: pos, mode: Mode, window: seq<Token>)
    requires IsExp(exp) && |window| == Span(1, bl)
    ensures ModelOk(UnitModel(exp, bl)) && ModelAligned(UnitModel(exp, bl), bl)
    ensures LastLogits(UnitModel(exp, bl), mode, window, bl, 0) == Constant(if mode.Cached? then [1.0] else [0.0], bl)
  {
    hide LayerOut, CachedOut, IsExp, LinearKeys, EmptySlot;
    var m, l := UnitModel(exp, bl), UnitLayer(exp, bl);
    TwoBlocksWhole(bl);
    assert Span(1, bl) == bl by { NextBlock(bl); }
    var hs := Embed(m, window);
    assert window[0..] == window;
    CachedPureLinearDiffers(exp, bl, hs);
    match mode
    case Cached =>
      assert Committed(m, window, bl, 0) == EmptySlots(m) == [EmptySlot(l)];
      assert CachedHidden(m, [EmptySlot(l)], hs, 0, 0) == hs;
      assert CachedHidden(m, [EmptySlot(l)], hs, 0, 1) == Constant([1.0], bl);
    case Recompute =>
      assert Hidden(m, hs, bl, LinearKeys(bl, 0), 0) == hs;
      assert Hidden(m, hs, bl, LinearKeys(bl, 0), 1) == Constant([0.0], bl);
  }

  lemma NextBlock(bl: pos)
    ensures Span(1, bl) == bl
  {
    assert Span(1, bl) == Span(0, bl) + bl;
  }

  lemma UnitSampled(c: Config, exp: real -> real, topk: (seq<Score>, nat) -> set<nat>, mode: Mode, row: Row)
    requires IsExp(exp) && Span(1, c.bl) <= |row| && (c.mask == 0 || 0 !in row)
    ensures ModelOk(UnitModel(exp, c.bl)) && Sampled(UnitDecoder(c, exp, topk), mode, row, 0, TokenOf(c.mask, mode))
  {
    hide LastLogits, IsExp;
    var d, window := UnitDecoder(c, exp, topk), row[..Span(1, c.bl)];
    UnitLogits(exp, c.bl, mode, window);
    var logits := LastLogits(d.model, mode, window, c.bl, 0);
    forall i | 0 <= i < c.bl ensures Penalize(c, logits[i], window) == logits[i] {
      assert |logits[i]| == 1;
    }
  }

  function UnitPrompt(c: Config, prompt: nat): Row { seq(prompt, _ => CachedToken(c.mask)) }

  /** Over a whole run on a prompt shorter than a block, the answer starts with a token that names the mode. */
  lemma UnitRun(c: Config, exp: real -> real, topk: (seq<Score>, nat) -> set<nat>, mode: Mode, early: Option<Token>,
                prompt: nat)
    requires IsExp(exp) && SelectsTopK(topk) && prompt < c.bl && EffectiveSteps(c) >= 1 && c.maxPostSteps >= 0
    ensures var d := UnitDecoder(c, exp, topk);
            && ModelOk(d.model) && ModelAligned(d.model, c.bl)
            && |Generated(d, mode, early, [UnitPrompt(c, prompt)], prompt)[0]| > 0
            && Generated(d, mode, early, [UnitPrompt(c, prompt)], prompt)[0][0] == TokenOf(c.mask, mode)
  {
    hide Generated, IsExp, SelectsTopK, Sampled, LayerOk;
    var d, tok, prompts := UnitDecoder(c, exp, topk), TokenOf(c.mask, mode), [UnitPrompt(c, prompt)];
    UnitOk(exp, c.bl);
    assert c.genLength >= 1 by { if c.genLength == 0 { RemainderUnique(0, 0, 0, c.minimalTopk); } }
    RemainderUnique(prompt, 0, prompt, c.bl);
    FirstBlock(c, prompt);
    NextBlock(c.bl);
    var len := Span(TotalBlocks(c, prompt), c.bl);
    var x := Initial(c, prompts, prompt, len);
    UnitSampled(c, exp, topk, mode, x[0]);
    UnitSampled(c, exp, topk, mode, FillRow(c, x[0], 0, tok));
    assert AllFillable(d, mode, prompt, x, 0, len, [tok]);
    FirstGenerated(d, mode, early, prompts, prompt, [tok], 0);
  }

  lemma UnitOk(exp: real -> real, bl: pos)
    ensures ModelOk(UnitModel(exp, bl)) && ModelAligned(UnitModel(exp, bl), bl)
  {
    TwoBlocksWhole(bl);
  }

  /** The cached and the recomputed generator return different tokens. */
  lemma CachedRunDiffers(c: Config, exp: real -> real, topk: (seq<Score>, nat) -> set<nat>, early: Option<Token>,
                         prompt: nat)
    requires IsExp(exp) && SelectsTopK(topk) && prompt < c.bl && EffectiveSteps(c) >= 1 && c.maxPostSteps >= 0
    ensures var d := UnitDecoder(c, exp, topk);
            && ModelOk(d.model) && ModelAligned(d.model, c.bl)
            && Generated(d, Cached, early, [UnitPrompt(c, prompt)], prompt)
            != Generated(d, Recompute, early, [UnitPrompt(c, prompt)], prompt)
  {
    hide Generated, IsExp, SelectsTopK, ModelOk, ModelAligned;
    UnitRun(c, exp, topk, Cached, early, prompt);
    UnitRun(c, exp, topk, Recompute, early, prompt);
  }

  // ----- the exact condition -----

  /** A call on which no denoising step runs on a one-block window. */
  predicate Transparent(c: Config, prompt: nat) {
    prompt >= c.bl || EffectiveSteps(c) < 1 || c.maxPostSteps < 0
  }

  /** The two generators agree on this call. */
  ghost predicate Agrees(d: Decoder, early: Option<Token>, prompts: seq<Row>, prompt: nat)
    requires ModelOk(d.model) && Rect(prompts, prompt)
  {
    Generated(d, Cached, early, prompts, prompt) == Generated(d, Recompute, early, prompts, prompt)
  }

  lemma NoStep(d: Decoder, mode: Mode, prompt: nat, x: seq<Row>, n: nat, len: nat)
    requires ModelOk(d.model) && Rect(x, len) && Span(n + 1, d.cfg.bl) <= len
    requires EffectiveSteps(d.cfg) < 1 || d.cfg.maxPostSteps < 0
    ensures Denoise(d, mode, prompt, x, n, len, 0, 0) == x
  {
    hide AnyMasked, Step, AnyEdited;
  }

  lemma {:induction false} NoSteps(d: Decoder, early: Option<Token>, prompt: nat, x: seq<Row>, n: nat, total: nat)
    requires ModelOk(d.model) && Rect(x, Span(total, d.cfg.bl)) && n <= total
    requires EffectiveSteps(d.cfg) < 1 || d.cfg.maxPostSteps < 0
    ensures RunBlocks(d, Cached, early, prompt, x, n, total) == RunBlocks(d, Recompute, early, prompt, x, n, total)
    decreases total - n
  {
    hide Denoise, Stops;
    if n < total {
      SpanMonotone(n + 1, total, d.cfg.bl);
      NoStep(d, Cached, prompt, x, n, Span(total, d.cfg.bl));
      NoStep(d, Recompute, prompt, x, n, Span(total, d.cfg.bl));
      NoSteps(d, early, prompt, x, n + 1, total);
    }
  }

  lemma TransparentAgrees(d: Decoder, early: Option<Token>, prompts: seq<Row>, prompt: nat)
    requires ModelOk(d.model) && Rect(prompts, prompt) && ModelAligned(d.model, d.cfg.bl) && Transparent(d.cfg, prompt)
    ensures Agrees(d, early, prompts, prompt)
  {
    hide RunBlocks, ModelAligned, ModelOk;
    if prompt >= d.cfg.bl {
      CachedEqualsUncached(d, early, prompts, prompt);
    } else {
      BufferFits(d.cfg, prompt);
      var total := TotalBlocks(d.cfg, prompt);
      NoSteps(d, early, prompt, Initial(d.cfg, prompts, prompt, Span(total, d.cfg.bl)), prompt / d.cfg.bl, total);
    }
  }

  /**
   With pure-linear layers allowed, the cache is transparent for every aligned model, sampler, stopping mode and
   batch of prompts of this length if and only if the prompt fills a block or no denoising step is ever taken.
   */
  lemma CacheTransparentIff(c: Config, exp: real -> real, topk: (seq<Score>, nat) -> set<nat>, prompt: nat)
    requires IsExp(exp) && SelectsTopK(topk)
    ensures Transparent(c, prompt) <==>
      forall d: Decoder, early: Option<Token>, prompts: seq<Row> ::
        d.cfg == c && SelectsTopK(d.topk) && ModelOk(d.model) && ModelAligned(d.model, c.bl)
        && Rect(prompts, prompt) ==>
        Agrees(d, early, prompts, prompt)
  {
    hide Agrees, IsExp, SelectsTopK, ModelOk, ModelAligned;
    if Transparent(c, prompt) {
      forall d: Decoder, early: Option<Token>, prompts: seq<Row> |
          d.cfg == c && SelectsTopK(d.topk) && ModelOk(d.model) && ModelAligned(d.model, c.bl) && Rect(prompts, prompt)
        ensures Agrees(d, early, prompts, prompt)
      {
        TransparentAgrees(d, early, prompts, prompt);
      }
    } else {
      var d, prompts := UnitDecoder(c, exp, topk), [UnitPrompt(c, prompt)];
      assert Rect(prompts, prompt);
      Disagrees(c, exp, topk, None, prompt);
      assert !Agrees(d, None, prompts, prompt);
    }
  }

  lemma Disagrees(c: Config, exp: real -> real, topk: (seq<Score>, nat) -> set<nat>, early: Option<Token>, prompt: nat)
    requires IsExp(exp) && SelectsTopK(topk) && !Transparent(c, prompt)
    ensures var d := UnitDecoder(c, exp, topk);
            ModelOk(d.model) && ModelAligned(d.model, c.bl) && !Agrees(d, early, [UnitPrompt(c, prompt)], prompt)
  {
    CachedRunDiffers(c, exp, topk, early, prompt);
  }
}
