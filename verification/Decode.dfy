/**
 Block-diffusion decoding: the denoising step, the loop over steps of a block and the loop over blocks,
 as functions of the token rows. `mode` says how the forward pass is run.
 */
module Decode {
  import opened Wrappers
  import opened Vectors
  import opened Softmax
  import opened BlockMath
  import opened Layers

  datatype Config = Config(bl: pos, steps: int, genLength: nat, minimalTopk: pos,
                           threshold: real, editThreshold: real, maxPostSteps: int,
                           mask: Token, numTransfer: int, penalty: real)

  /** Sampling maps the logits of a position to a token and its probability. */
  datatype Decoder = Decoder(model: Model, cfg: Config, sample: Vec -> (Token, real),
                             topk: (seq<Score>, nat) -> set<nat>)

  type Row = seq<Token>

  ghost predicate Rect(x: seq<Row>, len: nat) {
    forall b :: 0 <= b < |x| ==> |x[b]| == len
  }

  function Min(a: int, b: int): int {
    if a <= b then a else b
  }

  /** No more steps than the answer has minimal transfers. */
  function EffectiveSteps(c: Config): int {
    Min(c.steps, c.genLength / c.minimalTopk)
  }

  // ----- one denoising step of one row -----

  function PenalizeScore(score: real, penalty: real): real {
    if score > 0.0 then Ratio(score, penalty) else Times(score, penalty)
  }

  /** Repetition penalty on the tokens already in the window. */
  function Penalize(c: Config, logits: Vec, window: Row): Vec {
    if c.penalty == 1.0 then logits
    else
      seq(|logits|, t requires 0 <= t < |logits| =>
        if t != c.mask && t in window then PenalizeScore(logits[t], c.penalty) else logits[t])
  }

  /** Sampled token and confidence for every position of block n. */
  function Samples(d: Decoder, mode: Mode, row: Row, n: nat): (r: seq<(Token, real)>)
    requires ModelOk(d.model) && Span(n + 1, d.cfg.bl) <= |row|
    ensures |r| == d.cfg.bl
  {
    var window := row[..Span(n + 1, d.cfg.bl)];
    var logits := LastLogits(d.model, mode, window, d.cfg.bl, n);
    seq(d.cfg.bl, i requires 0 <= i < d.cfg.bl => d.sample(Penalize(d.cfg, logits[i], window)))
  }

  function MaskPositions(c: Config, block: Row): set<nat> {
    set i: nat | i < |block| && block[i] == c.mask
  }

  function MaskConfidence(c: Config, block: Row, smp: seq<(Token, real)>): (s: seq<Score>)
    requires |smp| == |block|
    ensures |s| == |block|
  {
    seq(|block|, i requires 0 <= i < |block| => if block[i] == c.mask then Fin(smp[i].1) else Masked)
  }

  function HighConfidence(c: Config, block: Row, smp: seq<(Token, real)>): set<nat>
    requires |smp| == |block|
  {
    set i: nat | i < |block| && block[i] == c.mask && smp[i].1 > c.threshold
  }

  /** Masked positions that receive their token: the confident ones, or the top-k when those are too few. */
  function MaskTransfer(d: Decoder, block: Row, smp: seq<(Token, real)>): set<nat>
    requires |smp| == |block|
  {
    var active, high := MaskPositions(d.cfg, block), HighConfidence(d.cfg, block, smp);
    if active == {} then {}
    else if |high| >= d.cfg.numTransfer then high
    else d.topk(MaskConfidence(d.cfg, block, smp), Min(d.cfg.numTransfer, |active|))
  }

  /** Filled positions outside the prompt that are overwritten. */
  function EditTransfer(c: Config, block: Row, smp: seq<(Token, real)>, promptIn: nat): set<nat>
    requires |smp| == |block|
  {
    set i: nat | i < |block| && block[i] != c.mask && promptIn <= i
                 && smp[i].1 > c.editThreshold && smp[i].0 != block[i]
  }

  function NewBlock(d: Decoder, block: Row, smp: seq<(Token, real)>, promptIn: nat): (r: Row)
    requires |smp| == |block|
    ensures |r| == |block|
  {
    var moved := MaskTransfer(d, block, smp) + EditTransfer(d.cfg, block, smp, promptIn);
    seq(|block|, i requires 0 <= i < |block| => if i in moved then smp[i].0 else block[i])
  }

  /** Number of prompt positions in the block that starts at lo. */
  function PromptIn(c: Config, prompt: nat, lo: nat): nat {
    if lo < prompt then Min(prompt - lo, c.bl) else 0
  }

  function Block(c: Config, row: Row, n: nat): (r: Row)
    requires Span(n + 1, c.bl) <= |row|
    ensures |r| == c.bl
  {
    row[Span(n, c.bl)..Span(n + 1, c.bl)]
  }

  function StepRow(d: Decoder, mode: Mode, prompt: nat, row: Row, n: nat): (r: Row)
    requires ModelOk(d.model) && Span(n + 1, d.cfg.bl) <= |row|
    ensures |r| == |row|
  {
    var lo := Span(n, d.cfg.bl);
    row[..lo]
    + NewBlock(d, Block(d.cfg, row, n), Samples(d, mode, row, n), PromptIn(d.cfg, prompt, lo))
    + row[lo + d.cfg.bl..]
  }

  // ----- the batch -----

  function Step(d: Decoder, mode: Mode, prompt: nat, x: seq<Row>, n: nat, len: nat): (r: seq<Row>)
    requires ModelOk(d.model) && Rect(x, len) && Span(n + 1, d.cfg.bl) <= len
    ensures |r| == |x| && Rect(r, len)
  {
    seq(|x|, b requires 0 <= b < |x| => StepRow(d, mode, prompt, x[b], n))
  }

  predicate RowMasked(c: Config, row: Row, n: nat)
    requires Span(n + 1, c.bl) <= |row|
  {
    c.mask in Block(c, row, n)
  }

  predicate AnyMasked(c: Config, x: seq<Row>, n: nat, len: nat)
    requires Rect(x, len) && Span(n + 1, c.bl) <= len
  {
    exists b :: 0 <= b < |x| && RowMasked(c, x[b], n)
  }

  predicate RowEdited(d: Decoder, mode: Mode, prompt: nat, row: Row, n: nat)
    requires ModelOk(d.model) && Span(n + 1, d.cfg.bl) <= |row|
  {
    EditTransfer(d.cfg, Block(d.cfg, row, n), Samples(d, mode, row, n),
      PromptIn(d.cfg, prompt, Span(n, d.cfg.bl))) != {}
  }

  predicate AnyEdited(d: Decoder, mode: Mode, prompt: nat, x: seq<Row>, n: nat, len: nat)
    requires ModelOk(d.model) && Rect(x, len) && Span(n + 1, d.cfg.bl) <= len
  {
    exists b :: 0 <= b < |x| && RowEdited(d, mode, prompt, x[b], n)
  }

  /** The denoising loop of block n from step `count` with `post` post-steps taken. */
  function Denoise(d: Decoder, mode: Mode, prompt: nat, x: seq<Row>, n: nat, len: nat, count: nat,
                   post: int): (r: seq<Row>)
    requires ModelOk(d.model) && Rect(x, len) && Span(n + 1, d.cfg.bl) <= len
    ensures |r| == |x| && Rect(r, len)
    decreases EffectiveSteps(d.cfg) - count
  {
    if count >= EffectiveSteps(d.cfg) then x
    else
      var masked := AnyMasked(d.cfg, x, n, len);
      var post' := if masked then post else post + 1;
      if post' > d.cfg.maxPostSteps then x
      else
        var y := Step(d, mode, prompt, x, n, len);
        if !masked && !AnyEdited(d, mode, prompt, x, n, len) then y
        else Denoise(d, mode, prompt, y, n, len, count + 1, post')
  }

  /** The generated part is free of masks and some row of it holds the end token. */
  predicate Stops(c: Config, prompt: nat, x: seq<Row>, hi: nat, eos: Token) {
    && (forall b, i :: 0 <= b < |x| && prompt <= i < hi && i < |x[b]| ==> x[b][i] != c.mask)
    && (exists b, i :: 0 <= b < |x| && prompt <= i < hi && i < |x[b]| && x[b][i] == eos)
  }

  /** The loop over blocks from block n; `early` is the end token when early stop is on. */
  function RunBlocks(d: Decoder, mode: Mode, early: Option<Token>, prompt: nat, x: seq<Row>, n: nat,
                     total: nat): (r: seq<Row>)
    requires ModelOk(d.model) && Rect(x, Span(total, d.cfg.bl)) && n <= total
    ensures |r| == |x| && Rect(r, Span(total, d.cfg.bl))
    decreases total - n
  {
    if n == total then x
    else
      SpanMonotone(n + 1, total, d.cfg.bl);
      var y := Denoise(d, mode, prompt, x, n, Span(total, d.cfg.bl), 0, 0);
      if early.Some? && Stops(d.cfg, prompt, y, Span(n + 1, d.cfg.bl), early.value) then y
      else RunBlocks(d, mode, early, prompt, y, n + 1, total)
  }

  /** The token buffer before the first block: the prompt, then masks. */
  function Initial(c: Config, prompts: seq<Row>, prompt: nat, len: nat): (x: seq<Row>)
    requires Rect(prompts, prompt) && prompt <= len
    ensures |x| == |prompts| && Rect(x, len)
  {
    seq(|prompts|, b requires 0 <= b < |prompts| => prompts[b] + seq(len - prompt, _ => c.mask))
  }

  function FirstEos(row: Row, eos: Token): (i: nat)
    ensures i <= |row|
    ensures i < |row| ==> row[i] == eos
    ensures forall j :: 0 <= j < i ==> row[j] != eos
  {
    if |row| == 0 || row[0] == eos then 0 else FirstEos(row[1..], eos) + 1
  }

  /** Everything after the first end token becomes the end token. */
  function TrimRow(row: Row, eos: Token): (r: Row)
    ensures |r| == |row|
  {
    var cut := FirstEos(row, eos);
    seq(|row|, i requires 0 <= i < |row| => if i > cut then eos else row[i])
  }

  function Answer(c: Config, early: Option<Token>, prompt: nat, row: Row): Row
    requires prompt + c.genLength <= |row|
  {
    var gen := row[prompt..prompt + c.genLength];
    if early.None? then gen else TrimRow(gen, early.value)
  }

  function TotalBlocks(c: Config, prompt: nat): nat {
    NumBlocks(prompt + c.genLength, c.bl)
  }

  lemma BufferFits(c: Config, prompt: nat)
    ensures prompt + c.genLength <= Span(TotalBlocks(c, prompt), c.bl)
    ensures prompt / c.bl <= TotalBlocks(c, prompt)
    ensures prompt < Span(prompt / c.bl + 1, c.bl) && Span(prompt / c.bl, c.bl) <= prompt
  {
    NumBlocksPad(prompt + c.genLength, c.bl);
    QuotientSpan(prompt, c.bl);
    SpanBelow(prompt / c.bl, TotalBlocks(c, prompt) + 1, c.bl);
  }

  /** The token rows when the loop over blocks ends. */
  function FinalRows(d: Decoder, mode: Mode, early: Option<Token>, prompts: seq<Row>, prompt: nat): (x: seq<Row>)
    requires ModelOk(d.model) && Rect(prompts, prompt)
    ensures |x| == |prompts| && Rect(x, Span(TotalBlocks(d.cfg, prompt), d.cfg.bl))
  {
    BufferFits(d.cfg, prompt);
    var total := TotalBlocks(d.cfg, prompt);
    RunBlocks(d, mode, early, prompt, Initial(d.cfg, prompts, prompt, Span(total, d.cfg.bl)), prompt / d.cfg.bl, total)
  }

  /** What `generate` returns. */
  function Generated(d: Decoder, mode: Mode, early: Option<Token>, prompts: seq<Row>, prompt: nat): (r: seq<Row>)
    requires ModelOk(d.model) && Rect(prompts, prompt)
    ensures |r| == |prompts|
  {
    BufferFits(d.cfg, prompt);
    var x := FinalRows(d, mode, early, prompts, prompt);
    seq(|x|, b requires 0 <= b < |x| => Answer(d.cfg, early, prompt, x[b]))
  }
}
