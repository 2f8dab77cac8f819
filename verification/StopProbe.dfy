/**
 Exactly when the batch-wide stop is harmless for every decoder: only if the rows cannot be told apart, or no
 block is left to skip.
 */
module StopProbe {
  import opened Wrappers
  import opened Vectors
  import opened Softmax
  import opened Selection
  import opened BlockMath
  import opened Layers
  import opened Probe
  import opened Decode
  import opened DecodeProperties
  import opened SteadyDecode
  import opened EarlyStop

  ghost predicate AllSame(x: seq<Row>) {
    forall a, b :: 0 <= a < b < |x| ==> x[a] == x[b]
  }

  // ----- equal rows stay equal -----

  lemma StepSame(d: Decoder, mode: Mode, prompt: nat, x: seq<Row>, n: nat, len: nat)
    requires ModelOk(d.model) && Rect(x, len) && Span(n + 1, d.cfg.bl) <= len && AllSame(x)
    ensures AllSame(Step(d, mode, prompt, x, n, len))
  {
    hide StepRow;
  }

  lemma {:induction false} DenoiseSame(d: Decoder, mode: Mode, prompt: nat, x: seq<Row>, n: nat, len: nat,
                                       count: nat, post: int)
    requires ModelOk(d.model) && Rect(x, len) && Span(n + 1, d.cfg.bl) <= len && AllSame(x)
    ensures AllSame(Denoise(d, mode, prompt, x, n, len, count, post))
    decreases EffectiveSteps(d.cfg) - count
  {
    hide Step, AllSame, AnyMasked, AnyEdited;
    StepSame(d, mode, prompt, x, n, len);
    if count < EffectiveSteps(d.cfg) {
      var post' := if AnyMasked(d.cfg, x, n, len) then post else post + 1;
      DenoiseSame(d, mode, prompt, Step(d, mode, prompt, x, n, len), n, len, count + 1, post');
    }
  }

  lemma {:induction false} RunSame(d: Decoder, mode: Mode, early: Option<Token>, prompt: nat, x: seq<Row>, n: nat,
                                   total: nat)
    requires ModelOk(d.model) && Rect(x, Span(total, d.cfg.bl)) && n <= total && AllSame(x)
    ensures AllSame(RunBlocks(d, mode, early, prompt, x, n, total))
    decreases total - n
  {
    hide Denoise, Stops, AllSame;
    if n < total {
      var len := Span(total, d.cfg.bl);
      SpanMonotone(n + 1, total, d.cfg.bl);
      DenoiseSame(d, mode, prompt, x, n, len, 0, 0);
      RunSame(d, mode, early, prompt, Denoise(d, mode, prompt, x, n, len, 0, 0), n + 1, total);
    }
  }

  /** Equal rows end together. */
  lemma SamePace(d: Decoder, mode: Mode, eos: Token, prompts: seq<Row>, prompt: nat, b: nat)
    requires ModelOk(d.model) && Rect(prompts, prompt) && AllSame(prompts) && b < |prompts|
    ensures KeepsPace(d.cfg, prompt, FinalRows(d, mode, None, prompts, prompt), b, eos)
  {
    hide RunBlocks, EndedBy;
    BufferFits(d.cfg, prompt);
    var n, total := prompt / d.cfg.bl, TotalBlocks(d.cfg, prompt);
    RunSame(d, mode, None, prompt, Initial(d.cfg, prompts, prompt, Span(total, d.cfg.bl)), n, total);
    var full := FinalRows(d, mode, None, prompts, prompt);
    forall a | 0 <= a < |full| ensures full[a] == full[b] {
      assert a < b || b < a || a == b;
    }
  }

  // ----- a decoder that tells two rows apart -----

  /** Marks the rows that hold token u at position `at`; the mark goes to logit t. */
  function MarkModel(exp: real -> real, at: nat, u: Token, t: nat): Model {
    Model(tok => [if tok == u then 1.0 else 0.0], [ReadLayer(exp, at)], v => Zeros(t) + v)
  }

  /** Marked rows sample t + 1, all others t + 2. */
  function MarkDecoder(c: Config, exp: real -> real, topk: (seq<Score>, nat) -> set<nat>,
                       at: nat, u: Token, t: nat): Decoder
  {
    Decoder(MarkModel(exp, at, u, t), c, v => (if At(v, t) == 0.0 then t + 2 else t + 1, c.threshold + 1.0), topk)
  }

  function MarkToken(row: Row, at: nat, u: Token, t: nat): Token
    requires at < |row|
  {
    if row[at] == u then t + 1 else t + 2
  }

  lemma MarkOk(exp: real -> real, at: nat, u: Token, t: nat, bl: pos)
    ensures ModelOk(MarkModel(exp, at, u, t)) && ModelAligned(MarkModel(exp, at, u, t), bl)
    ensures forall n :: MaskReadable(MarkModel(exp, at, u, t), n)
  {}

  lemma MarkLogits(exp: real -> real, at: nat, u: Token, t: nat, bl: pos, mode: Mode, window: Row, n: nat, i: nat)
    requires IsExp(exp) && |window| == Span(n + 1, bl) && at < |window| && i < bl
    ensures ModelOk(MarkModel(exp, at, u, t))
    ensures LastLogits(MarkModel(exp, at, u, t), mode, window, bl, n)[i]
         == Zeros(t) + [if window[at] == u then Share(exp, |window|) else 0.0]
  {
    hide LayerOut, LastLogits, Share, IsExp, CachedHidden, Committed, LinearKeys;
    var m := MarkModel(exp, at, u, t);
    MarkOk(exp, at, u, t, bl);
    if mode.Cached? { CachedLogitsAgree(m, window, bl, n); }
    var hs, lv := Embed(m, window), LinearKeys(bl, n);
    ReadOut(exp, at, hs, bl, n, lv, Span(n, bl) + i);
    RecomputedAt(m, window, bl, n, i);
    assert Hidden(m, hs, bl, lv, 0) == hs;
    assert Hidden(m, hs, bl, lv, 1) == LayerOut(ReadLayer(exp, at), hs, bl, lv);
  }

  lemma MarkSampled(c: Config, exp: real -> real, topk: (seq<Score>, nat) -> set<nat>, at: nat, u: Token, t: nat,
                    mode: Mode, row: Row, n: nat)
    requires IsExp(exp) && at < Span(n + 1, c.bl) <= |row| && t !in row
    ensures ModelOk(MarkModel(exp, at, u, t))
    ensures Sampled(MarkDecoder(c, exp, topk, at, u, t), mode, row, n, MarkToken(row, at, u, t))
  {
    hide LastLogits, IsExp, Share;
    var d, window := MarkDecoder(c, exp, topk, at, u, t), row[..Span(n + 1, c.bl)];
    MarkOk(exp, at, u, t, c.bl);
    ShareEven(exp, |window|);
    var logits := LastLogits(d.model, mode, window, c.bl, n);
    forall i: nat | i < c.bl
      ensures At(Penalize(c, logits[i], window), t) == if row[at] == u then Share(exp, |window|) else 0.0
    {
      MarkLogits(exp, at, u, t, c.bl, mode, window, n, i);
      assert t !in window;
    }
  }

  /** A bound above every token of the rows. */
  lemma {:induction false} FreshToken(rows: seq<Row>, mask: Token) returns (t: nat)
    ensures mask < t && forall b, i :: 0 <= b < |rows| && 0 <= i < |rows[b]| ==> rows[b][i] < t
  {
    if |rows| == 0 {
      t := if mask < 0 then 0 else mask + 1;
    } else {
      var n := |rows| - 1;
      var s := FreshToken(rows[..n], mask);
      t := s;
      var row := rows[n];
      for k := 0 to |row|
        invariant t >= s && forall i :: 0 <= i < k ==> row[i] < t
      {
        if row[k] >= t { t := row[k] + 1; }
      }
      forall b, i | 0 <= b < |rows| && 0 <= i < |rows[b]| ensures rows[b][i] < t {
        if b < n { assert rows[..n][b] == rows[b]; }
      }
    }
  }

  function MarkTokens(prompts: seq<Row>, prompt: nat, at: nat, u: Token, t: nat): (toks: seq<Token>)
    requires Rect(prompts, prompt) && at < prompt
    ensures |toks| == |prompts|
  {
    seq(|prompts|, b requires 0 <= b < |prompts| => MarkToken(prompts[b], at, u, t))
  }

  lemma MarkFillable(c: Config, exp: real -> real, topk: (seq<Score>, nat) -> set<nat>, at: nat, u: Token, t: nat,
                     mode: Mode, row: Row, prompt: nat, len: nat, n: nat)
    requires IsExp(exp) && |row| == prompt && at < prompt && Span(n, c.bl) <= prompt < Span(n + 1, c.bl) <= len
    requires u != c.mask && u < t && c.mask < t && forall i :: 0 <= i < |row| ==> row[i] < t
    ensures var d, x := MarkDecoder(c, exp, topk, at, u, t), row + seq(len - prompt, _ => c.mask);
            var tok := MarkToken(row, at, u, t);
            && ModelOk(d.model) && Fillable(c, prompt, x, n, tok)
            && Sampled(d, mode, x, n, tok) && Sampled(d, mode, FillRow(c, x, n, tok), n, tok)
  {
    hide IsExp, Sampled;
    var x, tok := row + seq(len - prompt, _ => c.mask), MarkToken(row, at, u, t);
    var y := FillRow(c, x, n, tok);
    assert t !in x && t !in y;
    MarkSampled(c, exp, topk, at, u, t, mode, x, n);
    MarkSampled(c, exp, topk, at, u, t, mode, y, n);
    assert MarkToken(x, at, u, t) == MarkToken(y, at, u, t) == tok;
  }

  lemma MarkAllFillable(c: Config, exp: real -> real, topk: (seq<Score>, nat) -> set<nat>, at: nat, u: Token, t: nat,
                        mode: Mode, prompts: seq<Row>, prompt: nat, len: nat, n: nat)
    requires IsExp(exp) && Rect(prompts, prompt) && at < prompt && Span(n, c.bl) <= prompt < Span(n + 1, c.bl) <= len
    requires u != c.mask && u < t && c.mask < t
    requires forall b, i :: 0 <= b < |prompts| && 0 <= i < |prompts[b]| ==> prompts[b][i] < t
    ensures var d := MarkDecoder(c, exp, topk, at, u, t);
            && ModelOk(d.model)
            && AllFillable(d, mode, prompt, Initial(c, prompts, prompt, len), n, len,
                           MarkTokens(prompts, prompt, at, u, t))
  {
    hide IsExp, Sampled, Fillable, FillRow, MarkToken;
    MarkOk(exp, at, u, t, c.bl);
    var d, x := MarkDecoder(c, exp, topk, at, u, t), Initial(c, prompts, prompt, len);
    var toks := MarkTokens(prompts, prompt, at, u, t);
    forall b | 0 <= b < |prompts|
      ensures Fillable(c, prompt, x[b], n, toks[b]) && Sampled(d, mode, x[b], n, toks[b])
           && Sampled(d, mode, FillRow(c, x[b], n, toks[b]), n, toks[b])
    {
      MarkFillable(c, exp, topk, at, u, t, mode, prompts[b], prompt, len, n);
    }
  }

  /** Row a holds the marked token and ends in its first block; row b does not, and is cut off. */
  lemma MarkDiffers(c: Config, exp: real -> real, topk: (seq<Score>, nat) -> set<nat>, at: nat, t: nat, mode: Mode,
                    prompts: seq<Row>, prompt: nat, a: nat, b: nat)
    requires IsExp(exp) && SelectsTopK(topk) && Enough(c) && Rect(prompts, prompt) && at < prompt
    requires a < |prompts| && b < |prompts| && prompts[a][at] != prompts[b][at] && prompts[a][at] != c.mask
    requires c.mask < t
    requires forall b, i :: 0 <= b < |prompts| && 0 <= i < |prompts[b]| ==> prompts[b][i] < t
    requires prompt / c.bl + 1 < TotalBlocks(c, prompt)
    ensures var d := MarkDecoder(c, exp, topk, at, prompts[a][at], t);
            && ModelOk(d.model) && Clears(d)
            && Generated(d, mode, Some(t + 1), prompts, prompt)[b] != Reference(d, mode, t + 1, prompts, prompt)[b]
  {
    hide IsExp, SelectsTopK, Enough, Generated, Reference, FinalRows, AllFillable, Initial;
    var u, n := prompts[a][at], prompt / c.bl;
    var d, toks := MarkDecoder(c, exp, topk, at, u, t), MarkTokens(prompts, prompt, at, u, t);
    EnoughSteps(c);
    BufferFits(c, prompt);
    FirstBlock(c, prompt);
    MarkAllFillable(c, exp, topk, at, u, t, mode, prompts, prompt, Span(TotalBlocks(c, prompt), c.bl), n);
    FirstGenerated(d, mode, None, prompts, prompt, toks, a);
    FirstGenerated(d, mode, None, prompts, prompt, toks, b);
    var full, hi := FinalRows(d, mode, None, prompts, prompt), Span(n + 1, c.bl);
    assert full[a][prompt] == t + 1;
    assert EndedBy(full[a], prompt, hi, t + 1);
    assert AnyEnded(full, prompt, hi, t + 1) && !EndedBy(full[b], prompt, hi, t + 1);
    assert Behind(c, prompt, full, b, t + 1, n);
    EarlyStopExact(d, mode, t + 1, prompts, prompt, b);
  }

  lemma EnoughSteps(c: Config)
    requires Enough(c)
    ensures EffectiveSteps(c) >= 1 && c.maxPostSteps >= 0 && c.genLength >= 1
  {
    var e := EffectiveSteps(c);
    assert e <= 0 ==> e * c.numTransfer <= 0;
    RemainderUnique(0, 0, 0, c.minimalTopk);
  }

  // ----- the exact condition -----

  /** Every row's stopped answer is its reference answer. */
  ghost predicate StopsExactly(d: Decoder, mode: Mode, eos: Token, prompts: seq<Row>, prompt: nat)
    requires ModelOk(d.model) && Rect(prompts, prompt)
  {
    Generated(d, mode, Some(eos), prompts, prompt) == Reference(d, mode, eos, prompts, prompt)
  }

  /** The prompts are all the same, or the answer has no second block. */
  ghost predicate Harmless(c: Config, prompts: seq<Row>, prompt: nat) {
    AllSame(prompts) || TotalBlocks(c, prompt) <= prompt / c.bl + 1
  }

  lemma HarmlessExact(d: Decoder, mode: Mode, eos: Token, prompts: seq<Row>, prompt: nat)
    requires ModelOk(d.model) && Rect(prompts, prompt) && SelectsTopK(d.topk) && Harmless(d.cfg, prompts, prompt)
    ensures StopsExactly(d, mode, eos, prompts, prompt)
  {
    hide Generated, Reference, FinalRows, SelectsTopK, AllSame;
    forall b | 0 <= b < |prompts|
      ensures Generated(d, mode, Some(eos), prompts, prompt)[b] == Reference(d, mode, eos, prompts, prompt)[b]
    {
      if AllSame(prompts) { SamePace(d, mode, eos, prompts, prompt, b); }
      KeepsUp(d, mode, eos, prompts, prompt, b);
    }
  }

  /** Two prompts that differ, and a position at which the first holds a token that is not the mask. */
  lemma Differ(c: Config, prompts: seq<Row>, prompt: nat) returns (a: nat, b: nat, at: nat)
    requires Rect(prompts, prompt) && !AllSame(prompts)
    ensures a < |prompts| && b < |prompts| && at < prompt
    ensures prompts[a][at] != prompts[b][at] && prompts[a][at] != c.mask
  {
    a, b :| 0 <= a < b < |prompts| && prompts[a] != prompts[b];
    at :| 0 <= at < prompt && prompts[a][at] != prompts[b][at];
    if prompts[a][at] == c.mask { a, b := b, a; }
  }

  lemma Harmful(c: Config, exp: real -> real, topk: (seq<Score>, nat) -> set<nat>, mode: Mode, prompts: seq<Row>,
                prompt: nat) returns (d: Decoder, eos: Token)
    requires IsExp(exp) && SelectsTopK(topk) && Enough(c) && Rect(prompts, prompt) && !Harmless(c, prompts, prompt)
    ensures d.cfg == c && d.topk == topk && ModelOk(d.model) && Clears(d)
    ensures !StopsExactly(d, mode, eos, prompts, prompt)
  {
    hide Generated, Reference, SelectsTopK, IsExp, Enough, Clears;
    var a, b, at := Differ(c, prompts, prompt);
    var t := FreshToken(prompts, c.mask);
    d, eos := MarkDecoder(c, exp, topk, at, prompts[a][at], t), t + 1;
    MarkDiffers(c, exp, topk, at, t, mode, prompts, prompt, a, b);
  }

  /**
   With enough steps, the batch-wide stop gives every row its reference answer for every model, sampler and end
   token if and only if the prompts are all the same or the answer has no second block.
   */
  lemma EarlyStopIff(c: Config, exp: real -> real, topk: (seq<Score>, nat) -> set<nat>, mode: Mode,
                     prompts: seq<Row>, prompt: nat)
    requires IsExp(exp) && SelectsTopK(topk) && Enough(c) && Rect(prompts, prompt)
    ensures Harmless(c, prompts, prompt) <==>
      forall d: Decoder, eos: Token ::
        d.cfg == c && SelectsTopK(d.topk) && ModelOk(d.model) && Clears(d) ==>
        StopsExactly(d, mode, eos, prompts, prompt)
  {
    hide StopsExactly, IsExp, SelectsTopK, ModelOk, Clears, Enough, Harmless;
    if Harmless(c, prompts, prompt) {
      forall d: Decoder, eos: Token | d.cfg == c && SelectsTopK(d.topk) && ModelOk(d.model) && Clears(d)
        ensures StopsExactly(d, mode, eos, prompts, prompt)
      {
        HarmlessExact(d, mode, eos, prompts, prompt);
      }
    } else {
      var d, eos := Harmful(c, exp, topk, mode, prompts, prompt);
      assert !StopsExactly(d, mode, eos, prompts, prompt);
    }
  }
}
