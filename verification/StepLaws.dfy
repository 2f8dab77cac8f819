/**
 What a denoising step and a block's loop do, said of the rows, the samples and the configuration alone: which
 positions are filled, which are overwritten, when the loop ends, and what is returned.
 */
module StepLaws {
  import opened Wrappers
  import opened Vectors
  import opened Selection
  import opened BlockMath
  import opened Layers
  import opened Decode
  import opened DecodeProperties

  // ----- the samples -----

  /**
   What is sampled for position i of block n: the token drawn from the logits that a forward pass over the whole
   window, blocks 0 to n, gives that position, after the repetition penalty on the tokens of the window.
   */
  lemma SampledFrom(d: Decoder, row: Row, n: nat, i: nat)
    requires ModelOk(d.model) && Span(n + 1, d.cfg.bl) <= |row| && Span(n, d.cfg.bl) <= i < Span(n + 1, d.cfg.bl)
    ensures var m, window := d.model, row[..Span(n + 1, d.cfg.bl)];
            var logits := m.logits(Hidden(m, Embed(m, window), d.cfg.bl, n > 0, |m.layers|)[i]);
            Samples(d, Recompute, row, n)[i - Span(n, d.cfg.bl)] == d.sample(Penalize(d.cfg, logits, window))
  {
    hide Hidden, LinearKeys, Embed, LastLogits, Penalize;
    LinearKeysIff(d.cfg.bl, n);
    RecomputedAt(d.model, row[..Span(n + 1, d.cfg.bl)], d.cfg.bl, n, i - Span(n, d.cfg.bl));
  }

  // ----- one step of one row -----

  /** The confidence and the token sampled for position i of block n. */
  function ConfidenceAt(d: Decoder, mode: Mode, row: Row, n: nat, i: nat): real
    requires ModelOk(d.model) && Span(n + 1, d.cfg.bl) <= |row| && Span(n, d.cfg.bl) <= i < Span(n + 1, d.cfg.bl)
  {
    Samples(d, mode, row, n)[i - Span(n, d.cfg.bl)].1
  }

  function SampledAt(d: Decoder, mode: Mode, row: Row, n: nat, i: nat): Token
    requires ModelOk(d.model) && Span(n + 1, d.cfg.bl) <= |row| && Span(n, d.cfg.bl) <= i < Span(n + 1, d.cfg.bl)
  {
    Samples(d, mode, row, n)[i - Span(n, d.cfg.bl)].0
  }

  lemma StepAt(d: Decoder, mode: Mode, prompt: nat, row: Row, n: nat, i: nat)
    requires ModelOk(d.model) && Span(n + 1, d.cfg.bl) <= |row| && Span(n, d.cfg.bl) <= i < Span(n + 1, d.cfg.bl)
    ensures var lo := Span(n, d.cfg.bl);
            var block, smp := Block(d.cfg, row, n), Samples(d, mode, row, n);
            && block[i - lo] == row[i]
            && StepRow(d, mode, prompt, row, n)[i] == NewBlock(d, block, smp, PromptIn(d.cfg, prompt, lo))[i - lo]
  {
    hide Samples, NewBlock;
  }

  /**
   A position that holds a token: in the prompt it stays; behind the prompt it becomes the sampled token if and
   only if the confidence exceeds the editing threshold.
   */
  lemma EditedIff(d: Decoder, mode: Mode, prompt: nat, row: Row, n: nat, i: nat)
    requires ModelOk(d.model) && Span(n + 1, d.cfg.bl) <= |row| && SelectsTopK(d.topk)
    requires Span(n, d.cfg.bl) <= i < Span(n + 1, d.cfg.bl) && row[i] != d.cfg.mask
    ensures StepRow(d, mode, prompt, row, n)[i] ==
            if prompt <= i && ConfidenceAt(d, mode, row, n, i) > d.cfg.editThreshold
            then SampledAt(d, mode, row, n, i) else row[i]
  {
    hide Samples, SelectsTopK, MaskTransfer, StepRow;
    StepAt(d, mode, prompt, row, n, i);
    TransferIsMasked(d, Block(d.cfg, row, n), Samples(d, mode, row, n));
  }

  /** The masked positions of block n. */
  function MasksOf(c: Config, row: Row, n: nat): set<nat> {
    set i: nat | i < |row| && Span(n, c.bl) <= i < Span(n + 1, c.bl) && row[i] == c.mask
  }

  /** Those sampled with a confidence above the threshold. */
  function SureOf(d: Decoder, mode: Mode, row: Row, n: nat): set<nat>
    requires ModelOk(d.model) && Span(n + 1, d.cfg.bl) <= |row|
  {
    set i: nat | i in MasksOf(d.cfg, row, n) && ConfidenceAt(d, mode, row, n, i) > d.cfg.threshold
  }

  predicate Inside(s: set<nat>, lo: nat, i: nat) { lo <= i && i - lo in s }

  /** Positions of a block of this size as positions of the row. */
  function Shift(s: set<nat>, lo: nat, size: nat): set<nat> {
    set i: nat | i < lo + size && Inside(s, lo, i)
  }

  lemma {:induction false} ShiftSize(s: set<nat>, lo: nat, size: nat)
    requires forall i :: i in s ==> i < size
    ensures |Shift(s, lo, size)| == |s|
  {
    if s != {} {
      var i :| i in s;
      ShiftSize(s - {i}, lo, size);
      assert Shift(s, lo, size) == Shift(s - {i}, lo, size) + {lo + i};
    } else {
      assert Shift(s, lo, size) == {};
    }
  }

  lemma MasksShift(c: Config, row: Row, n: nat)
    requires Span(n + 1, c.bl) <= |row|
    ensures MasksOf(c, row, n) == Shift(MaskPositions(c, Block(c, row, n)), Span(n, c.bl), c.bl)
  {
    var lo, block := Span(n, c.bl), Block(c, row, n);
    forall i: nat | lo <= i < lo + c.bl ensures block[i - lo] == row[i] {}
  }

  lemma SureShift(d: Decoder, mode: Mode, row: Row, n: nat)
    requires ModelOk(d.model) && Span(n + 1, d.cfg.bl) <= |row|
    ensures SureOf(d, mode, row, n)
         == Shift(HighConfidence(d.cfg, Block(d.cfg, row, n), Samples(d, mode, row, n)), Span(n, d.cfg.bl), d.cfg.bl)
  {
    hide Samples;
    var lo, block := Span(n, d.cfg.bl), Block(d.cfg, row, n);
    forall i: nat | lo <= i < lo + d.cfg.bl ensures block[i - lo] == row[i] {}
  }

  /** Which masked positions a step fills: the sure ones if they are enough, else the most confident. */
  ghost predicate FillsRight(d: Decoder, mode: Mode, row: Row, n: nat, filled: set<nat>)
    requires ModelOk(d.model) && Span(n + 1, d.cfg.bl) <= |row|
  {
    var masks, sure, k := MasksOf(d.cfg, row, n), SureOf(d, mode, row, n), d.cfg.numTransfer;
    && filled <= masks
    && (|sure| >= k ==> filled == sure)
    && (|sure| < k ==>
          && |filled| == (if k < |masks| then k else |masks|)
          && forall i, j :: i in filled && j in masks && j !in filled ==>
               ConfidenceAt(d, mode, row, n, j) <= ConfidenceAt(d, mode, row, n, i))
  }

  /**
   A step fills, with their sampled tokens, exactly the masked positions sampled with a confidence above the
   threshold if these are at least num_to_transfer; otherwise exactly min(num_to_transfer, remaining) of them, none
   beaten in confidence by one left out. The other masked positions stay masked.
   */
  lemma StepFilled(d: Decoder, mode: Mode, prompt: nat, row: Row, n: nat) returns (filled: set<nat>)
    requires ModelOk(d.model) && Span(n + 1, d.cfg.bl) <= |row| && SelectsTopK(d.topk)
    ensures FillsRight(d, mode, row, n, filled)
    ensures forall i :: i in MasksOf(d.cfg, row, n) ==>
      StepRow(d, mode, prompt, row, n)[i] == if i in filled then SampledAt(d, mode, row, n, i) else d.cfg.mask
  {
    hide Samples, SelectsTopK, MaskTransfer, StepRow, FillsRight;
    var lo, block, smp := Span(n, d.cfg.bl), Block(d.cfg, row, n), Samples(d, mode, row, n);
    var moved := MaskTransfer(d, block, smp);
    filled := Shift(moved, lo, d.cfg.bl);
    TransferIsMasked(d, block, smp);
    forall i | i in MasksOf(d.cfg, row, n)
      ensures StepRow(d, mode, prompt, row, n)[i] == if i in filled then SampledAt(d, mode, row, n, i) else d.cfg.mask
    {
      StepAt(d, mode, prompt, row, n, i);
    }
    MovedRight(d, mode, row, n);
  }

  lemma MovedRight(d: Decoder, mode: Mode, row: Row, n: nat)
    requires ModelOk(d.model) && Span(n + 1, d.cfg.bl) <= |row| && SelectsTopK(d.topk)
    ensures var moved := MaskTransfer(d, Block(d.cfg, row, n), Samples(d, mode, row, n));
            FillsRight(d, mode, row, n, Shift(moved, Span(n, d.cfg.bl), d.cfg.bl))
  {
    hide Samples, SelectsTopK, MaskTransfer;
    var lo, size, block, smp := Span(n, d.cfg.bl), d.cfg.bl, Block(d.cfg, row, n), Samples(d, mode, row, n);
    var active, high := MaskPositions(d.cfg, block), HighConfidence(d.cfg, block, smp);
    var moved := MaskTransfer(d, block, smp);
    TransferIsMasked(d, block, smp);
    MasksShift(d.cfg, row, n);
    SureShift(d, mode, row, n);
    ShiftSize(active, lo, size);
    ShiftSize(high, lo, size);
    ShiftSize(moved, lo, size);
    if |high| >= d.cfg.numTransfer {
      SureMoved(d, block, smp);
    } else {
      TopKMoved(d, block, smp);
    }
  }

  lemma SureMoved(d: Decoder, block: Row, smp: seq<(Token, real)>)
    requires |smp| == |block| && |HighConfidence(d.cfg, block, smp)| >= d.cfg.numTransfer
    ensures MaskTransfer(d, block, smp) == HighConfidence(d.cfg, block, smp)
  {
    assert HighConfidence(d.cfg, block, smp) <= MaskPositions(d.cfg, block);
  }

  lemma TopKMoved(d: Decoder, block: Row, smp: seq<(Token, real)>)
    requires |smp| == |block| && SelectsTopK(d.topk)
    requires |HighConfidence(d.cfg, block, smp)| < d.cfg.numTransfer
    ensures var active, moved := MaskPositions(d.cfg, block), MaskTransfer(d, block, smp);
            && moved <= active && |moved| == Min(d.cfg.numTransfer, |active|)
            && forall i, j :: i in moved && j in active && j !in moved ==> smp[j].1 <= smp[i].1
  {
    var active, conf := MaskPositions(d.cfg, block), MaskConfidence(d.cfg, block, smp);
    BoundedSize(active, |block|);
    TransferIsMasked(d, block, smp);
    var k := Min(d.cfg.numTransfer, |active|);
    assert IsTopK(conf, k, d.topk(conf, k));
    var moved := MaskTransfer(d, block, smp);
    forall i, j | i in moved && j in active && j !in moved ensures smp[j].1 <= smp[i].1 {
      assert ScoreLe(conf[j], conf[i]);
    }
  }

  // ----- the penalty -----

  /**
   The repetition penalty: a positive logit of a token in the window, the mask aside, is divided by it and any
   other multiplied; all other logits stay.
   */
  lemma PenaltyAt(c: Config, logits: Vec, window: Row, t: nat)
    requires t < |logits| && c.penalty > 0.0
    ensures |Penalize(c, logits, window)| == |logits|
    ensures t !in window || t == c.mask ==> Penalize(c, logits, window)[t] == logits[t]
    ensures t in window && t != c.mask && logits[t] > 0.0 ==> Penalize(c, logits, window)[t] * c.penalty == logits[t]
    ensures t in window && t != c.mask && logits[t] <= 0.0 ==> Penalize(c, logits, window)[t] == logits[t] * c.penalty
    ensures c.penalty >= 1.0 ==> Penalize(c, logits, window)[t] <= logits[t]
  {
    var x, p := logits[t], c.penalty;
    var q := x / p;
    assert q * p == x;
    assert q <= 0.0 ==> q * p <= 0.0;
    if p >= 1.0 {
      assert q >= 0.0 ==> q * p >= q;
      assert x <= 0.0 ==> x * p <= x;
    }
  }

  // ----- the loop of a block -----

  /** The budget: the most steps, up to the configured number, with minimal_topk positions each inside the answer. */
  lemma StepBudget(c: Config)
    ensures var e := EffectiveSteps(c);
            && e <= c.steps && (e >= 0 ==> e * c.minimalTopk <= c.genLength)
            && (e == c.steps || (e + 1) * c.minimalTopk > c.genLength)
  {
    var q := c.genLength / c.minimalTopk;
    assert q * c.minimalTopk <= c.genLength < (q + 1) * c.minimalTopk;
    if 0 <= c.steps < q { assert c.steps * c.minimalTopk <= q * c.minimalTopk; }
  }

  /** The rows after m steps. */
  function Steps(d: Decoder, mode: Mode, prompt: nat, x: seq<Row>, n: nat, len: nat, m: nat): (r: seq<Row>)
    requires ModelOk(d.model) && Rect(x, len) && Span(n + 1, d.cfg.bl) <= len
    ensures |r| == |x| && Rect(r, len)
    decreases m
  {
    if m == 0 then x else Steps(d, mode, prompt, Step(d, mode, prompt, x, n, len), n, len, m - 1)
  }

  /** How many of the first m steps begin with no mask left. */
  ghost function PostSteps(d: Decoder, mode: Mode, prompt: nat, x: seq<Row>, n: nat, len: nat, m: nat): nat
    requires ModelOk(d.model) && Rect(x, len) && Span(n + 1, d.cfg.bl) <= len
    decreases m
  {
    if m == 0 then 0
    else
      (if AnyMasked(d.cfg, x, n, len) then 0 else 1)
      + PostSteps(d, mode, prompt, Step(d, mode, prompt, x, n, len), n, len, m - 1)
  }

  /** No mask is left and the step overwrites nothing. */
  ghost predicate Settled(d: Decoder, mode: Mode, prompt: nat, x: seq<Row>, n: nat, len: nat)
    requires ModelOk(d.model) && Rect(x, len) && Span(n + 1, d.cfg.bl) <= len
  {
    !AnyMasked(d.cfg, x, n, len) && Step(d, mode, prompt, x, n, len) == x
  }

  lemma EditedChanges(d: Decoder, mode: Mode, prompt: nat, row: Row, n: nat)
    requires ModelOk(d.model) && Span(n + 1, d.cfg.bl) <= |row| && !RowMasked(d.cfg, row, n)
    ensures RowEdited(d, mode, prompt, row, n) <==> StepRow(d, mode, prompt, row, n) != row
  {
    hide Samples;
    var lo, block, smp := Span(n, d.cfg.bl), Block(d.cfg, row, n), Samples(d, mode, row, n);
    var edits := EditTransfer(d.cfg, block, smp, PromptIn(d.cfg, prompt, lo));
    assert MaskPositions(d.cfg, block) == {};
    var next := StepRow(d, mode, prompt, row, n);
    if edits != {} {
      var i :| i in edits;
      StepAt(d, mode, prompt, row, n, lo + i);
      assert next[lo + i] == smp[i].0 != row[lo + i];
    } else {
      assert NewBlock(d, block, smp, PromptIn(d.cfg, prompt, lo)) == block;
      assert next == row;
    }
  }

  /** With no mask left, a step edits nothing exactly if it changes nothing. */
  lemma UneditedIsSettled(d: Decoder, mode: Mode, prompt: nat, x: seq<Row>, n: nat, len: nat)
    requires ModelOk(d.model) && Rect(x, len) && Span(n + 1, d.cfg.bl) <= len && !AnyMasked(d.cfg, x, n, len)
    ensures !AnyEdited(d, mode, prompt, x, n, len) <==> Step(d, mode, prompt, x, n, len) == x
  {
    hide StepRow, RowEdited, RowMasked;
    forall b | 0 <= b < |x|
      ensures RowEdited(d, mode, prompt, x[b], n) <==> StepRow(d, mode, prompt, x[b], n) != x[b]
    {
      assert !RowMasked(d.cfg, x[b], n);
      EditedChanges(d, mode, prompt, x[b], n);
    }
    var y := Step(d, mode, prompt, x, n, len);
    forall b | 0 <= b < |x| ensures y[b] == StepRow(d, mode, prompt, x[b], n) {}
  }

  /** The loop ends m steps from x, if it may take `left` more steps and has taken `post` with no mask left. */
  ghost predicate EndsAfter(d: Decoder, mode: Mode, prompt: nat, x: seq<Row>, n: nat, len: nat, left: int, post: int,
                            m: nat)
    requires ModelOk(d.model) && Rect(x, len) && Span(n + 1, d.cfg.bl) <= len
  {
    && (m > 0 ==> m <= left && post + PostSteps(d, mode, prompt, x, n, len, m) <= d.cfg.maxPostSteps)
    && (forall k: nat :: k + 1 < m ==> !Settled(d, mode, prompt, Steps(d, mode, prompt, x, n, len, k), n, len))
    && (|| m >= left
        || post + PostSteps(d, mode, prompt, x, n, len, m + 1) > d.cfg.maxPostSteps
        || (m > 0 && Settled(d, mode, prompt, Steps(d, mode, prompt, x, n, len, m - 1), n, len)))
  }

  lemma EndsNext(d: Decoder, mode: Mode, prompt: nat, x: seq<Row>, n: nat, len: nat, left: int, post: int, m: nat)
    requires ModelOk(d.model) && Rect(x, len) && Span(n + 1, d.cfg.bl) <= len
    requires var post' := if AnyMasked(d.cfg, x, n, len) then post else post + 1;
             && left >= 1 && post' <= d.cfg.maxPostSteps && !Settled(d, mode, prompt, x, n, len)
             && EndsAfter(d, mode, prompt, Step(d, mode, prompt, x, n, len), n, len, left - 1, post', m)
    ensures EndsAfter(d, mode, prompt, x, n, len, left, post, m + 1)
  {
    hide Step, AnyMasked, Settled;
    var y := Step(d, mode, prompt, x, n, len);
    assert PostSteps(d, mode, prompt, y, n, len, 0) == 0;
    forall k: nat | k + 1 < m + 1 ensures !Settled(d, mode, prompt, Steps(d, mode, prompt, x, n, len, k), n, len) {
      if k > 0 {
        assert Steps(d, mode, prompt, x, n, len, k) == Steps(d, mode, prompt, y, n, len, k - 1);
        assert (k - 1) + 1 < m;
      }
    }
  }

  /**
   The loop of a block takes whole steps: it ends when the budget is used up, when one more step with no mask left
   would exceed max_post_steps, or after the first step that finds no mask and changes nothing.
   */
  lemma {:induction false} DenoiseEnds(d: Decoder, mode: Mode, prompt: nat, x: seq<Row>, n: nat, len: nat, count: nat,
                                       post: int) returns (m: nat)
    requires ModelOk(d.model) && Rect(x, len) && Span(n + 1, d.cfg.bl) <= len
    ensures Denoise(d, mode, prompt, x, n, len, count, post) == Steps(d, mode, prompt, x, n, len, m)
    ensures EndsAfter(d, mode, prompt, x, n, len, EffectiveSteps(d.cfg) - count, post, m)
    decreases EffectiveSteps(d.cfg) - count
  {
    hide Step, AnyMasked, AnyEdited;
    m := 0;
    if count < EffectiveSteps(d.cfg) {
      var masked := AnyMasked(d.cfg, x, n, len);
      var post' := if masked then post else post + 1;
      var y := Step(d, mode, prompt, x, n, len);
      assert PostSteps(d, mode, prompt, y, n, len, 0) == 0;
      if post' <= d.cfg.maxPostSteps {
        if !masked { UneditedIsSettled(d, mode, prompt, x, n, len); }
        if !masked && !AnyEdited(d, mode, prompt, x, n, len) {
          m := 1;
          assert Steps(d, mode, prompt, y, n, len, 0) == y;
          assert Steps(d, mode, prompt, x, n, len, 0) == x;
        } else {
          m := DenoiseEnds(d, mode, prompt, y, n, len, count + 1, post');
          EndsNext(d, mode, prompt, x, n, len, EffectiveSteps(d.cfg) - count, post, m);
          m := m + 1;
        }
      }
    }
  }

  // ----- the answer -----

  /**
   Without early stop the answer is the generated part of the row. With it, the answer agrees with that part up to
   and including its first end token, and holds only the end token behind it.
   */
  lemma AnswerTrimmed(c: Config, eos: Token, prompt: nat, row: Row)
    requires prompt + c.genLength <= |row|
    ensures Answer(c, None, prompt, row) == row[prompt..prompt + c.genLength]
    ensures |Answer(c, Some(eos), prompt, row)| == c.genLength
    ensures forall i :: 0 <= i < c.genLength ==>
      Answer(c, Some(eos), prompt, row)[i] == if eos in row[prompt..prompt + i] then eos else row[prompt + i]
  {
    hide FirstEos;
    var gen := row[prompt..prompt + c.genLength];
    forall i | 0 <= i < c.genLength
      ensures Answer(c, Some(eos), prompt, row)[i] == if eos in row[prompt..prompt + i] then eos else row[prompt + i]
    {
      var head := row[prompt..prompt + i];
      assert forall j :: 0 <= j < i ==> head[j] == gen[j];
      if FirstEos(gen, eos) < i { assert head[FirstEos(gen, eos)] == eos; }
    }
  }
}
