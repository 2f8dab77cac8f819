/**
 Early stop in a batch. The end-token test looks at the whole batch, so one row's end token stops every row.
 For a decoder that clears its blocks, these lemmas say exactly which rows notice.
 */
module EarlyStop {
  import opened Wrappers
  import opened Softmax
  import opened Selection
  import opened BlockMath
  import opened Layers
  import opened Decode
  import opened DecodeProperties
  import opened SteadyDecode

  predicate EndedBy(row: Row, prompt: nat, hi: nat, eos: Token) {
    exists i :: prompt <= i < hi && i < |row| && row[i] == eos
  }

  predicate AnyEnded(x: seq<Row>, prompt: nat, hi: nat, eos: Token) {
    exists b :: 0 <= b < |x| && EndedBy(x[b], prompt, hi, eos)
  }

  /** Block m ends inside the answer, some row has ended by then, and row b has not. */
  predicate Behind(c: Config, prompt: nat, full: seq<Row>, b: nat, eos: Token, m: nat)
    requires b < |full|
  {
    && prompt / c.bl <= m && m + 1 < TotalBlocks(c, prompt)
    && AnyEnded(full, prompt, Span(m + 1, c.bl), eos) && !EndedBy(full[b], prompt, Span(m + 1, c.bl), eos)
  }

  /** At every block end inside the answer at which some row has ended, row b has ended too. */
  ghost predicate KeepsPace(c: Config, prompt: nat, full: seq<Row>, b: nat, eos: Token)
    requires b < |full|
  {
    forall m: nat :: !Behind(c, prompt, full, b, eos, m)
  }

  // ----- the stop comes no later than the first end token -----

  lemma ClearNext(d: Decoder, mode: Mode, prompt: nat, x: seq<Row>, n: nat, len: nat)
    requires ModelOk(d.model) && Rect(x, len) && Span(n + 1, d.cfg.bl) <= len && SelectsTopK(d.topk) && Clears(d)
    requires Clear(d.cfg, x, prompt, Span(n, d.cfg.bl))
    ensures Clear(d.cfg, Denoise(d, mode, prompt, x, n, len, 0, 0), prompt, Span(n + 1, d.cfg.bl))
  {
    hide Denoise, SelectsTopK, Clears;
    var y, lo := Denoise(d, mode, prompt, x, n, len, 0, 0), Span(n, d.cfg.bl);
    BlockCleared(d, mode, prompt, x, n, len);
    DenoiseKeeps(d, mode, prompt, x, n, len, 0, 0);
    forall b, i | 0 <= b < |y| && prompt <= i < lo + d.cfg.bl && i < |y[b]| ensures y[b][i] != d.cfg.mask {
      assert KeepsOutside(d.cfg, prompt, x[b], y[b], n);
      if i >= lo {
        assert !RowMasked(d.cfg, y[b], n);
        assert Block(d.cfg, y[b], n)[i - lo] == y[b][i];
      }
    }
  }

  lemma StopsHere(c: Config, prompt: nat, y: seq<Row>, full: seq<Row>, hi: nat, eos: Token)
    requires Clear(c, y, prompt, hi) && FrozenBelow(c, prompt, hi, y, full) && AnyEnded(full, prompt, hi, eos)
    ensures Stops(c, prompt, y, hi, eos)
  {
    var b :| 0 <= b < |full| && EndedBy(full[b], prompt, hi, eos);
    var i :| prompt <= i < hi && i < |full[b]| && full[b][i] == eos;
    assert y[b][i] == eos;
  }

  /** If a row of the full run has ended by the end of block m, the stopped run leaves what lies behind it as it was. */
  lemma {:induction false} StoppedBy(d: Decoder, mode: Mode, eos: Token, prompt: nat, x: seq<Row>, n: nat, m: nat,
                                     total: nat)
    requires ModelOk(d.model) && Rect(x, Span(total, d.cfg.bl)) && n <= m < total && SelectsTopK(d.topk) && Clears(d)
    requires Clear(d.cfg, x, prompt, Span(n, d.cfg.bl))
    requires AnyEnded(RunBlocks(d, mode, None, prompt, x, n, total), prompt, Span(m + 1, d.cfg.bl), eos)
    ensures Untouched(x, RunBlocks(d, mode, Some(eos), prompt, x, n, total), Span(m + 1, d.cfg.bl))
    decreases total - n
  {
    hide Denoise, SelectsTopK, Clears, Stops, AnyEnded, Clear, Untouched;
    var len := Span(total, d.cfg.bl);
    SpanMonotone(n + 1, total, d.cfg.bl);
    SpanMonotone(n + 1, m + 1, d.cfg.bl);
    var y := Denoise(d, mode, prompt, x, n, len, 0, 0);
    DenoiseKeeps(d, mode, prompt, x, n, len, 0, 0);
    ClearNext(d, mode, prompt, x, n, len);
    DenoiseUntouched(d.cfg, prompt, x, y, n, Span(m + 1, d.cfg.bl));
    if !Stops(d.cfg, prompt, y, Span(n + 1, d.cfg.bl), eos) {
      if n == m {
        BlocksFrozen(d, mode, None, prompt, y, n + 1, total);
        StopsHere(d.cfg, prompt, y, RunBlocks(d, mode, None, prompt, y, n + 1, total), Span(n + 1, d.cfg.bl), eos);
      } else {
        StoppedBy(d, mode, eos, prompt, y, n + 1, m, total);
        UntouchedChain(x, y, RunBlocks(d, mode, Some(eos), prompt, y, n + 1, total), Span(m + 1, d.cfg.bl));
      }
    }
  }

  ghost predicate Untouched(x: seq<Row>, y: seq<Row>, hi: nat) {
    |x| == |y| && forall b :: 0 <= b < |x| ==> |x[b]| == |y[b]| && forall i :: hi <= i < |x[b]| ==> y[b][i] == x[b][i]
  }

  lemma DenoiseUntouched(c: Config, prompt: nat, x: seq<Row>, y: seq<Row>, n: nat, hi: nat)
    requires AllKeep(c, prompt, x, y, n) && Span(n + 1, c.bl) <= hi
    ensures Untouched(x, y, hi)
  {
    forall b | 0 <= b < |x| ensures |x[b]| == |y[b]| && forall i :: hi <= i < |x[b]| ==> y[b][i] == x[b][i] {
      assert KeepsOutside(c, prompt, x[b], y[b], n);
    }
  }

  lemma UntouchedChain(x: seq<Row>, y: seq<Row>, z: seq<Row>, hi: nat)
    requires Untouched(x, y, hi) && Untouched(y, z, hi)
    ensures Untouched(x, z, hi)
  {}

  // ----- which rows notice -----

  lemma InitialClear(c: Config, prompts: seq<Row>, prompt: nat, len: nat, n: nat)
    requires Rect(prompts, prompt) && prompt <= len && Span(n, c.bl) <= prompt
    ensures Clear(c, Initial(c, prompts, prompt, len), prompt, Span(n, c.bl))
  {}

  /** The reference answer holds no mask. */
  lemma ReferenceUnmasked(d: Decoder, mode: Mode, eos: Token, prompts: seq<Row>, prompt: nat, b: nat)
    requires ModelOk(d.model) && Rect(prompts, prompt) && SelectsTopK(d.topk) && Clears(d) && b < |prompts|
    ensures d.cfg.mask !in Reference(d, mode, eos, prompts, prompt)[b]
  {
    hide FinalRows, SelectsTopK, Clears, TrimRow;
    BufferFits(d.cfg, prompt);
    AnswerUnmasked(d, mode, prompts, prompt);
    var gen := FinalRows(d, mode, None, prompts, prompt)[b][prompt..prompt + d.cfg.genLength];
    assert Generated(d, mode, None, prompts, prompt)[b] == gen;
    TrimUnmasked(gen, eos, d.cfg.mask);
  }

  lemma TrimUnmasked(gen: Row, eos: Token, mask: Token)
    requires mask !in gen
    ensures mask !in TrimRow(gen, eos)
  {
    var trim, cut := TrimRow(gen, eos), FirstEos(gen, eos);
    forall i | 0 <= i < |trim| ensures trim[i] != mask {
      assert trim[i] == gen[if i > cut then cut else i];
    }
  }

  /** A row that falls behind is cut off: its stopped answer still holds masks. */
  lemma FallsBehind(d: Decoder, mode: Mode, eos: Token, prompts: seq<Row>, prompt: nat, b: nat, m: nat)
    requires ModelOk(d.model) && Rect(prompts, prompt) && SelectsTopK(d.topk) && Clears(d) && b < |prompts|
    requires Behind(d.cfg, prompt, FinalRows(d, mode, None, prompts, prompt), b, eos, m)
    ensures d.cfg.mask in Generated(d, mode, Some(eos), prompts, prompt)[b]
  {
    hide RunBlocks, SelectsTopK, Clears, AnyEnded, EndedBy, Initial, Clear, AgreeTo, Untouched, Stops, Answer;
    BufferFits(d.cfg, prompt);
    var n, total := prompt / d.cfg.bl, TotalBlocks(d.cfg, prompt);
    var len, hi := Span(total, d.cfg.bl), Span(m + 1, d.cfg.bl);
    var x := Initial(d.cfg, prompts, prompt, len);
    InitialClear(d.cfg, prompts, prompt, len, n);
    StoppedBy(d, mode, eos, prompt, x, n, m, total);
    BlockInside(d.cfg, prompt, m);
    SpanMonotone(n + 1, m + 1, d.cfg.bl);
    var early, full := FinalRows(d, mode, Some(eos), prompts, prompt), FinalRows(d, mode, None, prompts, prompt);
    EndIsNoMask(d, mode, eos, prompts, prompt, hi);
    NoEndBefore(d, mode, eos, prompts, prompt, b, hi);
    CutOff(d.cfg, prompts, prompt, len, early, b, hi, eos);
  }

  /** Below a stop the two runs agree, so the stopped row has not ended either. */
  lemma NoEndBefore(d: Decoder, mode: Mode, eos: Token, prompts: seq<Row>, prompt: nat, b: nat, hi: nat)
    requires ModelOk(d.model) && Rect(prompts, prompt) && SelectsTopK(d.topk) && b < |prompts|
    requires !EndedBy(FinalRows(d, mode, None, prompts, prompt)[b], prompt, hi, eos) && eos != d.cfg.mask
    ensures !EndedBy(FinalRows(d, mode, Some(eos), prompts, prompt)[b], prompt, hi, eos)
  {
    hide RunBlocks, SelectsTopK, Stops;
    BufferFits(d.cfg, prompt);
    var n, total := prompt / d.cfg.bl, TotalBlocks(d.cfg, prompt);
    var x := Initial(d.cfg, prompts, prompt, Span(total, d.cfg.bl));
    var m := StopAgrees(d, mode, eos, prompt, x, n, total);
    var early, full := FinalRows(d, mode, Some(eos), prompts, prompt), FinalRows(d, mode, None, prompts, prompt);
    if early != full {
      forall i | prompt <= i < hi && i < |early[b]| ensures early[b][i] != eos {
        assert x[b][i] == d.cfg.mask;
        assert i < Span(m + 1, d.cfg.bl) ==> early[b][i] == full[b][i];
      }
    }
  }

  /** An end token in a cleared run is not the mask. */
  lemma EndIsNoMask(d: Decoder, mode: Mode, eos: Token, prompts: seq<Row>, prompt: nat, hi: nat)
    requires ModelOk(d.model) && Rect(prompts, prompt) && SelectsTopK(d.topk) && Clears(d)
    requires AnyEnded(FinalRows(d, mode, None, prompts, prompt), prompt, hi, eos)
    ensures eos != d.cfg.mask
  {
    hide FinalRows, SelectsTopK, Clears, AnyEnded, Clear;
    BufferFits(d.cfg, prompt);
    var lo, len := Span(prompt / d.cfg.bl, d.cfg.bl), Span(TotalBlocks(d.cfg, prompt), d.cfg.bl);
    FullClear(d, mode, prompts, prompt, lo, len);
    ClearEnd(d.cfg, FinalRows(d, mode, None, prompts, prompt), lo, len, prompt, hi, eos);
  }

  lemma FullClear(d: Decoder, mode: Mode, prompts: seq<Row>, prompt: nat, lo: nat, len: nat)
    requires lo == Span(prompt / d.cfg.bl, d.cfg.bl) && len == Span(TotalBlocks(d.cfg, prompt), d.cfg.bl)
    requires ModelOk(d.model) && Rect(prompts, prompt) && SelectsTopK(d.topk) && Clears(d)
    ensures Clear(d.cfg, FinalRows(d, mode, None, prompts, prompt), lo, len)
  {
    hide RunBlocks, SelectsTopK, Clears, Initial, Clear;
    BufferFits(d.cfg, prompt);
    var total := TotalBlocks(d.cfg, prompt);
    RunClears(d, mode, prompt, Initial(d.cfg, prompts, prompt, Span(total, d.cfg.bl)), prompt / d.cfg.bl, total);
  }

  lemma ClearEnd(c: Config, full: seq<Row>, lo: nat, len: nat, prompt: nat, hi: nat, eos: Token)
    requires Clear(c, full, lo, len) && Rect(full, len) && lo <= prompt && AnyEnded(full, prompt, hi, eos)
    ensures eos != c.mask
  {
    var b :| 0 <= b < |full| && EndedBy(full[b], prompt, hi, eos);
    var i := EndOf(full[b], prompt, hi, eos);
    assert full[b][i] != c.mask;
  }

  lemma CutOff(c: Config, prompts: seq<Row>, prompt: nat, len: nat, early: seq<Row>, b: nat, hi: nat, eos: Token)
    requires Rect(prompts, prompt) && b < |prompts| && prompt < hi < prompt + c.genLength <= len && Rect(early, len)
    requires Untouched(Initial(c, prompts, prompt, len), early, hi) && !EndedBy(early[b], prompt, hi, eos)
    requires eos != c.mask
    ensures c.mask in Answer(c, Some(eos), prompt, early[b])
  {
    hide FirstEos;
    var x := Initial(c, prompts, prompt, len);
    var gen := early[b][prompt..prompt + c.genLength];
    var cut, at := FirstEos(gen, eos), hi - prompt;
    assert |x[b]| == |early[b]| == len;
    forall i | 0 <= i < |gen| ensures gen[i] != eos {
      assert gen[i] == early[b][prompt + i];
      if prompt + i >= hi { assert early[b][prompt + i] == x[b][prompt + i] == c.mask; }
    }
    assert gen[at] == early[b][hi] == x[b][hi] == c.mask;
    assert TrimRow(gen, eos)[at] == gen[at];
  }

  /** A row that keeps pace gets the answer of the full run. */
  lemma KeepsUp(d: Decoder, mode: Mode, eos: Token, prompts: seq<Row>, prompt: nat, b: nat)
    requires ModelOk(d.model) && Rect(prompts, prompt) && SelectsTopK(d.topk) && b < |prompts|
    requires KeepsPace(d.cfg, prompt, FinalRows(d, mode, None, prompts, prompt), b, eos)
    ensures Generated(d, mode, Some(eos), prompts, prompt)[b] == Reference(d, mode, eos, prompts, prompt)[b]
  {
    hide RunBlocks, SelectsTopK, FirstEos, TrimRow;
    BufferFits(d.cfg, prompt);
    var n, total := prompt / d.cfg.bl, TotalBlocks(d.cfg, prompt);
    var x := Initial(d.cfg, prompts, prompt, Span(total, d.cfg.bl));
    var m := StopAgrees(d, mode, eos, prompt, x, n, total);
    var early, full := FinalRows(d, mode, Some(eos), prompts, prompt), FinalRows(d, mode, None, prompts, prompt);
    if early != full {
      var hi := Span(m + 1, d.cfg.bl);
      BlockInside(d.cfg, prompt, m);
      EndedAgree(d.cfg, prompt, x, early, full, hi, eos);
      assert !Behind(d.cfg, prompt, full, b, eos, m);
      var i := EndOf(full[b], prompt, hi, eos);
      assert early[b][i] == full[b][i];
      EosInAnswer(d.cfg, prompt, early[b], i, eos);
      EarlyStopPerRow(d, mode, eos, prompts, prompt, b);
    }
  }

  lemma EndOf(row: Row, prompt: nat, hi: nat, eos: Token) returns (i: nat)
    requires EndedBy(row, prompt, hi, eos)
    ensures prompt <= i < hi && i < |row| && row[i] == eos
  {
    i :| prompt <= i < hi && i < |row| && row[i] == eos;
  }

  lemma EndedAgree(c: Config, prompt: nat, x: seq<Row>, early: seq<Row>, full: seq<Row>, hi: nat, eos: Token)
    requires Stops(c, prompt, early, hi, eos) && AgreeTo(hi, x, early, full)
    ensures AnyEnded(full, prompt, hi, eos)
  {
    var b, i :| 0 <= b < |early| && prompt <= i < hi && i < |early[b]| && early[b][i] == eos;
    assert full[b][i] == eos;
    assert EndedBy(full[b], prompt, hi, eos);
  }

  lemma EosInAnswer(c: Config, prompt: nat, row: Row, i: nat, eos: Token)
    requires prompt + c.genLength <= |row| && prompt <= i < prompt + c.genLength && row[i] == eos
    ensures eos in Answer(c, Some(eos), prompt, row)
  {
    var gen := row[prompt..prompt + c.genLength];
    assert gen[i - prompt] == eos;
    assert FirstEos(gen, eos) <= i - prompt;
    assert TrimRow(gen, eos)[FirstEos(gen, eos)] == eos;
  }

  /**
   In a batch, a row's stopped answer is its reference answer, and is free of masks, if and only if the row keeps
   pace: at every block end inside the answer at which some row has ended, so has this one.
   */
  lemma EarlyStopExact(d: Decoder, mode: Mode, eos: Token, prompts: seq<Row>, prompt: nat, b: nat)
    requires ModelOk(d.model) && Rect(prompts, prompt) && SelectsTopK(d.topk) && Clears(d) && b < |prompts|
    ensures var pace := KeepsPace(d.cfg, prompt, FinalRows(d, mode, None, prompts, prompt), b, eos);
            && (pace <==>
                Generated(d, mode, Some(eos), prompts, prompt)[b] == Reference(d, mode, eos, prompts, prompt)[b])
            && (pace <==> d.cfg.mask !in Generated(d, mode, Some(eos), prompts, prompt)[b])
  {
    hide Generated, Reference, FinalRows, SelectsTopK, Clears, Behind;
    var full := FinalRows(d, mode, None, prompts, prompt);
    ReferenceUnmasked(d, mode, eos, prompts, prompt, b);
    if KeepsPace(d.cfg, prompt, full, b, eos) {
      KeepsUp(d, mode, eos, prompts, prompt, b);
    } else {
      var m: nat :| Behind(d.cfg, prompt, full, b, eos, m);
      FallsBehind(d, mode, eos, prompts, prompt, b, m);
    }
  }

  /** The answer of a one-row batch holds no mask, stopped early or not. */
  lemma OneRowUnmasked(d: Decoder, mode: Mode, eos: Token, prompts: seq<Row>, prompt: nat)
    requires ModelOk(d.model) && Rect(prompts, prompt) && SelectsTopK(d.topk) && Clears(d) && |prompts| == 1
    ensures d.cfg.mask !in Generated(d, mode, Some(eos), prompts, prompt)[0]
  {
    hide Generated, Reference, SelectsTopK, Clears;
    EarlyStopTransparent(d, mode, eos, prompts, prompt);
    ReferenceUnmasked(d, mode, eos, prompts, prompt, 0);
  }

  // ----- two rows of which one is cut off -----

  const PAIR := Config(1, 2, 2, 1, 0.0, 0.0, 0, 9, 1, 2.0)

  /** No layer, one logit: a row that holds token 0 is penalised into the end token 5, any other samples 3. */
  function PairDecoder(topk: (seq<Score>, nat) -> set<nat>): Decoder {
    Decoder(Model(_ => [1.0], [], v => v), PAIR, v => (if v == [1.0] then 3 else 5, 1.0), topk)
  }

  lemma PairSampled(topk: (seq<Score>, nat) -> set<nat>, mode: Mode, row: Row, n: nat)
    requires Span(n + 1, 1) <= |row|
    ensures Sampled(PairDecoder(topk), mode, row, n, if 0 in row[..Span(n + 1, 1)] then 5 else 3)
  {
    var d, window := PairDecoder(topk), row[..Span(n + 1, 1)];
    var logits := LastLogits(d.model, mode, window, 1, n);
    assert logits[0] == [1.0];
    var v := Penalize(PAIR, logits[0], window);
    assert |v| == 1;
    if 0 in window {
      assert v[0] == PenalizeScore(1.0, 2.0) == 0.5;
    } else {
      assert v == [1.0];
    }
  }

  /** Row 0 ends at once and stops the batch; row 1 returns a mask token where the full run has an answer. */
  lemma PairDiffers(topk: (seq<Score>, nat) -> set<nat>, mode: Mode)
    requires SelectsTopK(topk)
    ensures var d := PairDecoder(topk);
            && Generated(d, mode, Some(5), [[0], [1]], 1)[1] != Reference(d, mode, 5, [[0], [1]], 1)[1]
            && d.cfg.mask in Generated(d, mode, Some(5), [[0], [1]], 1)[1]
  {
    hide Generated, Reference, SelectsTopK, Sampled, FinalRows;
    var d, prompts: seq<Row>, toks := PairDecoder(topk), [[0], [1]], [5, 3];
    PairSizes();
    var x := Initial(PAIR, prompts, 1, 3);
    assert x[0] == [0, 9, 9] && x[1] == [1, 9, 9];
    forall b | 0 <= b < 2
      ensures Sampled(d, mode, x[b], 1, toks[b]) && Sampled(d, mode, FillRow(PAIR, x[b], 1, toks[b]), 1, toks[b])
    {
      PairSampled(topk, mode, x[b], 1);
      PairSampled(topk, mode, FillRow(PAIR, x[b], 1, toks[b]), 1);
      PairWindow(x[b], FillRow(PAIR, x[b], 1, toks[b]));
    }
    assert AllFillable(d, mode, 1, x, 1, 3, toks);
    FirstGenerated(d, mode, None, prompts, 1, toks, 0);
    FirstGenerated(d, mode, None, prompts, 1, toks, 1);
    var full := FinalRows(d, mode, None, prompts, 1);
    assert full[0][1] == 5 && full[1][1] == 3;
    assert EndedBy(full[0], 1, 2, 5);
    assert AnyEnded(full, 1, 2, 5) && !EndedBy(full[1], 1, 2, 5);
    assert Behind(PAIR, 1, full, 1, 5, 1);
    EarlyStopExact(d, mode, 5, prompts, 1, 1);
  }

  lemma PairWindow(row: Row, filled: Row)
    requires |row| == |filled| == 3 && row[0] == filled[0] && row[1] == 9 && (filled[1] == 5 || filled[1] == 3)
    requires Span(2, 1) == 2
    ensures 0 in row[..Span(2, 1)] <==> row[0] == 0
    ensures 0 in filled[..Span(2, 1)] <==> row[0] == 0
  {
    assert row[..2] == [row[0], 9] && filled[..2] == [filled[0], filled[1]];
  }

  lemma PairSizes()
    ensures Span(1, 1) == 1 && Span(2, 1) == 2 && Span(3, 1) == 3 && TotalBlocks(PAIR, 1) == 3
    ensures EffectiveSteps(PAIR) == 2
  {
    assert Span(0, 1) == 0 && Span(1, 1) == 1 && Span(2, 1) == 2 && Span(3, 1) == 3;
  }
}
