/**
 `generate` and `_generate_with_kv_cache`: the token buffer is a (batch x length) array written in place,
 the prefix cache an object that commits update.
 */
module Generate {
  import opened Wrappers
  import opened Vectors
  import opened BlockMath
  import opened Layers
  import opened PrefixCache
  import opened Decode

  /** The buffer holds these rows. */
  ghost predicate Holds(x: array2<Token>, rows: seq<Row>, len: nat)
    reads x
  {
    && x.Length0 == |rows| && x.Length1 == len && Rect(rows, len)
    && forall b, i :: 0 <= b < |rows| && 0 <= i < len ==> x[b, i] == rows[b][i]
  }

  function ModeOf(useKvCache: bool): Mode {
    if useKvCache then Cached else Recompute
  }

  method ReadRow(x: array2<Token>, b: nat, lo: nat, hi: nat, ghost rows: seq<Row>, ghost len: nat) returns (r: Row)
    requires Holds(x, rows, len) && b < |rows| && lo <= hi <= len
    ensures r == rows[b][lo..hi]
  {
    r := [];
    for i := lo to hi
      invariant r == rows[b][lo..i]
    {
      r := r + [x[b, i]];
    }
  }

  method ReadRows(x: array2<Token>, lo: nat, hi: nat, ghost rows: seq<Row>, ghost len: nat) returns (r: seq<Row>)
    requires Holds(x, rows, len) && lo <= hi <= len
    ensures |r| == |rows| && forall b :: 0 <= b < |rows| ==> r[b] == rows[b][lo..hi]
  {
    r := [];
    for b := 0 to x.Length0
      invariant |r| == b && forall c :: 0 <= c < b ==> r[c] == rows[c][lo..hi]
    {
      var row := ReadRow(x, b, lo, hi, rows, len);
      r := r + [row];
    }
  }

  /** A buffer full of masks, then the prompts over its start. */
  method InitBuffer(c: Config, prompts: seq<Row>, prompt: nat, len: nat) returns (x: array2<Token>)
    requires Rect(prompts, prompt) && prompt <= len
    ensures fresh(x) && Holds(x, Initial(c, prompts, prompt, len), len)
  {
    x := new Token[|prompts|, len]((_, _) => c.mask);
    for b := 0 to |prompts|
      invariant forall a, i :: 0 <= a < |prompts| && 0 <= i < len ==>
        x[a, i] == if a < b && i < prompt then prompts[a][i] else c.mask
    {
      for i := 0 to prompt
        invariant forall a, j :: 0 <= a < |prompts| && 0 <= j < len ==>
          x[a, j] == if (a < b && j < prompt) || (a == b && j < i) then prompts[a][j] else c.mask
      {
        x[b, i] := prompts[b][i];
      }
    }
  }

  /** The chosen positions of row b take their sampled tokens. */
  method WriteTransfers(x: array2<Token>, b: nat, lo: nat, moved: set<nat>, smp: seq<(Token, real)>)
    requires b < x.Length0 && lo + |smp| <= x.Length1
    modifies x
    ensures forall a, i :: 0 <= a < x.Length0 && 0 <= i < x.Length1 ==>
      x[a, i] == if a == b && lo <= i < lo + |smp| && i - lo in moved then smp[i - lo].0 else old(x[a, i])
  {
    for j := 0 to |smp|
      invariant forall a, i :: 0 <= a < x.Length0 && 0 <= i < x.Length1 ==>
        x[a, i] == if a == b && lo <= i < lo + j && i - lo in moved then smp[i - lo].0 else old(x[a, i])
    {
      if j in moved {
        x[b, lo + j] := smp[j].0;
      }
    }
  }

  // ----- what the cache holds -----

  /** Every row of the cache is the row's first n blocks, committed. */
  ghost predicate CacheHolds(m: Model, t: Table, rows: seq<Row>, bl: pos, n: nat, len: nat)
    requires ModelOk(m) && Rect(rows, len) && Span(n, bl) <= len
  {
    TableFits(m, t, |rows|) && forall b :: 0 <= b < |rows| ==> RowOf(m, t, |rows|, b) == Committed(m, rows[b], bl, n)
  }

  lemma {:induction false} CommittedPrefix(m: Model, a: Row, b: Row, bl: pos, n: nat)
    requires ModelOk(m) && Span(n, bl) <= |a| && Span(n, bl) <= |b| && a[..Span(n, bl)] == b[..Span(n, bl)]
    ensures Committed(m, a, bl, n) == Committed(m, b, bl, n)
  {
    hide CommitAll, EmptySlots, Embed;
    if n > 0 {
      var lo, hi := Span(n - 1, bl), Span(n, bl);
      assert a[..hi][..lo] == a[..lo] && b[..hi][..lo] == b[..lo];
      assert a[lo..hi] == a[..hi][lo..] && b[lo..hi] == b[..hi][lo..];
      CommittedPrefix(m, a, b, bl, n - 1);
    }
  }

  lemma CacheHoldsPrefix(m: Model, t: Table, rows: seq<Row>, rows': seq<Row>, bl: pos, n: nat, len: nat)
    requires ModelOk(m) && Rect(rows, len) && Rect(rows', len) && Span(n, bl) <= len && |rows| == |rows'|
    requires CacheHolds(m, t, rows, bl, n, len)
    requires forall b :: 0 <= b < |rows| ==> rows'[b][..Span(n, bl)] == rows[b][..Span(n, bl)]
    ensures CacheHolds(m, t, rows', bl, n, len)
  {
    hide Committed, RowOf;
    forall b | 0 <= b < |rows| ensures RowOf(m, t, |rows|, b) == Committed(m, rows'[b], bl, n) {
      CommittedPrefix(m, rows[b], rows'[b], bl, n);
    }
  }

  /** Committing block n of every row. */
  lemma CacheHoldsStep(m: Model, t: Table, rows: seq<Row>, blocks: seq<Row>, bl: pos, n: nat, len: nat)
    requires ModelOk(m) && Rect(rows, len) && Span(n + 1, bl) <= len && CacheHolds(m, t, rows, bl, n, len)
    requires |blocks| == |rows| && forall b :: 0 <= b < |rows| ==> blocks[b] == rows[b][Span(n, bl)..Span(n + 1, bl)]
    ensures CacheHolds(m, CommitTable(m, t, blocks, Span(n, bl), |m.layers|), rows, bl, n + 1, len)
  {
    hide CommitAll, RowOf, Embed, CommitTable;
    var t' := CommitTable(m, t, blocks, Span(n, bl), |m.layers|);
    forall b | 0 <= b < |rows| ensures RowOf(m, t', |rows|, b) == Committed(m, rows[b], bl, n + 1) {
      CommitTableRow(m, t, blocks, Span(n, bl), b);
    }
  }

  lemma EmptyHolds(m: Model, rows: seq<Row>, bl: pos, len: nat)
    requires ModelOk(m) && Rect(rows, len)
    ensures CacheHolds(m, EmptyTable(m, |rows|), rows, bl, 0, len)
  {
    forall b | 0 <= b < |rows| ensures RowOf(m, EmptyTable(m, |rows|), |rows|, b) == Committed(m, rows[b], bl, 0) {
      hide EmptySlot;
      assert RowOf(m, EmptyTable(m, |rows|), |rows|, b) == EmptySlots(m);
    }
  }

  /** A cached forward pass of the active block computes what `LastLogits` says of the window. */
  lemma ReadLogits(m: Model, t: Table, rows: seq<Row>, blocks: seq<Row>, bl: pos, n: nat, len: nat, b: nat)
    requires ModelOk(m) && Rect(rows, len) && Span(n + 1, bl) <= len && CacheHolds(m, t, rows, bl, n, len) && b < |rows|
    requires |blocks| == |rows| && forall b :: 0 <= b < |rows| ==> blocks[b] == rows[b][Span(n, bl)..Span(n + 1, bl)]
    ensures LogitRows(m, HiddenRows(m, t, blocks, Span(n, bl), |m.layers|)[b])
         == LastLogits(m, Cached, rows[b][..Span(n + 1, bl)], bl, n)
  {
    hide Committed, RowOf, Embed, CachedHidden, LogitRows;
    var window := rows[b][..Span(n + 1, bl)];
    assert window[..Span(n, bl)] == rows[b][..Span(n, bl)];
    CommittedPrefix(m, rows[b], window, bl, n);
    assert window[Span(n, bl)..] == blocks[b];
  }

  // ----- one block -----

  ghost predicate CacheOk(m: Model, cache: BlockDiffusionCache?, rows: seq<Row>, bl: pos, n: nat, len: nat)
    requires ModelOk(m) && Rect(rows, len) && Span(n, bl) <= len
    reads cache
  {
    cache != null ==> cache.Valid(m, |rows|) && CacheHolds(m, cache.Contents(m, |rows|), rows, bl, n, len)
  }

  ghost function Footprint(cache: BlockDiffusionCache?): set<object> {
    if cache == null then {} else {cache}
  }

  /** Samples for every row of block n, by full recomputation or from the cache. */
  method SampleBlock(d: Decoder, x: array2<Token>, n: nat, cache: BlockDiffusionCache?, ghost rows: seq<Row>,
                     ghost len: nat)
      returns (smps: seq<seq<(Token, real)>>)
    requires ModelOk(d.model) && Holds(x, rows, len) && Span(n + 1, d.cfg.bl) <= len
    requires CacheOk(d.model, cache, rows, d.cfg.bl, n, len)
    modifies Footprint(cache)
    ensures CacheOk(d.model, cache, rows, d.cfg.bl, n, len)
    ensures |smps| == |rows|
    ensures forall b :: 0 <= b < |rows| ==> smps[b] == Samples(d, ModeOf(cache != null), rows[b], n)
  {
    hide LastLogits, Penalize, CacheHolds, HiddenRows, LogitRows;
    var bl, lo := d.cfg.bl, Span(n, d.cfg.bl);
    var windows := ReadRows(x, 0, lo + bl, rows, len);
    var logits: seq<seq<Vec>>;
    if cache == null {
      logits := seq(|windows|, b requires 0 <= b < |windows| => LastLogits(d.model, Recompute, windows[b], bl, n));
    } else {
      var blocks := ReadRows(x, lo, lo + bl, rows, len);
      ghost var t := cache.Contents(d.model, |rows|);
      logits := CachedForward(cache, d.model, blocks, lo, Read);
      forall b | 0 <= b < |rows| ensures logits[b] == LastLogits(d.model, Cached, windows[b], bl, n) {
        ReadLogits(d.model, t, rows, blocks, bl, n, len, b);
        assert windows[b] == rows[b][..lo + bl];
      }
    }
    smps := seq(|windows|, b requires 0 <= b < |windows| && |logits| == |windows| && |logits[b]| == bl =>
      seq(bl, i requires 0 <= i < bl => d.sample(Penalize(d.cfg, logits[b][i], windows[b]))));
    forall b | 0 <= b < |rows| ensures smps[b] == Samples(d, ModeOf(cache != null), rows[b], n) {
      assert windows[b] == rows[b][..lo + bl];
    }
  }

  /** Transfers of one denoising step, row after row. */
  method TransferBlock(d: Decoder, x: array2<Token>, n: nat, prompt: nat, blocks: seq<Row>,
                       smps: seq<seq<(Token, real)>>, mode: Mode, ghost rows: seq<Row>, ghost len: nat)
    requires ModelOk(d.model) && Holds(x, rows, len) && Span(n + 1, d.cfg.bl) <= len && |blocks| == |smps| == |rows|
    requires forall b :: 0 <= b < |rows| ==> blocks[b] == Block(d.cfg, rows[b], n)
    requires forall b :: 0 <= b < |rows| ==> smps[b] == Samples(d, mode, rows[b], n)
    modifies x
    ensures Holds(x, Step(d, mode, prompt, rows, n, len), len)
  {
    hide Samples, MaskTransfer, EditTransfer;
    var bl, lo := d.cfg.bl, Span(n, d.cfg.bl);
    ghost var next := Step(d, mode, prompt, rows, n, len);
    for b := 0 to |blocks|
      invariant forall a, i :: 0 <= a < |rows| && 0 <= i < len ==> x[a, i] == if a < b then next[a][i] else rows[a][i]
    {
      var moved := MaskTransfer(d, blocks[b], smps[b]) +
        EditTransfer(d.cfg, blocks[b], smps[b], PromptIn(d.cfg, prompt, lo));
      WriteTransfers(x, b, lo, moved, smps[b]);
      StepRowAt(d, mode, prompt, rows[b], n, moved);
    }
  }

  lemma StepRowAt(d: Decoder, mode: Mode, prompt: nat, row: Row, n: nat, moved: set<nat>)
    requires ModelOk(d.model) && Span(n + 1, d.cfg.bl) <= |row|
    requires var smp, block := Samples(d, mode, row, n), Block(d.cfg, row, n);
             moved == MaskTransfer(d, block, smp) +
               EditTransfer(d.cfg, block, smp, PromptIn(d.cfg, prompt, Span(n, d.cfg.bl)))
    ensures forall i :: 0 <= i < |row| ==>
      StepRow(d, mode, prompt, row, n)[i]
        == if Span(n, d.cfg.bl) <= i < Span(n + 1, d.cfg.bl) && i - Span(n, d.cfg.bl) in moved
           then Samples(d, mode, row, n)[i - Span(n, d.cfg.bl)].0 else row[i]
  {
    hide Samples, MaskTransfer, EditTransfer;
  }

  predicate MaskIn(c: Config, blocks: seq<Row>) {
    exists b :: 0 <= b < |blocks| && c.mask in blocks[b]
  }

  predicate EditIn(c: Config, blocks: seq<Row>, smps: seq<seq<(Token, real)>>, promptIn: nat)
    requires |blocks| == |smps| && forall b :: 0 <= b < |blocks| ==> |blocks[b]| == |smps[b]|
  {
    exists b :: 0 <= b < |blocks| && EditTransfer(c, blocks[b], smps[b], promptIn) != {}
  }

  /** The denoising loop of block n. */
  method DenoiseBlock(d: Decoder, x: array2<Token>, n: nat, prompt: nat, cache: BlockDiffusionCache?,
                      ghost start: seq<Row>, ghost len: nat)
    requires ModelOk(d.model) && Holds(x, start, len) && Span(n + 1, d.cfg.bl) <= len
    requires CacheOk(d.model, cache, start, d.cfg.bl, n, len)
    modifies x, Footprint(cache)
    ensures var rows := Denoise(d, ModeOf(cache != null), prompt, start, n, len, 0, 0);
            Holds(x, rows, len) && CacheOk(d.model, cache, rows, d.cfg.bl, n, len)
  {
    hide Samples, EditTransfer, CacheOk, Denoise, Block, Step;
    var bl, lo, steps := d.cfg.bl, Span(n, d.cfg.bl), EffectiveSteps(d.cfg);
    var mode := ModeOf(cache != null);
    var postSteps, stepCount := 0, 0;
    ghost var rows := start;
    while stepCount < steps
      invariant Holds(x, rows, len) && CacheOk(d.model, cache, rows, bl, n, len)
      invariant Denoise(d, mode, prompt, rows, n, len, stepCount, postSteps) ==
        Denoise(d, mode, prompt, start, n, len, 0, 0)
      decreases steps - stepCount
    {
      DenoiseUnfold(d, mode, prompt, rows, n, len, stepCount, postSteps);
      stepCount := stepCount + 1;
      var oldBlock := ReadRows(x, lo, lo + bl, rows, len);
      var active := MaskIn(d.cfg, oldBlock);
      if !active {
        postSteps := postSteps + 1;
      }
      BlocksRead(d, oldBlock, rows, n, len);
      if postSteps > d.cfg.maxPostSteps {
        return;
      }
      var smps := SampleBlock(d, x, n, cache, rows, len);
      TransferBlock(d, x, n, prompt, oldBlock, smps, mode, rows, len);
      var edited := EditIn(d.cfg, oldBlock, smps, PromptIn(d.cfg, prompt, lo));
      EditsRead(d, mode, prompt, oldBlock, smps, rows, n, len);
      CacheOkStep(d, cache, mode, prompt, rows, n, len);
      rows := Step(d, mode, prompt, rows, n, len);
      if !active && !edited {
        return;
      }
    }
    DenoiseUnfold(d, mode, prompt, rows, n, len, stepCount, postSteps);
  }

  lemma DenoiseUnfold(d: Decoder, mode: Mode, prompt: nat, x: seq<Row>, n: nat, len: nat, count: nat, post: int)
    requires ModelOk(d.model) && Rect(x, len) && Span(n + 1, d.cfg.bl) <= len
    ensures var post' := if AnyMasked(d.cfg, x, n, len) then post else post + 1;
            Denoise(d, mode, prompt, x, n, len, count, post) ==
            if count >= EffectiveSteps(d.cfg) || post' > d.cfg.maxPostSteps then x
            else if !AnyMasked(d.cfg, x, n, len) && !AnyEdited(d, mode, prompt, x, n, len)
            then Step(d, mode, prompt, x, n, len)
            else Denoise(d, mode, prompt, Step(d, mode, prompt, x, n, len), n, len, count + 1, post')
  {
    hide AnyMasked, AnyEdited, Step;
  }

  lemma BlocksRead(d: Decoder, blocks: seq<Row>, rows: seq<Row>, n: nat, len: nat)
    requires Rect(rows, len) && Span(n + 1, d.cfg.bl) <= len && |blocks| == |rows|
    requires forall b :: 0 <= b < |rows| ==> blocks[b] == rows[b][Span(n, d.cfg.bl)..Span(n, d.cfg.bl) + d.cfg.bl]
    ensures forall b :: 0 <= b < |rows| ==> blocks[b] == Block(d.cfg, rows[b], n)
    ensures MaskIn(d.cfg, blocks) <==> AnyMasked(d.cfg, rows, n, len)
  {
    assert forall b :: 0 <= b < |rows| ==> (d.cfg.mask in blocks[b] <==> RowMasked(d.cfg, rows[b], n));
  }

  lemma EditsRead(d: Decoder, mode: Mode, prompt: nat, blocks: seq<Row>, smps: seq<seq<(Token, real)>>,
                  rows: seq<Row>, n: nat, len: nat)
    requires ModelOk(d.model) && Rect(rows, len) && Span(n + 1, d.cfg.bl) <= len && |blocks| == |smps| == |rows|
    requires forall b :: 0 <= b < |rows| ==> blocks[b] == Block(d.cfg, rows[b], n)
    requires forall b :: 0 <= b < |rows| ==> smps[b] == Samples(d, mode, rows[b], n)
    requires forall b :: 0 <= b < |rows| ==> |blocks[b]| == |smps[b]|
    ensures EditIn(d.cfg, blocks, smps, PromptIn(d.cfg, prompt, Span(n, d.cfg.bl))) <==>
      AnyEdited(d, mode, prompt, rows, n, len)
  {
    hide Samples, EditTransfer, Block;
    var p := PromptIn(d.cfg, prompt, Span(n, d.cfg.bl));
    assert forall b :: 0 <= b < |rows| ==>
      (EditTransfer(d.cfg, blocks[b], smps[b], p) != {} <==> RowEdited(d, mode, prompt, rows[b], n));
  }

  lemma CacheOkStep(d: Decoder, cache: BlockDiffusionCache?, mode: Mode, prompt: nat, rows: seq<Row>, n: nat, len: nat)
    requires ModelOk(d.model) && Rect(rows, len) && Span(n + 1, d.cfg.bl) <= len
    requires CacheOk(d.model, cache, rows, d.cfg.bl, n, len)
    ensures CacheOk(d.model, cache, Step(d, mode, prompt, rows, n, len), d.cfg.bl, n, len)
  {
    hide Samples, NewBlock, CacheHolds;
    var next := Step(d, mode, prompt, rows, n, len);
    if cache != null {
      CacheHoldsPrefix(d.model, cache.Contents(d.model, |rows|), rows, next, d.cfg.bl, n, len);
    }
  }

  // ----- the whole generation -----

  predicate StopIn(c: Config, eos: Token, parts: seq<Row>) {
    && (forall b :: 0 <= b < |parts| ==> c.mask !in parts[b])
    && (exists b :: 0 <= b < |parts| && eos in parts[b])
  }

  lemma StopRead(c: Config, prompt: nat, rows: seq<Row>, parts: seq<Row>, hi: nat, len: nat, eos: Token)
    requires Rect(rows, len) && prompt <= hi <= len && |parts| == |rows|
    requires forall b :: 0 <= b < |rows| ==> parts[b] == rows[b][prompt..hi]
    ensures StopIn(c, eos, parts) <==> Stops(c, prompt, rows, hi, eos)
  {
    assert forall b, i :: 0 <= b < |rows| && prompt <= i < hi ==> parts[b][i - prompt] == rows[b][i];
    if StopIn(c, eos, parts) {
      forall b, i | 0 <= b < |rows| && prompt <= i < hi ensures rows[b][i] != c.mask {
        assert parts[b][i - prompt] != c.mask;
      }
      var b :| 0 <= b < |parts| && eos in parts[b];
      var j :| 0 <= j < |parts[b]| && parts[b][j] == eos;
      assert rows[b][prompt + j] == eos;
    }
    if Stops(c, prompt, rows, hi, eos) {
      var b, i :| 0 <= b < |rows| && prompt <= i < hi && i < |rows[b]| && rows[b][i] == eos;
      assert parts[b][i - prompt] == eos;
    }
  }

  /** generate, with use_kv_cache choosing how the forward passes are run. */
  method Generate(d: Decoder, useKvCache: bool, eosStop: bool, eos: Option<Token>, prompts: seq<Row>, prompt: nat)
      returns (out: seq<Row>)
    requires ModelOk(d.model) && Rect(prompts, prompt)
    ensures out == Generated(d, ModeOf(useKvCache), if eosStop then eos else None, prompts, prompt)
  {
    hide CacheOk, Denoise, RunBlocks, StopIn, Stops, Initial, Answer, CacheHolds, CommitTable;
    var c, m, early := d.cfg, d.model, if eosStop then eos else None;
    var total, prefill := TotalBlocks(c, prompt), prompt / c.bl;
    BufferFits(c, prompt);
    var len := Span(total, c.bl);
    var x := InitBuffer(c, prompts, prompt, len);
    ghost var rows := Initial(c, prompts, prompt, len);

    var cache: BlockDiffusionCache? := null;
    if useKvCache {
      cache := Prefill(d, x, prefill, rows, len);
    } else {
      NoCache(m, rows, c.bl, prefill, len);
    }

    ghost var goal := FinalRows(d, ModeOf(useKvCache), early, prompts, prompt);
    var n, stopped := prefill, false;
    while n < total && !stopped
      invariant n <= total && (cache != null <==> useKvCache) && Holds(x, rows, len) && |rows| == |prompts|
      invariant fresh(x) && (cache != null ==> fresh(cache))
      invariant Span(n, c.bl) <= len && CacheOk(m, cache, rows, c.bl, n, len)
      invariant prefill <= n
      invariant goal == if stopped then rows else RunBlocks(d, ModeOf(useKvCache), early, prompt, rows, n, total)
      decreases total - n
    {
      SpanMonotone(n + 1, total, c.bl);
      RunUnfold(d, ModeOf(useKvCache), early, prompt, rows, n, total);
      DenoiseBlock(d, x, n, prompt, cache, rows, len);
      rows := Denoise(d, ModeOf(useKvCache), prompt, rows, n, len, 0, 0);
      if cache != null {
        CommitBlockToCache(d, x, n, cache, rows, len);
      } else {
        NoCache(m, rows, c.bl, n + 1, len);
      }
      if early.Some? {
        SpanMonotone(prefill + 1, n + 1, c.bl);
        var part := ReadRows(x, prompt, Span(n + 1, c.bl), rows, len);
        StopRead(c, prompt, rows, part, Span(n + 1, c.bl), len, early.value);
        stopped := StopIn(c, early.value, part);
      }
      n := n + 1;
    }
    if !stopped { RunUnfold(d, ModeOf(useKvCache), early, prompt, rows, n, total); }

    out := ReadAnswers(c, x, early, prompt, rows, len);
  }

  /** The generated part of every row, trimmed after its end token when early stop is on. */
  method ReadAnswers(c: Config, x: array2<Token>, early: Option<Token>, prompt: nat, ghost rows: seq<Row>,
                     ghost len: nat)
      returns (out: seq<Row>)
    requires Holds(x, rows, len) && prompt + c.genLength <= len
    ensures out == seq(|rows|, b requires 0 <= b < |rows| => Answer(c, early, prompt, rows[b]))
  {
    hide TrimRow;
    var answers := ReadRows(x, prompt, prompt + c.genLength, rows, len);
    out := seq(|answers|, b requires 0 <= b < |answers| =>
      if early.None? then answers[b] else TrimRow(answers[b], early.value));
  }

  lemma NoCache(m: Model, rows: seq<Row>, bl: pos, n: nat, len: nat)
    requires ModelOk(m) && Rect(rows, len) && Span(n, bl) <= len
    ensures CacheOk(m, null, rows, bl, n, len)
  {}

  lemma RunUnfold(d: Decoder, mode: Mode, early: Option<Token>, prompt: nat, x: seq<Row>, n: nat, total: nat)
    requires ModelOk(d.model) && Rect(x, Span(total, d.cfg.bl)) && n <= total
    ensures n == total ==> RunBlocks(d, mode, early, prompt, x, n, total) == x
    ensures n < total ==> Span(n + 1, d.cfg.bl) <= Span(total, d.cfg.bl)
    ensures n < total ==>
      var y := Denoise(d, mode, prompt, x, n, Span(total, d.cfg.bl), 0, 0);
      RunBlocks(d, mode, early, prompt, x, n, total) ==
      if early.Some? && Stops(d.cfg, prompt, y, Span(n + 1, d.cfg.bl), early.value) then y
      else RunBlocks(d, mode, early, prompt, y, n + 1, total)
  {
    hide Denoise, Stops;
    if n < total { SpanMonotone(n + 1, total, d.cfg.bl); }
  }

  /** _commit_block_to_cache for block n. */
  method CommitBlockToCache(d: Decoder, x: array2<Token>, n: nat, cache: BlockDiffusionCache, ghost rows: seq<Row>,
                            ghost len: nat)
    requires ModelOk(d.model) && Holds(x, rows, len) && Span(n + 1, d.cfg.bl) <= len
    requires CacheOk(d.model, cache, rows, d.cfg.bl, n, len)
    modifies cache
    ensures CacheOk(d.model, cache, rows, d.cfg.bl, n + 1, len)
  {
    hide CacheHolds, CommitTable, HiddenRows;
    var lo := Span(n, d.cfg.bl);
    var blocks := ReadRows(x, lo, lo + d.cfg.bl, rows, len);
    ghost var t := cache.Contents(d.model, |rows|);
    var _ := CachedForward(cache, d.model, blocks, lo, CommitBlock);
    CacheHoldsStep(d.model, t, rows, blocks, d.cfg.bl, n, len);
  }

  /** A fresh cache with the full prompt blocks committed. */
  method Prefill(d: Decoder, x: array2<Token>, prefill: nat, ghost rows: seq<Row>, ghost len: nat)
      returns (cache: BlockDiffusionCache)
    requires ModelOk(d.model) && Holds(x, rows, len) && Span(prefill, d.cfg.bl) <= len
    ensures fresh(cache) && CacheOk(d.model, cache, rows, d.cfg.bl, prefill, len)
  {
    hide CacheHolds;
    cache := new BlockDiffusionCache(d.model, x.Length0);
    EmptyHolds(d.model, rows, d.cfg.bl, len);
    for n := 0 to prefill
      invariant Span(n, d.cfg.bl) <= len && CacheOk(d.model, cache, rows, d.cfg.bl, n, len)
      invariant Holds(x, rows, len) && fresh(cache)
    {
      SpanMonotone(n + 1, prefill, d.cfg.bl);
      CommitBlockToCache(d, x, n, cache, rows, len);
    }
  }
}
