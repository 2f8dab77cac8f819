/**
 What one query head of one request gets out of the kernel, with its parameters written out: its own gate, its
 entry of W and of the state, its own query and the key and value of its group.
 */
module KernelHeads {
  import opened Wrappers
  import opened BlockMath
  import opened Vectors
  import opened BlockAttention
  import opened Layers
  import opened KernelMath
  import opened Kernel
  import opened KernelRuns


  /** Request r as query head h sees it: its own queries, and the keys and values of its group. */
  function OwnEntries(b: Batch, r: nat, groups: pos, h: nat): (es: seq<Entry>)
    requires BatchOk(b) && r < |b.lens|
    ensures |es| == b.lens[r]
  {
    LastOffset(b, r);
    var from, len := Offset(b.lens, r), b.lens[r];
    seq(len, t requires 0 <= t < len =>
      Entry(Pick(b.toks[from + t].q, h), Pick(b.toks[from + t].k, h / groups), Pick(b.toks[from + t].v, h / groups),
            true))
  }

  /** A single head with the gate of query head h and entry e of W. */
  function OwnHead(p: Params, size: nat, h: nat, e: nat): Head
    requires h < |p.gates| && e < |p.w|
  {
    Head(p.proto.exp, p.w[e], p.proto.feat, p.proto.dim, p.proto.scale, p.proto.eps, size, Hybrid(p.gates[h]))
  }

  /** The rows of request r at head h are `out`'s column there. */
  ghost predicate ColumnIs(b: Batch, out: Rows, r: nat, h: nat, heads: nat, rows: seq<Vec>)
    requires BatchOk(b) && r < |b.lens| && h < heads && IsGrid(out, |b.toks|, heads)
  {
    LastOffset(b, r);
    |rows| == b.lens[r] && forall t: nat :: t < |rows| ==> out[Offset(b.lens, r) + t][h] == rows[t]
  }

  /**
   Head h of request r alone: its rows are `forward` of a single head with gate h, on the request's queries of head
   h and keys and values of head h / groups, from the entry of the state that was read; and, with one request to a
   slot, the entry written is its final state.
   */
  ghost predicate HeadAlone(p: Params, b: Batch, rd: Table, now: Table, out: Rows, r: nat, h: nat)
    requires BatchOk(b) && r < |b.lens| && h < |p.gates| && IsGrid(out, |b.toks|, |p.gates|)
  {
    LengthOk(b, r);
    var slot, e := b.slots[r], if p.perQ then h else h / p.groups;
    && e < |p.w| && slot < |rd| && e < |rd[slot]| && slot < |now| && e < |now[slot]|
    && var head, es := OwnHead(p, b.blockSize, h, e), OwnEntries(b, r, p.groups, h);
       && ColumnIs(b, out, r, h, |p.gates|, Forward(head, rd[slot][e], es))
       && (DistinctSlots(JobsOf(b)) ==> now[slot][e] == FinalState(head, rd[slot][e], es))
  }

  lemma StateHeadIs(p: Params, h: nat)
    ensures StateHead(p, h) == if p.perQ then h else h / p.groups
  {
    assert h / 1 == h;
  }

  lemma BlockIs(p: Params, b: Batch, r: nat, h: nat)
    requires BatchOk(b) && r < |b.lens|
    ensures HeadBlock(p, Slice(b, r), h) == OwnEntries(b, r, p.groups, h)
  {
    hide LensOk, Pick;
    LastOffset(b, r);
    var x, y := HeadBlock(p, Slice(b, r), h), OwnEntries(b, r, p.groups, h);
    forall t | 0 <= t < b.lens[r] ensures x[t] == y[t] {
      assert Slice(b, r)[t] == b.toks[Offset(b.lens, r) + t];
    }
  }

  /** A single head on a block no longer than the kernel's block size. */
  lemma AloneRow(head: Head, gated: Head, st: State, es: seq<Entry>, t: nat)
    requires gated == head.(blockSize := gated.blockSize) && gated.kind.Hybrid? && Shaped(head, st) && AllValid(es)
    requires 0 < |es| <= gated.blockSize && t < |es|
    ensures Forward(gated, st, es)[t] == Row(head, st, es, es[t].q)
    ensures FinalState(gated, st, es) == Update(head, st, es)
  {
    hide Forward, FinalState, RefRow, RefUpdate;
    OneBlock(gated, st, es);
    RefRowIsRow(gated, st, es, es[t].q);
    RefUpdateIsUpdate(gated, st, es);
    SizeFree(head, gated, st, es, es[t].q);
  }

  /** The block size plays no part in a row or an update. */
  lemma SizeFree(head: Head, gated: Head, st: State, es: seq<Entry>, q: Vec)
    requires gated == head.(blockSize := gated.blockSize)
    ensures Row(gated, st, es, q) == Row(head, st, es, q) && Update(gated, st, es) == Update(head, st, es)
  {
    hide Features, Values, Phi, Scores, Mix, VecMat, MatTMul, ColSums, MatAdd, Add;
    SizeFreeParts(head, gated, es, q);
  }

  lemma SizeFreeParts(head: Head, gated: Head, es: seq<Entry>, q: Vec)
    requires gated == head.(blockSize := gated.blockSize)
    ensures Phi(gated, q) == Phi(head, q) && Features(gated, es) == Features(head, es)
    ensures Values(gated, es) == Values(head, es) && Scores(gated, q, es) == Scores(head, q, es)
  {
    SamePhi(head, gated);
    hide Phi;
  }

  lemma HeadAloneIs(p: Params, b: Batch, rd: Table, wr: Table, now: Table, out: Rows, r: nat, h: nat)
    requires BatchOk(b) && ParamsOk(p) && WriteFits(p, b, wr) && WriteFits(p, b, rd) && r < |b.lens| && h < |p.gates|
    requires Served(p, JobsOf(b), Some(rd), wr, now) && RowsServed(p, b, Some(rd), wr, out, |b.lens|)
    requires Shaped(p.proto, rd[b.slots[r]][StateHead(p, h)]) && IsGrid(out, |b.toks|, |p.gates|)
    ensures HeadAlone(p, b, rd, now, out, r, h)
  {
    hide SlotCell, HeadCell, Forward, FinalState, Row, Update, Shaped, Slice, HeadBlock, LensOk, StateHead;
    StateHeadIs(p, h);
    LastOffset(b, r);
    LengthOk(b, r);
    var from, len, slot, e := Offset(b.lens, r), b.lens[r], b.slots[r], StateHead(p, h);
    var head, es := OwnHead(p, b.blockSize, h, e), OwnEntries(b, r, p.groups, h);
    BlockIs(p, b, r, h);
    assert RowsAre(p, b, out, r, h, Reads(p, b, Some(rd), wr, r, h));
    assert Reads(p, b, Some(rd), wr, r, h) == rd[slot][e];
    AloneShaped(p, rd[slot][e], h);
    forall t: nat | t < len ensures out[from + t][h] == Forward(head, rd[slot][e], es)[t] {
      AloneRow(HeadOf(p, h), head, rd[slot][e], es, t);
      assert out[from + t][h] == OutRow(p, rd[slot][e], Slice(b, r), h, t);
    }
    NowSized(p, b, rd, wr, now, r, h);
    if DistinctSlots(JobsOf(b)) {
      AloneState(p, b, rd, wr, now, r, h);
      AloneRow(HeadOf(p, h), head, rd[slot][e], es, 0);
    }
  }

  lemma NowSized(p: Params, b: Batch, rd: Table, wr: Table, now: Table, r: nat, h: nat)
    requires BatchOk(b) && ParamsOk(p) && WriteFits(p, b, wr) && r < |b.lens| && h < |p.gates|
    requires Served(p, JobsOf(b), Some(rd), wr, now)
    ensures b.slots[r] < |now| && StateHead(p, h) < |now[b.slots[r]]|
  {
    hide SlotCell, StateHead, LensOk;
  }

  lemma LengthOk(b: Batch, r: nat)
    requires BatchOk(b) && r < |b.lens|
    ensures 0 < b.lens[r] <= b.blockSize
  {}

  lemma AloneShaped(p: Params, st: State, h: nat)
    requires h < |p.gates| && StateHead(p, h) < |p.w| && Shaped(p.proto, st)
    ensures Shaped(HeadOf(p, h), st)
  {}

  /** With one request to a slot, the entry written is what head h makes of the entry read. */
  lemma AloneState(p: Params, b: Batch, rd: Table, wr: Table, now: Table, r: nat, h: nat)
    requires BatchOk(b) && ParamsOk(p) && WriteFits(p, b, wr) && WriteFits(p, b, rd) && r < |b.lens| && h < |p.gates|
    requires Served(p, JobsOf(b), Some(rd), wr, now) && DistinctSlots(JobsOf(b))
    ensures b.slots[r] < |now| && StateHead(p, h) < |now[b.slots[r]]|
    ensures now[b.slots[r]][StateHead(p, h)] == NewState(p, rd[b.slots[r]][StateHead(p, h)], Slice(b, r), h)
  {
    hide SlotCell, HeadCell, NewState, Slice, LensOk;
    var s, k := b.slots[r], StateHead(p, h);
    SlotAlone(p, JobsOf(b), Some(rd[s][k]), wr[s][k], r, k);
    SeparateCell(p, Slice(b, r), rd[s][k], wr[s][k], h, |p.gates|);
  }

  /** A run of the kernel from one state into another gives every head of every request what it gets alone. */
  method ExtendHeads(p: Params, b: Batch, read: array2<State>, write: array2<State>) returns (out: array2<Vec>)
    requires BatchOk(b) && ParamsOk(p) && (p.perQ ==> |p.w| == |p.gates|) && StatesShaped(p, read) && read != write
    requires Fits(p, b, read.Length0, read.Length1) && Fits(p, b, write.Length0, write.Length1)
    modifies write
    ensures fresh(out) && IsGrid(Contents(out), |b.toks|, |p.gates|)
    ensures forall r: nat, h: nat :: r < |b.lens| && h < |p.gates| ==>
      HeadAlone(p, b, Contents(read), Contents(write), Contents(out), r, h)
    ensures forall t: nat, h: nat :: Offset(b.lens, |b.lens|) <= t < |b.toks| && h < |p.gates| ==>
      Contents(out)[t][h] == Zeros(p.proto.dim)
  {
    hide RowsAre, SlotCell, HeadCell, Slice, Shaped, Reads, Contents, JobsOf, Served, RowsServed, HeadAlone, StateHead;
    ghost var rd, wr := Contents(read), Contents(write);
    var ok;
    ok, out := Extend(p, b, read, write);
    assert Contents(read) == rd;
    forall r: nat, h: nat | r < |b.lens| && h < |p.gates|
      ensures HeadAlone(p, b, rd, Contents(write), Contents(out), r, h)
    {
      assert rd[b.slots[r]][StateHead(p, h)] == read[b.slots[r], StateHead(p, h)];
      HeadAloneIs(p, b, rd, wr, Contents(write), Contents(out), r, h);
    }
  }

  /** Two runs that differ only in the gates of other heads give head h the same rows. */
  method ExtendRegated(p: Params, gates: seq<real>, b: Batch, h: nat, read: array2<State>, write: array2<State>,
                       write': array2<State>)
      returns (out: array2<Vec>, out': array2<Vec>)
    requires BatchOk(b) && ParamsOk(p) && (p.perQ ==> |p.w| == |p.gates|) && StatesShaped(p, read)
    requires |gates| == |p.gates| && h < |p.gates| && gates[h] == p.gates[h]
    requires read != write && read != write' && write != write' && Fits(p, b, read.Length0, read.Length1)
    requires Fits(p, b, write.Length0, write.Length1) && Fits(p, b, write'.Length0, write'.Length1)
    modifies write, write'
    ensures IsGrid(Contents(out), |b.toks|, |p.gates|) && IsGrid(Contents(out'), |b.toks|, |p.gates|)
    ensures forall t: nat :: t < |b.toks| ==> Contents(out)[t][h] == Contents(out')[t][h]
  {
    hide Contents, HeadAlone, StateHead, Shaped, LensOk, Offset;
    var p' := p.(gates := gates);
    RegatedOk(p, gates, b);
    assert StatesShaped(p', read);
    out := ExtendHeads(p, b, read, write);
    ghost var rd, now, rows := Contents(read), Contents(write), Contents(out);
    out' := ExtendHeads(p', b, read, write');
    assert Contents(read) == rd;
    RegatedRows(p, p', b, rd, now, Contents(write'), rows, Contents(out'), h);
  }

  lemma RegatedOk(p: Params, gates: seq<real>, b: Batch)
    requires ParamsOk(p) && |gates| == |p.gates|
    ensures var p' := p.(gates := gates);
            ParamsOk(p') && forall n, m :: Fits(p, b, n, m) ==> Fits(p', b, n, m)
  {
    var p' := p.(gates := gates);
    assert forall h: nat :: StateHead(p', h) == StateHead(p, h);
  }

  lemma RegatedRows(p: Params, p': Params, b: Batch, rd: Table, now: Table, now': Table, out: Rows, out': Rows, h: nat)
    requires BatchOk(b) && h < |p.gates| == |p'.gates| && p' == p.(gates := p'.gates) && p'.gates[h] == p.gates[h]
    requires IsGrid(out, |b.toks|, |p.gates|) && IsGrid(out', |b.toks|, |p.gates|)
    requires forall r: nat :: r < |b.lens| ==> HeadAlone(p, b, rd, now, out, r, h)
    requires forall r: nat :: r < |b.lens| ==> HeadAlone(p', b, rd, now', out', r, h)
    requires forall t: nat :: Offset(b.lens, |b.lens|) <= t < |b.toks| ==> out[t][h] == out'[t][h]
    ensures forall t: nat :: t < |b.toks| ==> out[t][h] == out'[t][h]
  {
    hide HeadAlone, Offset, LensOk;
    forall t: nat | t < |b.toks| ensures out[t][h] == out'[t][h] {
      if t < Offset(b.lens, |b.lens|) {
        PlanPartitions(b.lens, b.blockSize, t);
        var r: nat :| r < |b.lens| && Offset(b.lens, r) <= t < Offset(b.lens, r) + b.lens[r];
        RegatedRow(p, p', b, rd, now, now', out, out', r, h, t - Offset(b.lens, r));
      }
    }
  }

  lemma RegatedRow(p: Params, p': Params, b: Batch, rd: Table, now: Table, now': Table, out: Rows, out': Rows, r: nat,
                   h: nat, t: nat)
    requires BatchOk(b) && r < |b.lens| && h < |p.gates| == |p'.gates| && t < b.lens[r]
    requires p' == p.(gates := p'.gates) && p'.gates[h] == p.gates[h]
    requires IsGrid(out, |b.toks|, |p.gates|) && IsGrid(out', |b.toks|, |p.gates|)
    requires HeadAlone(p, b, rd, now, out, r, h) && HeadAlone(p', b, rd, now', out', r, h)
    ensures 0 <= Offset(b.lens, r) + t < |b.toks|
    ensures out[Offset(b.lens, r) + t][h] == out'[Offset(b.lens, r) + t][h]
  {
    hide HeadAlone, Forward, OwnEntries, LensOk, Offset, ColumnIs;
    LengthOk(b, r);
    var e := if p.perQ then h else h / p.groups;
    AloneColumn(p, b, rd, now, out, r, h, e);
    AloneColumn(p', b, rd, now', out', r, h, e);
    var rows := Forward(OwnHead(p, b.blockSize, h, e), rd[b.slots[r]][e], OwnEntries(b, r, p.groups, h));
    ColumnAt(b, out, r, h, |p.gates|, rows, t);
    ColumnAt(b, out', r, h, |p.gates|, rows, t);
  }

  lemma AloneColumn(p: Params, b: Batch, rd: Table, now: Table, out: Rows, r: nat, h: nat, e: nat)
    requires BatchOk(b) && r < |b.lens| && h < |p.gates| && IsGrid(out, |b.toks|, |p.gates|)
    requires HeadAlone(p, b, rd, now, out, r, h) && e == if p.perQ then h else h / p.groups
    ensures b.blockSize > 0 && e < |p.w| && b.slots[r] < |rd| && e < |rd[b.slots[r]]|
    ensures ColumnIs(b, out, r, h, |p.gates|,
                     Forward(OwnHead(p, b.blockSize, h, e), rd[b.slots[r]][e], OwnEntries(b, r, p.groups, h)))
  {
    hide Forward, OwnEntries, Offset, ColumnIs, FinalState, JobsOf, DistinctSlots;
    LengthOk(b, r);
  }

  lemma ColumnAt(b: Batch, out: Rows, r: nat, h: nat, heads: nat, rows: seq<Vec>, t: nat)
    requires BatchOk(b) && r < |b.lens| && h < heads && IsGrid(out, |b.toks|, heads)
    requires ColumnIs(b, out, r, h, heads, rows) && t < b.lens[r]
    ensures 0 <= Offset(b.lens, r) + t < |b.toks| && t < |rows| && out[Offset(b.lens, r) + t][h] == rows[t]
  {
    hide LensOk, Offset;
    LastOffset(b, r);
  }
}
