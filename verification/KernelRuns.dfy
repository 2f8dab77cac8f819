/**
 Several runs of the reference kernels side by side: a batch against its requests one by one, in any order;
 one state per key/value head against one per query head; one state for reading and writing against two; and
 one call per block against a whole sequence.
 */
module KernelRuns {
  import opened Wrappers
  import opened BlockMath
  import opened Sequences
  import opened Vectors
  import opened Softmax
  import opened BlockAttention
  import opened Layers
  import opened KernelMath
  import opened Kernel

  // ----- reading one state and writing another -----

  /** A separate source makes the heads of a group agree: each writes the same entry. */
  lemma {:induction false} SeparateCell(p: Params, toks: seq<Qkv>, rd: State, st: State, h: nat, n: nat)
    requires ParamsOk(p) && h < n <= |p.gates|
    ensures HeadCell(p, toks, Some(rd), st, StateHead(p, h), n) == NewState(p, rd, toks, h)
    decreases n
  {
    hide NewState, StateHead;
    if StateHead(p, n - 1) == StateHead(p, h) {
      SameGroup(p, rd, toks, n - 1, h);
    } else {
      SeparateCell(p, toks, rd, st, h, n - 1);
    }
  }

  /** The last request that owns slot s. */
  function LastWriter(jobs: seq<Job>, s: nat): (w: Option<nat>)
    ensures w.Some? ==> w.value < |jobs| && jobs[w.value].slot == s
    ensures w.None? ==> forall r :: 0 <= r < |jobs| ==> jobs[r].slot != s
  {
    if |jobs| == 0 then None
    else if jobs[|jobs| - 1].slot == s then Some(|jobs| - 1)
    else LastWriter(jobs[..|jobs| - 1], s)
  }

  /** With a separate source the last writer of a slot wins, and a slot without a writer stays. */
  lemma {:induction false} LastWriterWins(p: Params, jobs: seq<Job>, rd: State, st: State, s: nat, h: nat)
    requires ParamsOk(p) && h < |p.gates|
    ensures SlotCell(p, jobs, Some(rd), st, s, StateHead(p, h))
         == match LastWriter(jobs, s) { case None => st case Some(w) => NewState(p, rd, jobs[w].toks, h) }
  {
    hide NewState, StateHead, HeadCell;
    if |jobs| > 0 {
      var last := |jobs| - 1;
      LastWriterWins(p, jobs[..last], rd, st, s, h);
      SeparateCell(p, jobs[last].toks, rd, SlotCell(p, jobs[..last], Some(rd), st, s, StateHead(p, h)), h, |p.gates|);
    }
  }

  // ----- distinct slots -----

  ghost predicate DistinctSlots(jobs: seq<Job>) {
    forall a, b :: 0 <= a < b < |jobs| ==> jobs[a].slot != jobs[b].slot
  }

  lemma {:induction false} SlotMissing(p: Params, jobs: seq<Job>, src: Option<State>, st: State, s: nat, k: nat)
    requires ParamsOk(p) && forall r :: 0 <= r < |jobs| ==> jobs[r].slot != s
    ensures SlotCell(p, jobs, src, st, s, k) == st
  {
    hide HeadCell;
    if |jobs| > 0 { SlotMissing(p, jobs[..|jobs| - 1], src, st, s, k); }
  }

  /** A request alone in its slot finds what the batch started from and leaves what it writes. */
  lemma {:induction false} SlotAlone(p: Params, jobs: seq<Job>, src: Option<State>, st: State, r: nat, k: nat)
    requires ParamsOk(p) && DistinctSlots(jobs) && r < |jobs|
    ensures SlotCell(p, jobs[..r], src, st, jobs[r].slot, k) == st
    ensures SlotCell(p, jobs, src, st, jobs[r].slot, k) == HeadCell(p, jobs[r].toks, src, st, k, |p.gates|)
  {
    hide HeadCell;
    var last := |jobs| - 1;
    if r < last {
      assert jobs[..last][..r] == jobs[..r];
      SlotAlone(p, jobs[..last], src, st, r, k);
    } else {
      SlotMissing(p, jobs[..r], src, st, jobs[r].slot, k);
    }
  }

  /** `order` lists 0..n-1, each once. */
  ghost predicate IsOrder(order: seq<nat>, n: nat) {
    && |order| == n && (forall i :: 0 <= i < n ==> order[i] < n)
    && (forall i, j :: 0 <= i < j < n ==> order[i] != order[j])
    && (forall r: nat :: r < n ==> r in order)
  }

  function Picked(jobs: seq<Job>, order: seq<nat>): (r: seq<Job>)
    requires forall i :: 0 <= i < |order| ==> order[i] < |jobs|
    ensures |r| == |order| && forall i :: 0 <= i < |order| ==> r[i] == jobs[order[i]]
  {
    seq(|order|, i requires 0 <= i < |order| => jobs[order[i]])
  }

  /** Requests with slots of their own may be served in any order. */
  lemma OrderIrrelevant(p: Params, jobs: seq<Job>, order: seq<nat>, src: Option<State>, st: State, s: nat, k: nat)
    requires ParamsOk(p) && DistinctSlots(jobs) && IsOrder(order, |jobs|)
    ensures SlotCell(p, Picked(jobs, order), src, st, s, k) == SlotCell(p, jobs, src, st, s, k)
  {
    hide HeadCell, SlotCell;
    var other := Picked(jobs, order);
    if r: nat :| r < |jobs| && jobs[r].slot == s {
      assert r in order;
      var i :| 0 <= i < |order| && order[i] == r;
      SlotAlone(p, jobs, src, st, r, k);
      SlotAlone(p, other, src, st, i, k);
    } else {
      SlotMissing(p, jobs, src, st, s, k);
      SlotMissing(p, other, src, st, s, k);
    }
  }

  lemma SameTable(p: Params, jobs: seq<Job>, order: seq<nat>, rd: Option<Table>, wr: Table, a: Table, b: Table)
    requires ParamsOk(p) && DistinctSlots(jobs) && IsOrder(order, |jobs|)
    requires Served(p, jobs, rd, wr, a) && Served(p, Picked(jobs, order), rd, wr, b)
    ensures a == b
  {
    hide SlotCell, HeadCell, IsOrder;
    forall s: nat | s < |wr| ensures a[s] == b[s] {
      forall k: nat | k < |wr[s]| ensures a[s][k] == b[s][k] {
        OrderIrrelevant(p, jobs, order, SourceAt(rd, s, k), wr[s][k], s, k);
      }
    }
  }

  /** With slots of their own the heads of request r read what a run of that request alone would. */
  lemma ReadsAlone(p: Params, b: Batch, rd: Option<Table>, wr: Table, r: nat, h: nat)
    requires BatchOk(b) && ParamsOk(p) && WriteFits(p, b, wr) && DistinctSlots(JobsOf(b)) && r < |b.lens|
    requires h < |p.gates|
    ensures Reads(p, b, rd, wr, r, h) == HeadReads(p, b, rd, wr, r, h)
  {
    hide SlotCell, HeadCell, Slice, StateHead, LensOk;
    SlotAlone(p, JobsOf(b), SourceAt(rd, b.slots[r], StateHead(p, h)), wr[b.slots[r]][StateHead(p, h)], r,
      StateHead(p, h));
  }

  // ----- one request at a time -----

  /** The batch that holds only request r. */
  function Single(b: Batch, r: nat): (c: Batch)
    requires BatchOk(b) && r < |b.lens|
    ensures BatchOk(c) && |c.lens| == 1 && c.slots == [b.slots[r]] && c.lens == [b.lens[r]]
    ensures Slice(c, 0) == Slice(b, r) && JobsOf(c) == [Job(b.slots[r], Slice(b, r))]
  {
    var c := Batch(Slice(b, r), [b.lens[r]], [b.slots[r]], b.blockSize);
    assert Offset(c.lens, 1) == Offset(c.lens, 0) + c.lens[0];
    assert c.toks[0..0 + c.lens[0]] == c.toks;
    c
  }

  lemma SingleServed(p: Params, job: Job, rd: Option<Table>, was: Table, now: Table)
    requires ParamsOk(p) && Served(p, [job], rd, was, now)
    ensures HeadsServed(p, job, rd, was, now, |p.gates|)
  {
    hide HeadCell;
    var jobs := [job];
    assert jobs[..0] == [];
    forall s: nat, k: nat | s < |was| && k < |was[s]|
      ensures now[s][k] == if s == job.slot
        then HeadCell(p, job.toks, SourceAt(rd, s, k), was[s][k], k, |p.gates|) else was[s][k]
    {
      assert now[s][k] == SlotCell(p, jobs, SourceAt(rd, s, k), was[s][k], s, k);
      assert SlotCell(p, jobs[..0], SourceAt(rd, s, k), was[s][k], s, k) == was[s][k];
    }
  }

  /** `rows` are the output rows of request r of the batch. */
  ghost predicate OwnRows(p: Params, b: Batch, rd: Option<Table>, wr: Table, rows: Rows, r: nat)
    requires BatchOk(b) && ParamsOk(p) && WriteFits(p, b, wr) && r < |b.lens|
  {
    && IsGrid(rows, b.lens[r], |p.gates|)
    && forall t: nat, h: nat :: t < b.lens[r] && h < |p.gates| ==>
        rows[t][h] == OutRow(p, HeadReads(p, b, rd, wr, r, h), Slice(b, r), h, t)
  }

  lemma SingleRows(p: Params, b: Batch, rd: Option<Table>, wr: Table, now: Table, rows: Rows, r: nat)
    requires BatchOk(b) && ParamsOk(p) && WriteFits(p, b, wr) && r < |b.lens| && WriteFits(p, Single(b, r), now)
    requires |now| == |wr| && |now[b.slots[r]]| == |wr[b.slots[r]]| && now[b.slots[r]] == wr[b.slots[r]]
    requires RowsServed(p, Single(b, r), rd, now, rows, 1)
    ensures OwnRows(p, b, rd, wr, rows, r)
  {
    hide HeadCell, Slice, OutRow, LensOk, StateHead;
    var c := Single(b, r);
    assert |c.toks| == b.lens[r];
    forall t: nat, h: nat | t < b.lens[r] && h < |p.gates|
      ensures rows[t][h] == OutRow(p, HeadReads(p, b, rd, wr, r, h), Slice(b, r), h, t)
    {
      assert RowsAre(p, c, rows, 0, h, Reads(p, c, rd, now, 0, h));
      assert JobsOf(c)[..0] == [];
      assert Reads(p, c, rd, now, 0, h) == HeadReads(p, b, rd, wr, r, h);
      assert rows[Offset(c.lens, 0) + t][h] == OutRow(p, Reads(p, c, rd, now, 0, h), Slice(c, 0), h, t);
    }
  }

  /** The kernel called once per request, in the given order. */
  method ExtendSingly(p: Params, b: Batch, order: seq<nat>, read: array2<State>, write: array2<State>)
      returns (ghost rows: seq<Rows>)
    requires BatchOk(b) && ParamsOk(p) && StatesShaped(p, read) && (p.perQ ==> |p.w| == |p.gates|)
    requires Fits(p, b, read.Length0, read.Length1) && Fits(p, b, write.Length0, write.Length1)
    requires IsOrder(order, |b.lens|) && DistinctSlots(JobsOf(b))
    modifies write
    ensures Served(p, Picked(JobsOf(b), order), old(Other(read, write)), old(Contents(write)), Contents(write))
    ensures |rows| == |order| && forall i :: 0 <= i < |order| ==>
      OwnRows(p, b, old(Other(read, write)), old(Contents(write)), rows[i], order[i])
  {
    hide RowsAre, SlotCell, HeadCell, Slice, Shaped, Reads, HeadReads, Contents, JobsOf, Served, RowsServed, OwnRows,
         Single;
    ghost var jobs, rd, wr := JobsOf(b), Other(read, write), Contents(write);
    ghost var picked := Picked(jobs, order);
    rows := [];
    NothingServed(p, picked, rd, wr);
    for i := 0 to |order|
      invariant StatesShaped(p, read) && (rd.Some? ==> Other(read, write) == rd) && (read == write ==> rd.None?)
      invariant Served(p, picked[..i], rd, wr, Contents(write))
      invariant |rows| == i && forall j :: 0 <= j < i ==> OwnRows(p, b, rd, wr, rows[j], order[j])
    {
      var r := order[i];
      var c := Single(b, r);
      ghost var now := Contents(write);
      SlotUntouched(p, picked, rd, wr, now, i);
      var ok, out := Extend(p, c, read, write);
      SingleServed(p, picked[i], rd, now, Contents(write));
      NextServed(p, picked, rd, wr, now, Contents(write), i);
      SingleRows(p, b, rd, wr, now, Contents(out), r);
      rows := rows + [Contents(out)];
    }
    assert picked[..|order|] == picked;
  }

  lemma NothingServed(p: Params, jobs: seq<Job>, rd: Option<Table>, wr: Table)
    requires ParamsOk(p)
    ensures Served(p, jobs[..0], rd, wr, wr)
  {}

  /** Before its own call a request's slot is as it was at the start. */
  lemma SlotUntouched(p: Params, jobs: seq<Job>, rd: Option<Table>, wr: Table, now: Table, i: nat)
    requires ParamsOk(p) && DistinctSlots(jobs) && i < |jobs| && jobs[i].slot < |wr|
    requires Served(p, jobs[..i], rd, wr, now)
    ensures |now| == |wr|
    ensures (forall s :: 0 <= s < |wr| ==> |now[s]| == |wr[s]|) && now[jobs[i].slot] == wr[jobs[i].slot]
  {
    hide SlotCell;
    var s := jobs[i].slot;
    forall k: nat | k < |wr[s]| ensures now[s][k] == wr[s][k] {
      SlotMissing(p, jobs[..i], SourceAt(rd, s, k), wr[s][k], s, k);
    }
  }

  /** Two runs that start alike: same contents, and each with one state or each with two. */
  ghost predicate StartAlike(readA: array2<State>, writeA: array2<State>, readB: array2<State>, writeB: array2<State>)
    reads readA, writeA, readB, writeB
  {
    && Contents(readA) == Contents(readB) && Contents(writeA) == Contents(writeB)
    && readA.Length1 == readB.Length1 && writeA.Length1 == writeB.Length1
    && (readA == writeA <==> readB == writeB) && writeA != writeB && readA != writeB && readB != writeA
  }

  /**
   A batch whose requests have slots of their own equals its requests served one call at a time, in any order:
   the states end equal, and every request gets the same rows.
   */
  method SinglyIsBatched(p: Params, b: Batch, order: seq<nat>,
                         readA: array2<State>, writeA: array2<State>, readB: array2<State>, writeB: array2<State>)
      returns (out: array2<Vec>, ghost rows: seq<Rows>)
    requires BatchOk(b) && ParamsOk(p) && StatesShaped(p, readA) && (p.perQ ==> |p.w| == |p.gates|)
    requires Fits(p, b, readA.Length0, readA.Length1) && Fits(p, b, writeA.Length0, writeA.Length1)
    requires StartAlike(readA, writeA, readB, writeB) && IsOrder(order, |b.lens|) && DistinctSlots(JobsOf(b))
    modifies writeA, writeB
    ensures Contents(writeA) == Contents(writeB)
    ensures |rows| == |order| && |Contents(out)| == |b.toks|
    ensures forall i :: 0 <= i < |order| ==> rows[i] == RowsOf(b, Contents(out), order[i])
  {
    hide RowsAre, SlotCell, HeadCell, Slice, Shaped, Reads, HeadReads, Contents, JobsOf, Served, OwnRows, Single,
         RowsOf;
    ghost var rd, wr := Other(readA, writeA), Contents(writeA);
    ShapedCopy(p, readA, readB);
    var ok;
    ok, out := Extend(p, b, readA, writeA);
    ghost var batched := Contents(out);
    rows := ExtendSingly(p, b, order, readB, writeB);
    SameTable(p, JobsOf(b), order, rd, wr, Contents(writeA), Contents(writeB));
    forall i | 0 <= i < |order| ensures rows[i] == RowsOf(b, batched, order[i]) {
      BatchRows(p, b, rd, wr, batched, order[i]);
      SameOwnRows(p, b, rd, wr, rows[i], RowsOf(b, batched, order[i]), order[i]);
    }
  }

  lemma ShapedCopy(p: Params, a: array2<State>, b: array2<State>)
    requires StatesShaped(p, a) && Contents(a) == Contents(b) && a.Length1 == b.Length1
    ensures StatesShaped(p, b) && a.Length0 == b.Length0
  {
    hide Shaped;
    forall s, k | 0 <= s < b.Length0 && 0 <= k < b.Length1 ensures Shaped(p.proto, b[s, k]) {
      assert b[s, k] == Contents(b)[s][k] == Contents(a)[s][k] == a[s, k];
    }
  }

  /** The rows of request r in the output of a batch. */
  function RowsOf(b: Batch, out: Rows, r: nat): Rows
    requires BatchOk(b) && r < |b.lens| && |out| == |b.toks|
  {
    LastOffset(b, r);
    out[Offset(b.lens, r)..Offset(b.lens, r) + b.lens[r]]
  }

  lemma BatchRows(p: Params, b: Batch, rd: Option<Table>, wr: Table, out: Rows, r: nat)
    requires BatchOk(b) && ParamsOk(p) && WriteFits(p, b, wr) && r < |b.lens| && DistinctSlots(JobsOf(b))
    requires RowsServed(p, b, rd, wr, out, |b.lens|)
    ensures OwnRows(p, b, rd, wr, RowsOf(b, out, r), r)
  {
    hide SlotCell, HeadCell, Slice, Reads, HeadReads, JobsOf, OutRow, LensOk;
    LastOffset(b, r);
    var rows := RowsOf(b, out, r);
    forall t: nat, h: nat | t < b.lens[r] && h < |p.gates|
      ensures rows[t][h] == OutRow(p, HeadReads(p, b, rd, wr, r, h), Slice(b, r), h, t)
    {
      ReadsAlone(p, b, rd, wr, r, h);
      assert RowsAre(p, b, out, r, h, Reads(p, b, rd, wr, r, h));
      assert rows[t] == out[Offset(b.lens, r) + t];
    }
  }

  lemma SameOwnRows(p: Params, b: Batch, rd: Option<Table>, wr: Table, x: Rows, y: Rows, r: nat)
    requires BatchOk(b) && ParamsOk(p) && WriteFits(p, b, wr) && r < |b.lens|
    requires OwnRows(p, b, rd, wr, x, r) && OwnRows(p, b, rd, wr, y, r)
    ensures x == y
  {
    hide HeadReads, OutRow, Slice, LensOk;
    forall t: nat | t < b.lens[r] ensures x[t] == y[t] {
      forall h: nat | h < |p.gates| ensures x[t][h] == y[t][h] {
        assert x[t][h] == OutRow(p, HeadReads(p, b, rd, wr, r, h), Slice(b, r), h, t);
      }
    }
  }

  // ----- a permuted batch -----

  /** Request i of batch c is request perm[i] of batch b: its slot and its tokens. */
  ghost predicate Permuted(b: Batch, c: Batch, perm: seq<nat>) {
    && BatchOk(b) && BatchOk(c) && |c.lens| == |b.lens| && IsOrder(perm, |b.lens|)
    && forall i :: 0 <= i < |perm| ==> c.slots[i] == b.slots[perm[i]] && Slice(c, i) == Slice(b, perm[i])
  }

  /** With distinct slots, a permuted batch leaves the same states and gives every request the same rows. */
  method ExtendPermuted(p: Params, b: Batch, c: Batch, perm: seq<nat>,
                        readB: array2<State>, writeB: array2<State>, readC: array2<State>, writeC: array2<State>)
      returns (outB: array2<Vec>, outC: array2<Vec>)
    requires Permuted(b, c, perm) && ParamsOk(p) && StatesShaped(p, readB) && (p.perQ ==> |p.w| == |p.gates|)
    requires Fits(p, b, readB.Length0, readB.Length1) && Fits(p, b, writeB.Length0, writeB.Length1)
    requires StartAlike(readB, writeB, readC, writeC) && DistinctSlots(JobsOf(b))
    modifies writeB, writeC
    ensures Contents(writeB) == Contents(writeC)
    ensures |Contents(outB)| == |b.toks| && |Contents(outC)| == |c.toks|
    ensures forall i :: 0 <= i < |perm| ==> RowsOf(c, Contents(outC), i) == RowsOf(b, Contents(outB), perm[i])
  {
    hide RowsAre, SlotCell, HeadCell, Slice, Shaped, Reads, HeadReads, Contents, Served, RowsOf;
    ghost var rd, wr := Other(readB, writeB), Contents(writeB);
    ShapedCopy(p, readB, readC);
    PermutedJobs(b, c, perm);
    var ok;
    ok, outB := Extend(p, b, readB, writeB);
    ghost var rowsB := Contents(outB);
    ok, outC := Extend(p, c, readC, writeC);
    SameTable(p, JobsOf(b), perm, rd, wr, Contents(writeB), Contents(writeC));
    forall i | 0 <= i < |perm| ensures RowsOf(c, Contents(outC), i) == RowsOf(b, rowsB, perm[i]) {
      PermutedRows(p, b, c, perm, rd, wr, rowsB, Contents(outC), i);
    }
  }

  lemma PermutedJobs(b: Batch, c: Batch, perm: seq<nat>)
    requires Permuted(b, c, perm)
    ensures JobsOf(c) == Picked(JobsOf(b), perm)
    ensures DistinctSlots(JobsOf(b)) ==> DistinctSlots(JobsOf(c))
    ensures forall i :: 0 <= i < |c.slots| ==> c.slots[i] in b.slots
  {
    hide Slice, LensOk;
    assert |c.slots| == |perm|;
    forall i | 0 <= i < |c.slots| ensures c.slots[i] in b.slots { assert c.slots[i] == b.slots[perm[i]]; }
  }

  lemma OwnRowsMoved(p: Params, b: Batch, c: Batch, rd: Option<Table>, wr: Table, rows: Rows, r: nat, i: nat)
    requires BatchOk(b) && BatchOk(c) && ParamsOk(p) && WriteFits(p, b, wr) && WriteFits(p, c, wr)
    requires r < |b.lens| && i < |c.lens| && c.slots[i] == b.slots[r] && Slice(c, i) == Slice(b, r)
    requires OwnRows(p, c, rd, wr, rows, i)
    ensures OwnRows(p, b, rd, wr, rows, r)
  {
    hide HeadCell, Slice, OutRow, LensOk, StateHead;
    assert c.lens[i] == |Slice(c, i)| == b.lens[r];
    forall t: nat, h: nat | t < b.lens[r] && h < |p.gates|
      ensures rows[t][h] == OutRow(p, HeadReads(p, b, rd, wr, r, h), Slice(b, r), h, t)
    {
      assert rows[t][h] == OutRow(p, HeadReads(p, c, rd, wr, i, h), Slice(c, i), h, t);
    }
  }

  lemma PermutedRows(p: Params, b: Batch, c: Batch, perm: seq<nat>, rd: Option<Table>, wr: Table, outB: Rows,
                     outC: Rows, i: nat)
    requires Permuted(b, c, perm) && ParamsOk(p) && WriteFits(p, b, wr) && WriteFits(p, c, wr)
    requires DistinctSlots(JobsOf(b))
    requires RowsServed(p, b, rd, wr, outB, |b.lens|) && RowsServed(p, c, rd, wr, outC, |c.lens|) && i < |perm|
    ensures RowsOf(c, outC, i) == RowsOf(b, outB, perm[i])
  {
    hide SlotCell, HeadCell, Slice, Reads, JobsOf, OutRow, LensOk, RowsOf, RowsAre, OwnRows;
    PermutedJobs(b, c, perm);
    BatchRows(p, b, rd, wr, outB, perm[i]);
    BatchRows(p, c, rd, wr, outC, i);
    OwnRowsMoved(p, b, c, rd, wr, RowsOf(c, outC, i), perm[i], i);
    SameOwnRows(p, b, rd, wr, RowsOf(c, outC, i), RowsOf(b, outB, perm[i]), perm[i]);
  }

  // ----- one state per key/value head, or one per query head -----

  /** Per-query-head weights that repeat each key/value head's weights over its group. */
  ghost predicate Replicates(shared: Params, perQ: Params) {
    && shared.proto == perQ.proto && shared.gates == perQ.gates && shared.groups == perQ.groups
    && !shared.perQ && perQ.perQ && |perQ.w| == |perQ.gates| && ParamsOk(shared) && ParamsOk(perQ)
    && forall h: nat :: h < |perQ.gates| ==> perQ.w[h] == shared.w[StateHead(shared, h)]
  }

  /** Every query head's entry in q is its key/value head's entry in t. */
  ghost predicate Replica(shared: Params, t: Table, q: Table) {
    |t| == |q| && forall s: nat, h: nat :: s < |t| && h < |shared.gates| ==> ReplicaAt(shared, t, q, s, h)
  }

  ghost predicate ReplicaAt(shared: Params, t: Table, q: Table, s: nat, h: nat)
    requires s < |t| == |q|
  {
    h < |q[s]| && StateHead(shared, h) < |t[s]| && q[s][h] == t[s][StateHead(shared, h)]
  }

  lemma ReplicatedHead(shared: Params, perQ: Params, st: State, toks: seq<Qkv>, h: nat)
    requires Replicates(shared, perQ) && h < |shared.gates|
    ensures HeadOf(shared, h) == HeadOf(perQ, h) && StateHead(perQ, h) == h
    ensures NewState(shared, st, toks, h) == NewState(perQ, st, toks, h)
  {
    hide Update, HeadBlock;
    assert HeadBlock(shared, toks, h) == HeadBlock(perQ, toks, h) by { SameBlock(shared, perQ, toks, h); }
  }

  lemma SameBlock(p: Params, p': Params, toks: seq<Qkv>, h: nat)
    requires p.groups == p'.groups
    ensures HeadBlock(p, toks, h) == HeadBlock(p', toks, h)
  {}

  lemma ReplicatedCell(shared: Params, perQ: Params, jobs: seq<Job>, rd: State, st: State, s: nat, h: nat)
    requires Replicates(shared, perQ) && h < |shared.gates|
    ensures SlotCell(perQ, jobs, Some(rd), st, s, h) == SlotCell(shared, jobs, Some(rd), st, s, StateHead(shared, h))
  {
    hide NewState, SlotCell;
    ReplicatedHead(shared, perQ, st, [], h);
    LastWriterWins(shared, jobs, rd, st, s, h);
    LastWriterWins(perQ, jobs, rd, st, s, h);
    var w := LastWriter(jobs, s);
    if w.Some? { ReplicatedHead(shared, perQ, rd, jobs[w.value].toks, h); }
  }

  lemma ReplicatedTables(shared: Params, perQ: Params, jobs: seq<Job>, rdS: Table, rdQ: Table, wrS: Table,
                         wrQ: Table, s': Table, q': Table)
    requires Replicates(shared, perQ) && Replica(shared, rdS, rdQ) && Replica(shared, wrS, wrQ)
    requires Served(shared, jobs, Some(rdS), wrS, s') && Served(perQ, jobs, Some(rdQ), wrQ, q') && |rdS| == |wrS|
    ensures Replica(shared, s', q')
  {
    hide SlotCell, StateHead, Replicates;
    forall s: nat, h: nat | s < |s'| && h < |shared.gates|
      ensures ReplicaAt(shared, s', q', s, h)
    {
      assert ReplicaAt(shared, rdS, rdQ, s, h) && ReplicaAt(shared, wrS, wrQ, s, h);
      assert |q'[s]| == |wrQ[s]| && |s'[s]| == |wrS[s]|;
      var k := StateHead(shared, h);
      assert rdQ[s][h] == rdS[s][k] && wrQ[s][h] == wrS[s][k];
      assert SourceAt(Some(rdS), s, k) == Some(rdS[s][k]) == SourceAt(Some(rdQ), s, h);
      ReplicatedCell(shared, perQ, jobs, rdS[s][k], wrS[s][k], s, h);
    }
  }

  lemma ReplicatedRows(shared: Params, perQ: Params, b: Batch, rdS: Table, rdQ: Table, wrS: Table, wrQ: Table,
                       outS: Rows, outQ: Rows)
    requires Replicates(shared, perQ) && Replica(shared, rdS, rdQ) && BatchOk(b) && WriteFits(shared, b, wrS)
    requires WriteFits(perQ, b, wrQ)
    requires forall r :: 0 <= r < |b.slots| ==> b.slots[r] < |rdS|
    requires RowsServed(shared, b, Some(rdS), wrS, outS, |b.lens|)
    requires RowsServed(perQ, b, Some(rdQ), wrQ, outQ, |b.lens|)
    ensures forall t: nat :: t < Offset(b.lens, |b.lens|) ==> SameRow(outS, outQ, t)
  {
    hide SlotCell, StateHead, Replicates, LensOk, OutRow, Slice, RowsAre, Reads, JobsOf, Replica, Offset, RowsServed;
    forall t: nat | t < Offset(b.lens, |b.lens|) ensures SameRow(outS, outQ, t) {
      var r := Owner(b, t);
      ReplicatedRowAt(shared, perQ, b, rdS, rdQ, wrS, wrQ, outS, outQ, r, t);
    }
  }

  predicate SameRow(x: Rows, y: Rows, t: nat) { t < |x| && t < |y| && x[t] == y[t] }

  lemma Owner(b: Batch, t: nat) returns (r: nat)
    requires BatchOk(b) && t < Offset(b.lens, |b.lens|)
    ensures r < |b.lens| && 0 <= Offset(b.lens, r) <= t < Offset(b.lens, r) + b.lens[r] <= |b.toks|
  {
    PlanPartitions(b.lens, b.blockSize, t);
    r :| 0 <= r < |b.lens| && Offset(b.lens, r) <= t < Offset(b.lens, r) + b.lens[r];
    LastOffset(b, r);
  }

  lemma ReplicatedRowAt(shared: Params, perQ: Params, b: Batch, rdS: Table, rdQ: Table, wrS: Table, wrQ: Table,
                        outS: Rows, outQ: Rows, r: nat, t: nat)
    requires Replicates(shared, perQ) && Replica(shared, rdS, rdQ) && BatchOk(b) && WriteFits(shared, b, wrS)
    requires WriteFits(perQ, b, wrQ)
    requires r < |b.lens| && b.slots[r] < |rdS|
    requires RowsServed(shared, b, Some(rdS), wrS, outS, |b.lens|)
    requires RowsServed(perQ, b, Some(rdQ), wrQ, outQ, |b.lens|)
    requires 0 <= Offset(b.lens, r) <= t < Offset(b.lens, r) + b.lens[r] <= |b.toks|
    ensures t < |outS| && t < |outQ| && outS[t] == outQ[t]
  {
    hide SlotCell, StateHead, LensOk, OutRow, Slice, RowsAre, Reads, JobsOf, Replica, Offset, WriteFits;
    forall h: nat | h < |shared.gates| ensures outS[t][h] == outQ[t][h] {
      ReplicatedRow(shared, perQ, b, rdS, rdQ, wrS, wrQ, outS, outQ, r, h, t);
    }
  }

  lemma ReplicatedRow(shared: Params, perQ: Params, b: Batch, rdS: Table, rdQ: Table, wrS: Table, wrQ: Table,
                      outS: Rows, outQ: Rows, r: nat, h: nat, t: nat)
    requires Replicates(shared, perQ) && Replica(shared, rdS, rdQ) && BatchOk(b) && WriteFits(shared, b, wrS)
    requires WriteFits(perQ, b, wrQ)
    requires r < |b.lens| && h < |shared.gates| && b.slots[r] < |rdS|
    requires RowsServed(shared, b, Some(rdS), wrS, outS, |b.lens|)
    requires RowsServed(perQ, b, Some(rdQ), wrQ, outQ, |b.lens|)
    requires 0 <= Offset(b.lens, r) <= t < Offset(b.lens, r) + b.lens[r] <= |b.toks|
    ensures outS[t][h] == outQ[t][h]
  {
    hide SlotCell, StateHead, LensOk, Slice, Row;
    var s, k, i: nat := b.slots[r], StateHead(shared, h), t - Offset(b.lens, r);
    assert ReplicaAt(shared, rdS, rdQ, s, h);
    ReplicatedHead(shared, perQ, rdS[s][k], [], h);
    SameBlock(shared, perQ, Slice(b, r), h);
    assert RowsAre(shared, b, outS, r, h, Reads(shared, b, Some(rdS), wrS, r, h));
    assert RowsAre(perQ, b, outQ, r, h, Reads(perQ, b, Some(rdQ), wrQ, r, h));
    assert outS[Offset(b.lens, r) + i][h] == OutRow(shared, rdS[s][k], Slice(b, r), h, i);
    assert outQ[Offset(b.lens, r) + i][h] == OutRow(perQ, rdQ[s][h], Slice(b, r), h, i);
  }

  /**
   One state per key/value head refines one per query head: run on replicated weights and states, with the state
   read apart from the state written, both give the same outputs, and the written states are replicas again.
   */
  method ExtendBoth(shared: Params, perQ: Params, b: Batch,
                    readS: array2<State>, writeS: array2<State>, readQ: array2<State>, writeQ: array2<State>)
      returns (outS: array2<Vec>, outQ: array2<Vec>)
    requires BatchOk(b) && Replicates(shared, perQ) && StatesShaped(shared, readS) && StatesShaped(perQ, readQ)
    requires Fits(shared, b, readS.Length0, readS.Length1) && Fits(shared, b, writeS.Length0, writeS.Length1)
    requires Fits(perQ, b, readQ.Length0, readQ.Length1) && Fits(perQ, b, writeQ.Length0, writeQ.Length1)
    requires readS != writeS && readQ != writeQ && readS != writeQ && readQ != writeS && writeS != writeQ
    requires readS.Length0 == writeS.Length0
    requires Replica(shared, Contents(readS), Contents(readQ)) && Replica(shared, Contents(writeS), Contents(writeQ))
    modifies writeS, writeQ
    ensures |Contents(outS)| == |Contents(outQ)| == |b.toks|
    ensures Contents(outS) == Contents(outQ)
    ensures Replica(shared, Contents(writeS), Contents(writeQ))
  {
    hide RowsAre, SlotCell, Slice, Shaped, Reads, Contents, Served, RowsServed, Replica, JobsOf;
    ghost var rdS, rdQ, wrS, wrQ := Contents(readS), Contents(readQ), Contents(writeS), Contents(writeQ);
    var ok;
    ok, outS := Extend(shared, b, readS, writeS);
    ghost var rowsS := Contents(outS);
    ok, outQ := Extend(perQ, b, readQ, writeQ);
    ReplicatedTables(shared, perQ, JobsOf(b), rdS, rdQ, wrS, wrQ, Contents(writeS), Contents(writeQ));
    ReplicatedRows(shared, perQ, b, rdS, rdQ, wrS, wrQ, rowsS, Contents(outQ));
    SameRowGrid(shared, b, rowsS, Contents(outQ));
  }

  lemma SameRowGrid(p: Params, b: Batch, x: Rows, y: Rows)
    requires BatchOk(b) && IsGrid(x, |b.toks|, |p.gates|) && IsGrid(y, |b.toks|, |p.gates|)
    requires forall t: nat :: t < Offset(b.lens, |b.lens|) ==> SameRow(x, y, t)
    requires forall t: nat, h: nat :: Offset(b.lens, |b.lens|) <= t < |b.toks| && h < |p.gates| ==>
      x[t][h] == Zeros(p.proto.dim) == y[t][h]
    ensures x == y
  {
    hide LensOk;
    forall t: nat | t < |x| ensures x[t] == y[t] {
      assert t < Offset(b.lens, |b.lens|) ==> SameRow(x, y, t);
      if t >= Offset(b.lens, |b.lens|) {
        forall h: nat | h < |p.gates| ensures x[t][h] == y[t][h] {}
      }
    }
  }

  // ----- reading and writing one state -----

  /** How many of the first n query heads use entry k. */
  function Members(p: Params, k: nat, n: nat): nat {
    if n == 0 then 0 else Members(p, k, n - 1) + (if StateHead(p, n - 1) == k then 1 else 0)
  }

  /** Head h has h % share members of its group before it. */
  lemma {:induction false} Rank(p: Params, k: nat, n: nat)
    requires Span(k, p.share) <= n <= Span(k + 1, p.share)
    ensures Members(p, k, n) == n - Span(k, p.share)
  {
    if n > Span(k, p.share) {
      SpanIsProduct(k, p.share);
      RemainderUnique(n - 1, k, n - 1 - Span(k, p.share), p.share);
      Rank(p, k, n - 1);
    } else {
      NoneBefore(p, k, n);
    }
  }

  lemma {:induction false} NoneBefore(p: Params, k: nat, n: nat)
    requires n <= Span(k, p.share)
    ensures Members(p, k, n) == 0
  {
    if n > 0 {
      NoneBefore(p, k, n - 1);
      QuotientSpan(n - 1, p.share);
    }
  }

  lemma RankOf(p: Params, h: nat)
    ensures Members(p, StateHead(p, h), h) == h % p.share
  {
    hide Members, Span;
    var k := StateHead(p, h);
    QuotientSpan(h, p.share);
    assert Span(k + 1, p.share) == Span(k, p.share) + p.share by { NextSpan(k, p.share); }
    Rank(p, k, h);
    SpanIsProduct(k, p.share);
    RemainderUnique(h, k, h - Span(k, p.share), p.share);
  }

  lemma NextSpan(k: nat, size: nat)
    ensures Span(k + 1, size) == Span(k, size) + size
  {}

  lemma RepeatStep(h: Head, st: State, blk: seq<Entry>, n: nat)
    ensures RunState(h, st, Repeat(blk, 0)) == st
    ensures RunState(h, st, Repeat(blk, n + 1)) == Update(h, RunState(h, st, Repeat(blk, n)), blk)
  {
    hide Update;
    assert Repeat(blk, n + 1)[..n] == Repeat(blk, n);
  }

  /** Reading what they write, the heads of a group fold the block in once each. */
  lemma {:induction false} AliasedCell(p: Params, toks: seq<Qkv>, st: State, h: nat, n: nat)
    requires ParamsOk(p) && h < |p.gates| && n <= |p.gates|
    ensures HeadCell(p, toks, None, st, StateHead(p, h), n)
         == RunState(HeadOf(p, h), st, Repeat(HeadBlock(p, toks, h), Members(p, StateHead(p, h), n)))
  {
    hide Update, StateHead, HeadBlock, RunState, Repeat;
    var head, blk, k := HeadOf(p, h), HeadBlock(p, toks, h), StateHead(p, h);
    RepeatStep(head, st, blk, 0);
    if n > 0 {
      AliasedCell(p, toks, st, h, n - 1);
      if StateHead(p, n - 1) == k {
        SameGroup(p, HeadCell(p, toks, None, st, k, n - 1), toks, n - 1, h);
        RepeatStep(head, st, blk, Members(p, k, n - 1));
      }
    }
  }

  /** What the aliased run did for head h of request r, against a run with two states. */
  ghost predicate AliasedRun(p: Params, b: Batch, first: Table, one: Table, two: Table, out: Rows, r: nat, h: nat)
    requires BatchOk(b) && ParamsOk(p) && WriteFits(p, b, first) && WriteFits(p, b, one) && WriteFits(p, b, two)
    requires IsGrid(out, |b.toks|, |p.gates|) && r < |b.lens| && h < |p.gates|
  {
    var s, k, head, blk := b.slots[r], StateHead(p, h), HeadOf(p, h), HeadBlock(p, Slice(b, r), h);
    && one[s][k] == RunState(head, first[s][k], Repeat(blk, Members(p, k, |p.gates|)))
    && RowsAre(p, b, out, r, h, RunState(head, first[s][k], Repeat(blk, h % p.share)))
    && (one[s][k] == two[s][k] <==> Members(p, k, |p.gates|) == 1)
  }

  /**
   The kernel with one state in both roles, against a run with two. The g query heads of a group fold the block
   into their entry g times, and the head of rank j reads it after j times; the entry is the intended one exactly
   for groups of one.
   */
  method ExtendAliased(p: Params, b: Batch, one: array2<State>, read: array2<State>, write: array2<State>)
      returns (out: array2<Vec>)
    requires BatchOk(b) && ParamsOk(p) && StatesShaped(p, one) && (p.perQ ==> |p.w| == |p.gates|)
    requires IsExp(p.proto.exp) && p.proto.feat > 0 && DistinctSlots(JobsOf(b))
    requires Fits(p, b, one.Length0, one.Length1) && Fits(p, b, write.Length0, write.Length1)
    requires one != read && one != write && read != write && Contents(read) == Contents(one)
    requires read.Length1 == one.Length1
    modifies one, write
    ensures IsGrid(Contents(out), |b.toks|, |p.gates|)
    ensures forall r: nat, h: nat :: r < |b.lens| && h < |p.gates| ==>
      AliasedRun(p, b, old(Contents(one)), Contents(one), Contents(write), Contents(out), r, h)
  {
    hide RowsAre, SlotCell, Slice, Shaped, Reads, Contents, Served, RowsServed, JobsOf, AliasedRun, IsExp;
    ghost var first, wr := Contents(one), Contents(write);
    ShapedTable(p, one);
    ShapedCopy(p, one, read);
    var ok, other;
    ok, out := Extend(p, b, one, one);
    ghost var rows := Contents(out);
    ok, other := Extend(p, b, read, write);
    forall r: nat, h: nat | r < |b.lens| && h < |p.gates|
      ensures AliasedRun(p, b, first, Contents(one), Contents(write), rows, r, h)
    {
      AliasedRunIs(p, b, first, wr, Contents(one), Contents(write), rows, r, h);
    }
  }

  ghost predicate TableShaped(p: Params, t: Table) {
    forall s, k :: 0 <= s < |t| && 0 <= k < |t[s]| ==> Shaped(p.proto, t[s][k])
  }

  lemma ShapedTable(p: Params, a: array2<State>)
    ensures StatesShaped(p, a) <==> TableShaped(p, Contents(a))
  {
    hide Shaped;
    if TableShaped(p, Contents(a)) {
      forall s, k | 0 <= s < a.Length0 && 0 <= k < a.Length1 ensures Shaped(p.proto, a[s, k]) {
        assert a[s, k] == Contents(a)[s][k];
      }
    }
  }

  lemma AliasedRunIs(p: Params, b: Batch, first: Table, wr: Table, one: Table, two: Table, out: Rows, r: nat, h: nat)
    requires BatchOk(b) && ParamsOk(p) && WriteFits(p, b, first) && WriteFits(p, b, wr) && r < |b.lens| && h < |p.gates|
    requires IsExp(p.proto.exp) && p.proto.feat > 0 && DistinctSlots(JobsOf(b)) && TableShaped(p, first)
    requires Served(p, JobsOf(b), None, first, one) && Served(p, JobsOf(b), Some(first), wr, two)
    requires RowsServed(p, b, None, first, out, |b.lens|)
    ensures WriteFits(p, b, one) && WriteFits(p, b, two) && AliasedRun(p, b, first, one, two, out, r, h)
  {
    hide SlotCell, HeadCell, Slice, Reads, LensOk, Update, RunState, Repeat, HeadBlock, IsExp, RowsAre, OutRow,
         Shaped, StateHead, Members;
    var s, k, head, toks := b.slots[r], StateHead(p, h), HeadOf(p, h), Slice(b, r);
    var blk := HeadBlock(p, toks, h);
    var n := |p.gates|;
    SlotAlone(p, JobsOf(b), None, first[s][k], r, k);
    SlotAlone(p, JobsOf(b), Some(first[s][k]), wr[s][k], r, k);
    AliasedCell(p, toks, first[s][k], h, n);
    SeparateCell(p, toks, first[s][k], wr[s][k], h, n);
    ReadsAlone(p, b, None, first, r, h);
    AliasedCell(p, toks, first[s][k], h, h);
    RankOf(p, h);
    MemberOf(p, h, n);
    ShapedHead(p, first[s][k], h);
    AliasedGroup(head, first[s][k], blk, Members(p, k, n));
    assert RowsAre(p, b, out, r, h, Reads(p, b, None, first, r, h));
  }

  lemma ShapedHead(p: Params, st: State, h: nat)
    requires h < |p.gates| && StateHead(p, h) < |p.w|
    ensures Shaped(p.proto, st) <==> Shaped(HeadOf(p, h), st)
  {}

  lemma {:induction false} MemberOf(p: Params, h: nat, n: nat)
    requires h < n
    ensures Members(p, StateHead(p, h), n) > 0
  {
    if h < n - 1 { MemberOf(p, h, n - 1); }
  }

  // ----- one call per block -----

  function Column(rows: Rows, h: nat): seq<Vec>
    requires forall t :: 0 <= t < |rows| ==> h < |rows[t]|
  {
    seq(|rows|, t requires 0 <= t < |rows| => rows[t][h])
  }

  /** At head h: what iterating over all tokens gives is the rows so far, then iterating over the rest from st. */
  ghost predicate Iterates(p: Params, first: State, toks: seq<Qkv>, rows: Rows, st: State, lo: nat, h: nat)
    requires h < |p.gates| && StateHead(p, h) < |p.w| && p.proto.blockSize > 0 && lo <= |toks|
  {
    var head, all, rest := HeadOf(p, h), HeadBlock(p, toks, h), HeadBlock(p, toks[lo..], h);
    && Shaped(head, first) && Shaped(head, st) && |rows| == lo && (forall t :: 0 <= t < |rows| ==> h < |rows[t]|)
    && IteratedOut(head, first, all) == Column(rows, h) + IteratedOut(head, st, rest)
    && IteratedState(head, first, all) == IteratedState(head, st, rest)
  }

  lemma IterateStart(p: Params, st: State, toks: seq<Qkv>, h: nat)
    requires h < |p.gates| && StateHead(p, h) < |p.w| && p.proto.blockSize > 0 && Shaped(p.proto, st)
    ensures Iterates(p, st, toks, [], st, 0, h)
  {
    hide IteratedOut, IteratedState, HeadBlock;
    ShapedHead(p, st, h);
    assert toks[0..] == toks;
    assert Column([], h) == [];
  }

  lemma BlockSlices(p: Params, toks: seq<Qkv>, h: nat, n: nat)
    requires n <= |toks|
    ensures HeadBlock(p, toks, h)[..n] == HeadBlock(p, toks[..n], h)
    ensures HeadBlock(p, toks, h)[n..] == HeadBlock(p, toks[n..], h)
  {}

  lemma TileIsOut(p: Params, st: State, toks: seq<Qkv>, tile: Rows, h: nat)
    requires h < |p.gates| && StateHead(p, h) < |p.w| && p.proto.kind.Hybrid? && Shaped(p.proto, st)
    requires IsGrid(tile, |toks|, |p.gates|) && forall t: nat :: t < |toks| ==> tile[t][h] == OutRow(p, st, toks, h, t)
    ensures Shaped(HeadOf(p, h), st) && Column(tile, h) == RefOut(HeadOf(p, h), st, HeadBlock(p, toks, h))
  {
    hide Row, RefRow, HeadBlock;
    var head, blk := HeadOf(p, h), HeadBlock(p, toks, h);
    ShapedHead(p, st, h);
    forall t: nat | t < |toks| ensures Column(tile, h)[t] == RefOut(head, st, blk)[t] {
      RefRowIsRow(head, st, blk, blk[t].q);
      assert tile[t][h] == OutRow(p, st, toks, h, t);
    }
  }

  lemma IterateNext(p: Params, first: State, toks: seq<Qkv>, rows: Rows, st: State, next: State, tile: Rows, lo: nat,
                    hi: nat, h: nat)
    requires h < |p.gates| && StateHead(p, h) < |p.w| && p.proto.kind.Hybrid? && p.proto.blockSize > 0
    requires Shaped(p.proto, st)
    requires lo < hi <= |toks| && hi - lo == Take(p.proto.blockSize, |toks| - lo)
    requires Iterates(p, first, toks, rows, st, lo, h) && next == NewState(p, st, toks[lo..hi], h)
    requires IsGrid(tile, hi - lo, |p.gates|)
    requires forall t: nat :: t < hi - lo ==> tile[t][h] == OutRow(p, st, toks[lo..hi], h, t)
    ensures Iterates(p, first, toks, rows + tile, next, hi, h)
  {
    hide RefOut, RefUpdate, Update, HeadBlock, OutRow;
    var head, rest, blk := HeadOf(p, h), HeadBlock(p, toks[lo..], h), toks[lo..hi];
    BlockSlices(p, toks[lo..], h, hi - lo);
    assert toks[lo..][..hi - lo] == blk && toks[lo..][hi - lo..] == toks[hi..];
    TileIsOut(p, st, blk, tile, h);
    RefUpdateIsUpdate(head, st, HeadBlock(p, blk, h));
    NextShaped(head, st, HeadBlock(p, blk, h));
    assert Column(rows + tile, h) == Column(rows, h) + Column(tile, h);
    AppendAssociates(Column(rows, h), Column(tile, h), IteratedOut(head, next, HeadBlock(p, toks[hi..], h)));
  }

  lemma IterateEnd(p: Params, first: State, toks: seq<Qkv>, rows: Rows, st: State, h: nat)
    requires h < |p.gates| && StateHead(p, h) < |p.w| && p.proto.kind.Hybrid? && p.proto.blockSize > 0
    requires Iterates(p, first, toks, rows, st, |toks|, h)
    ensures Column(rows, h) == Forward(HeadOf(p, h), first, HeadBlock(p, toks, h))
    ensures st == FinalState(HeadOf(p, h), first, HeadBlock(p, toks, h))
  {
    hide Forward, FinalState, RefOut, RefUpdate;
    IteratedIsForward(HeadOf(p, h), first, HeadBlock(p, toks, h));
    assert toks[|toks|..] == [];
    assert Column(rows, h) + [] == Column(rows, h);
  }

  /** One request whose tokens fill at most a block. */
  function OneBlockBatch(toks: seq<Qkv>, slot: nat, size: nat): (b: Batch)
    requires 0 < |toks| <= size
    ensures BatchOk(b) && |b.lens| == 1 && b.slots == [slot] && |b.toks| == |toks| && b.lens[0] == |toks|
    ensures Slice(b, 0) == toks && JobsOf(b) == [Job(slot, toks)] && Offset(b.lens, 0) == 0
  {
    var b := Batch(toks, [|toks|], [slot], size);
    assert Offset(b.lens, 1) == Offset(b.lens, 0) + b.lens[0];
    assert toks[0..|toks|] == toks;
    b
  }

  /** Serving one request from another state: its entries and its rows. */
  lemma OneServed(p: Params, toks: seq<Qkv>, slot: nat, size: nat, rd: Table, wr: Table, now: Table, tile: Rows, h: nat)
    requires ParamsOk(p) && 0 < |toks| <= size && h < |p.gates| && slot < |rd| && StateHead(p, h) < |rd[slot]|
    requires WriteFits(p, OneBlockBatch(toks, slot, size), wr)
    requires Served(p, [Job(slot, toks)], Some(rd), wr, now)
    requires RowsServed(p, OneBlockBatch(toks, slot, size), Some(rd), wr, tile, 1)
    ensures slot < |now| && StateHead(p, h) < |now[slot]|
    ensures now[slot][StateHead(p, h)] == NewState(p, rd[slot][StateHead(p, h)], toks, h)
    ensures IsGrid(tile, |toks|, |p.gates|)
    ensures forall t: nat :: t < |toks| ==> tile[t][h] == OutRow(p, rd[slot][StateHead(p, h)], toks, h, t)
  {
    hide HeadCell, OutRow, NewState, StateHead, LensOk;
    var k, b := StateHead(p, h), OneBlockBatch(toks, slot, size);
    SingleServed(p, Job(slot, toks), Some(rd), wr, now);
    SeparateCell(p, toks, rd[slot][k], wr[slot][k], h, |p.gates|);
    assert RowsAre(p, b, tile, 0, h, Reads(p, b, Some(rd), wr, 0, h));
    assert Reads(p, b, Some(rd), wr, 0, h) == rd[slot][k];
    forall t: nat | t < |toks| ensures tile[t][h] == OutRow(p, rd[slot][k], toks, h, t) {
      assert tile[Offset(b.lens, 0) + t][h] == OutRow(p, rd[slot][k], Slice(b, 0), h, t);
    }
  }

  lemma {:induction false} HeadCellShaped(p: Params, toks: seq<Qkv>, rd: State, st: State, k: nat, n: nat)
    requires ParamsOk(p) && n <= |p.gates| && Shaped(p.proto, rd) && Shaped(p.proto, st)
    ensures Shaped(p.proto, HeadCell(p, toks, Some(rd), st, k, n))
  {
    hide NewState, StateHead, Shaped;
    if n > 0 {
      HeadCellShaped(p, toks, rd, st, k, n - 1);
      NewShaped(p, rd, toks, n - 1);
    }
  }

  lemma ServedShaped(p: Params, job: Job, rd: Table, wr: Table, now: Table)
    requires ParamsOk(p) && TableShaped(p, rd) && TableShaped(p, wr) && Served(p, [job], Some(rd), wr, now)
    requires job.slot < |rd| && (forall s :: 0 <= s < |wr| && s < |rd| ==> |wr[s]| == |rd[s]|)
    ensures TableShaped(p, now)
  {
    hide HeadCell, SlotCell, Shaped;
    SingleServed(p, job, Some(rd), wr, now);
    forall s: nat, k: nat | s < |now| && k < |now[s]| ensures Shaped(p.proto, now[s][k]) {
      if s == job.slot { HeadCellShaped(p, job.toks, rd[s][k], wr[s][k], k, |p.gates|); }
    }
  }

  /**
   A sequence served block by block, each call reading the state the call before it wrote: the rows of every head
   are its multi-block `forward`, and the last state written is its final state.
   */
  method ExtendBlocks(p: Params, toks: seq<Qkv>, slot: nat, a: array2<State>, b: array2<State>)
      returns (last: array2<State>, ghost rows: Rows)
    requires ParamsOk(p) && p.proto.blockSize > 0 && (p.perQ ==> |p.w| == |p.gates|)
    requires a != b && a.Length0 == b.Length0 && a.Length1 == b.Length1 && slot < a.Length0
    requires forall h: nat :: h < |p.gates| ==> StateHead(p, h) < a.Length1
    requires StatesShaped(p, a) && StatesShaped(p, b)
    modifies a, b
    ensures last == a || last == b
    ensures IsGrid(rows, |toks|, |p.gates|)
    ensures forall h: nat :: h < |p.gates| ==>
      Column(rows, h) == Forward(HeadOf(p, h), old(a[slot, StateHead(p, h)]), HeadBlock(p, toks, h))
    ensures forall h: nat :: h < |p.gates| ==>
      last[slot, StateHead(p, h)] == FinalState(HeadOf(p, h), old(a[slot, StateHead(p, h)]), HeadBlock(p, toks, h))
  {
    hide Forward, FinalState, HeadBlock, Iterates, Shaped, Served, RowsServed, Column;
    ghost var first := Contents(a);
    var size, lo, spare := p.proto.blockSize, 0, b;
    last, rows := a, [];
    forall h: nat | h < |p.gates|
      ensures Iterates(p, first[slot][StateHead(p, h)], toks, [], a[slot, StateHead(p, h)], 0, h)
    {
      IterateStart(p, a[slot, StateHead(p, h)], toks, h);
    }
    while lo < |toks|
      invariant lo <= |toks| && last != spare && {last, spare} == {a, b} && IsGrid(rows, lo, |p.gates|)
      invariant StatesShaped(p, last) && StatesShaped(p, spare)
      invariant forall h: nat :: h < |p.gates| ==>
        Iterates(p, first[slot][StateHead(p, h)], toks, rows, last[slot, StateHead(p, h)], lo, h)
    {
      var hi := lo + Take(size, |toks| - lo);
      var blk := toks[lo..hi];
      ghost var rd, wr := Contents(last), Contents(spare);
      ShapedTable(p, last);
      ShapedTable(p, spare);
      var ok, tile := Extend(p, OneBlockBatch(blk, slot, size), last, spare);
      ServedShaped(p, Job(slot, blk), rd, wr, Contents(spare));
      ShapedTable(p, spare);
      forall h: nat | h < |p.gates|
        ensures Iterates(p, first[slot][StateHead(p, h)], toks, rows + Contents(tile),
                         spare[slot, StateHead(p, h)], hi, h)
      {
        OneServed(p, blk, slot, size, rd, wr, Contents(spare), Contents(tile), h);
        IterateNext(p, first[slot][StateHead(p, h)], toks, rows, last[slot, StateHead(p, h)],
          spare[slot, StateHead(p, h)], Contents(tile), lo, hi, h);
      }
      rows := rows + Contents(tile);
      last, spare, lo := spare, last, hi;
    }
    forall h: nat | h < |p.gates|
      ensures Column(rows, h) == Forward(HeadOf(p, h), first[slot][StateHead(p, h)], HeadBlock(p, toks, h))
      ensures last[slot, StateHead(p, h)] ==
        FinalState(HeadOf(p, h), first[slot][StateHead(p, h)], HeadBlock(p, toks, h))
    {
      IterateEnd(p, first[slot][StateHead(p, h)], toks, rows, last[slot, StateHead(p, h)], h);
    }
  }
}
