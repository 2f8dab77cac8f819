/**
 The reference kernels over a ragged batch of requests: the block plan, and the nested loops over requests
 and query heads that write `out` and the working state in place. The state read and the state written may be
 the same.
 */
module Kernel {
  import opened Wrappers
  import opened BlockMath
  import opened Vectors
  import opened Softmax
  import opened BlockAttention
  import opened Layers
  import opened KernelMath

  // ----- the plan -----

  /** Token offset of request r. */
  function Offset(lens: seq<int>, r: nat): int
    requires r <= |lens|
  {
    if r == 0 then 0 else Offset(lens, r - 1) + lens[r - 1]
  }

  datatype Plan = Plan(slots: seq<nat>, lens: seq<int>, starts: seq<int>, blockSize: int)
  datatype PlanResult = Planned(plan: Plan) | NonPositiveLength | TooLong

  ghost predicate LensOk(lens: seq<int>, blockSize: int) {
    forall r :: 0 <= r < |lens| ==> 0 < lens[r] <= blockSize
  }

  /** build_request_block_plan. */
  method BuildPlan(lens: seq<int>, slots: seq<nat>, blockSize: int) returns (r: PlanResult)
    ensures r.Planned? <==> LensOk(lens, blockSize)
    ensures r.NonPositiveLength? <==> exists i :: 0 <= i < |lens| && lens[i] <= 0
    ensures r.Planned? ==>
      && r.plan.lens == lens && r.plan.blockSize == blockSize && (|lens| > 0 ==> r.plan.slots == slots)
      && |r.plan.starts| == |lens| && forall i :: 0 <= i < |lens| ==> r.plan.starts[i] == Offset(lens, i)
  {
    if |lens| == 0 {
      return Planned(Plan([], [], [], blockSize));
    }
    if exists i :: 0 <= i < |lens| && lens[i] <= 0 {
      return NonPositiveLength;
    }
    if exists i :: 0 <= i < |lens| && lens[i] > blockSize {
      return TooLong;
    }
    var starts := [0];
    for i := 1 to |lens|
      invariant |starts| == i && forall k :: 0 <= k < i ==> starts[k] == Offset(lens, k)
    {
      starts := starts + [starts[i - 1] + lens[i - 1]];
    }
    return Planned(Plan(slots, lens, starts, blockSize));
  }

  /** The requests tile the token axis: every token below the total belongs to exactly one request. */
  lemma {:induction false} PlanPartitions(lens: seq<int>, blockSize: int, t: int)
    requires LensOk(lens, blockSize) && 0 <= t < Offset(lens, |lens|)
    ensures exists r :: 0 <= r < |lens| && Offset(lens, r) <= t < Offset(lens, r) + lens[r]
    ensures forall a, b :: 0 <= a < b < |lens| && Offset(lens, a) <= t < Offset(lens, a) + lens[a] ==>
      t < Offset(lens, b)
  {
    OwnerExists(lens, blockSize, t, |lens|);
    forall a, b | 0 <= a < b < |lens| ensures Offset(lens, a) + lens[a] <= Offset(lens, b) {
      OffsetOrder(lens, blockSize, a, b);
    }
  }

  lemma {:induction false} OwnerExists(lens: seq<int>, blockSize: int, t: int, n: nat)
    requires LensOk(lens, blockSize) && n <= |lens| && 0 <= t < Offset(lens, n)
    ensures exists r :: 0 <= r < n && Offset(lens, r) <= t < Offset(lens, r) + lens[r]
  {
    if t < Offset(lens, n - 1) {
      OwnerExists(lens, blockSize, t, n - 1);
      var r :| 0 <= r < n - 1 && Offset(lens, r) <= t < Offset(lens, r) + lens[r];
      assert 0 <= r < n;
    } else {
      assert Offset(lens, n - 1) <= t < Offset(lens, n - 1) + lens[n - 1];
    }
  }

  lemma {:induction false} OffsetOrder(lens: seq<int>, blockSize: int, a: nat, b: nat)
    requires LensOk(lens, blockSize) && a < b <= |lens|
    ensures 0 <= Offset(lens, a) && Offset(lens, a) + lens[a] <= Offset(lens, b)
    decreases b
  {
    if a + 1 < b { OffsetOrder(lens, blockSize, a, b - 1); }
    if a > 0 { OffsetOrder(lens, blockSize, a - 1, a); }
  }

  // ----- one request -----

  /** What both reference kernels are given besides the states. */
  datatype Batch = Batch(toks: seq<Qkv>, lens: seq<int>, slots: seq<nat>, blockSize: int)

  /** W and one gate per query head. W and the states are per query head, or per key/value head. */
  datatype Params = Params(proto: Head, w: seq<Mat>, gates: seq<real>, groups: pos, perQ: bool) {
    /** How many query heads share an entry of W and of the state. */
    const share: pos := if perQ then 1 else groups
  }

  ghost predicate BatchOk(b: Batch) {
    && LensOk(b.lens, b.blockSize) && |b.slots| == |b.lens| && Offset(b.lens, |b.lens|) <= |b.toks|
  }

  ghost predicate ParamsOk(p: Params) {
    && p.proto.kind.Hybrid?
    && forall h: nat :: h < |p.gates| ==> StateHead(p, h) < |p.w|
  }

  /** The entry of W and of the state that query head h uses. */
  function StateHead(p: Params, h: nat): nat {
    h / p.share
  }

  function HeadOf(p: Params, h: nat): Head
    requires h < |p.gates| && StateHead(p, h) < |p.w|
  {
    p.proto.(proj := p.w[StateHead(p, h)], kind := Hybrid(p.gates[h]))
  }

  lemma LastOffset(b: Batch, r: nat)
    requires BatchOk(b) && r < |b.lens|
    ensures 0 <= Offset(b.lens, r) <= Offset(b.lens, r) + b.lens[r] <= |b.toks|
  {
    OffsetOrder(b.lens, b.blockSize, r, |b.lens|);
  }

  /** The tokens of request r. */
  function Slice(b: Batch, r: nat): (toks: seq<Qkv>)
    requires BatchOk(b) && r < |b.lens|
    ensures |toks| == b.lens[r] > 0
  {
    LastOffset(b, r);
    b.toks[Offset(b.lens, r)..Offset(b.lens, r) + b.lens[r]]
  }

  /** The tokens as head h sees them. */
  function HeadBlock(p: Params, toks: seq<Qkv>, h: nat): (blk: seq<Entry>)
    ensures |blk| == |toks| && AllValid(blk)
  {
    HeadEntries(toks, p.groups, h, true)
  }

  /** What head h writes after reading st. */
  function NewState(p: Params, st: State, toks: seq<Qkv>, h: nat): State
    requires h < |p.gates| && StateHead(p, h) < |p.w|
  {
    Update(HeadOf(p, h), st, HeadBlock(p, toks, h))
  }

  lemma NewShaped(p: Params, st: State, toks: seq<Qkv>, h: nat)
    requires h < |p.gates| && StateHead(p, h) < |p.w| && Shaped(p.proto, st)
    ensures Shaped(p.proto, NewState(p, st, toks, h))
  {
    hide Update;
    UpdateShaped(HeadOf(p, h), st, HeadBlock(p, toks, h));
  }

  /** All query heads of a group write the same state. */
  lemma SameGroup(p: Params, st: State, toks: seq<Qkv>, h: nat, h': nat)
    requires ParamsOk(p) && h < |p.gates| && h' < |p.gates| && StateHead(p, h) == StateHead(p, h')
    ensures NewState(p, st, toks, h) == NewState(p, st, toks, h')
  {
    hide Phi, MatTMul, ColSums, MatAdd, Add;
    if p.share == 1 {
      assert h / 1 == h && h' / 1 == h';
    }
    var x, y, u, v := HeadOf(p, h), HeadOf(p, h'), HeadBlock(p, toks, h), HeadBlock(p, toks, h');
    SamePhi(x, y);
    assert Features(x, u) == Features(y, v) && Values(x, u) == Values(y, v);
  }

  lemma SamePhi(x: Head, y: Head)
    requires x.exp == y.exp && x.proj == y.proj && x.feat == y.feat
    ensures forall k :: Phi(x, k) == Phi(y, k)
  {
    hide Hedgehog;
  }

  /** The output row of token t at head h. */
  function OutRow(p: Params, st: State, toks: seq<Qkv>, h: nat, t: nat): Vec
    requires t < |toks| && h < |p.gates| && StateHead(p, h) < |p.w|
  {
    var blk := HeadBlock(p, toks, h);
    Row(HeadOf(p, h), st, blk, blk[t].q)
  }

  // ----- cells of the written state -----

  /**
   Entry k of a request's slot after its heads below n have written. `src` is what they read: an entry of
   another state, or nothing if they read the entry they write.
   */
  function HeadCell(p: Params, toks: seq<Qkv>, src: Option<State>, st: State, k: nat, n: nat): State
    requires ParamsOk(p) && n <= |p.gates|
  {
    if n == 0 then st
    else
      var prev := HeadCell(p, toks, src, st, k, n - 1);
      if StateHead(p, n - 1) == k then NewState(p, if src.Some? then src.value else prev, toks, n - 1) else prev
  }

  /** What head h of a request reads when its slot held st before the request. */
  function Seen(p: Params, toks: seq<Qkv>, src: Option<State>, st: State, h: nat): State
    requires ParamsOk(p) && h < |p.gates|
  {
    if src.Some? then src.value else HeadCell(p, toks, src, st, StateHead(p, h), h)
  }

  /** A request: the slot it owns and its tokens. */
  datatype Job = Job(slot: nat, toks: seq<Qkv>)

  function JobsOf(b: Batch): (jobs: seq<Job>)
    requires BatchOk(b)
    ensures |jobs| == |b.lens| && forall r :: 0 <= r < |jobs| ==> jobs[r] == Job(b.slots[r], Slice(b, r))
  {
    seq(|b.lens|, r requires 0 <= r < |b.lens| => Job(b.slots[r], Slice(b, r)))
  }

  /** Entry k of slot s after the requests have been served in order. */
  function SlotCell(p: Params, jobs: seq<Job>, src: Option<State>, st: State, s: nat, k: nat): State
    requires ParamsOk(p)
  {
    if |jobs| == 0 then st
    else
      var last := |jobs| - 1;
      var prev := SlotCell(p, jobs[..last], src, st, s, k);
      if jobs[last].slot == s then HeadCell(p, jobs[last].toks, src, prev, k, |p.gates|) else prev
  }

  /** What head h of request r reads when its slot held st before the batch. */
  function SeenBy(p: Params, jobs: seq<Job>, r: nat, src: Option<State>, st: State, h: nat): State
    requires ParamsOk(p) && r < |jobs| && h < |p.gates|
  {
    Seen(p, jobs[r].toks, src, SlotCell(p, jobs[..r], src, st, jobs[r].slot, StateHead(p, h)), h)
  }

  lemma SlotStep(p: Params, jobs: seq<Job>, r: nat, src: Option<State>, st: State, s: nat, k: nat)
    requires ParamsOk(p) && r < |jobs|
    ensures SlotCell(p, jobs[..r + 1], src, st, s, k)
         == (if jobs[r].slot == s
             then HeadCell(p, jobs[r].toks, src, SlotCell(p, jobs[..r], src, st, s, k), k, |p.gates|)
             else SlotCell(p, jobs[..r], src, st, s, k))
  {
    hide HeadCell;
    assert jobs[..r + 1][..r] == jobs[..r];
  }

  // ----- the extend -----

  /** The contents of a two-dimensional array. */
  ghost function Contents<T>(a: array2<T>): (t: seq<seq<T>>)
    reads a
    ensures IsGrid(t, a.Length0, a.Length1)
    ensures forall s, k :: 0 <= s < a.Length0 && 0 <= k < a.Length1 ==> t[s][k] == a[s, k]
  {
    seq(a.Length0, s requires 0 <= s < a.Length0 reads a =>
      seq(a.Length1, k requires 0 <= k < a.Length1 reads a => a[s, k]))
  }

  ghost predicate IsGrid<T>(t: seq<seq<T>>, rows: nat, cols: nat) {
    |t| == rows && forall s :: 0 <= s < |t| ==> |t[s]| == cols
  }

  type Table = seq<seq<State>>
  type Rows = seq<seq<Vec>>

  /** What is read besides the written state: another state's contents, or nothing if both are one. */
  ghost function Other(read: array2<State>, write: array2<State>): Option<Table>
    reads read
  {
    if read == write then None else Some(Contents(read))
  }

  function SourceAt(rd: Option<Table>, s: nat, k: nat): Option<State> {
    if rd.Some? && s < |rd.value| && k < |rd.value[s]| then Some(rd.value[s][k]) else None
  }

  ghost predicate StatesShaped(p: Params, a: array2<State>)
    reads a
  {
    forall s, k :: 0 <= s < a.Length0 && 0 <= k < a.Length1 ==> Shaped(p.proto, a[s, k])
  }

  ghost predicate Fits(p: Params, b: Batch, slots: nat, heads: nat) {
    && (forall r :: 0 <= r < |b.slots| ==> b.slots[r] < slots)
    && (forall h: nat :: h < |p.gates| ==> StateHead(p, h) < heads)
  }

  /** Column h of `out` holds the rows of request r for a head that read `seen`. */
  ghost predicate RowsAre(p: Params, b: Batch, out: Rows, r: nat, h: nat, seen: State)
    requires BatchOk(b) && ParamsOk(p) && r < |b.lens| && h < |p.gates| && IsGrid(out, |b.toks|, |p.gates|)
  {
    LastOffset(b, r);
    forall t: nat :: t < b.lens[r] ==> out[Offset(b.lens, r) + t][h] == OutRow(p, seen, Slice(b, r), h, t)
  }

  lemma RowsKept(p: Params, b: Batch, was: Rows, out: Rows, r: nat, h: nat, seen: State)
    requires BatchOk(b) && ParamsOk(p) && r < |b.lens| && h < |p.gates|
    requires IsGrid(was, |b.toks|, |p.gates|) && IsGrid(out, |b.toks|, |p.gates|) && RowsAre(p, b, was, r, h, seen)
    requires forall t :: 0 <= t < |b.toks| && Offset(b.lens, r) <= t < Offset(b.lens, r) + b.lens[r] ==>
      out[t][h] == was[t][h]
    ensures RowsAre(p, b, out, r, h, seen)
  {
    hide OutRow, Slice, LensOk;
    LastOffset(b, r);
    forall t: nat | t < b.lens[r] ensures out[Offset(b.lens, r) + t][h] == OutRow(p, seen, Slice(b, r), h, t) {
      assert out[Offset(b.lens, r) + t][h] == was[Offset(b.lens, r) + t][h];
    }
  }

  /** Entry by entry, `now` is what serving `jobs` leaves in a state that held wr, reading rd. */
  ghost predicate Served(p: Params, jobs: seq<Job>, rd: Option<Table>, wr: Table, now: Table)
    requires ParamsOk(p)
  {
    && |now| == |wr|
    && (forall s :: 0 <= s < |wr| ==> |now[s]| == |wr[s]|)
    && forall s: nat, k: nat :: s < |wr| && k < |wr[s]| ==>
      now[s][k] == SlotCell(p, jobs, SourceAt(rd, s, k), wr[s][k], s, k)
  }

  /** What head h of request r of the batch reads. */
  ghost function Reads(p: Params, b: Batch, rd: Option<Table>, wr: Table, r: nat, h: nat): State
    requires BatchOk(b) && ParamsOk(p) && r < |b.lens| && h < |p.gates|
    requires b.slots[r] < |wr| && StateHead(p, h) < |wr[b.slots[r]]|
  {
    var s, k := b.slots[r], StateHead(p, h);
    SeenBy(p, JobsOf(b), r, SourceAt(rd, s, k), wr[s][k], h)
  }

  ghost predicate WriteFits(p: Params, b: Batch, wr: Table) {
    && (forall r :: 0 <= r < |b.slots| ==> b.slots[r] < |wr|)
    && (forall s, h: nat :: 0 <= s < |wr| && h < |p.gates| ==> StateHead(p, h) < |wr[s]|)
  }

  /** `out` holds the rows of the first n requests. */
  ghost predicate RowsServed(p: Params, b: Batch, rd: Option<Table>, wr: Table, out: Rows, n: nat)
    requires BatchOk(b) && ParamsOk(p) && n <= |b.lens| && WriteFits(p, b, wr)
  {
    && IsGrid(out, |b.toks|, |p.gates|)
    && forall r: nat, h: nat :: r < n && h < |p.gates| ==> RowsAre(p, b, out, r, h, Reads(p, b, rd, wr, r, h))
  }

  /**
   ref_hybrid_extend and ref_hybrid_extend_per_q. The per-query-head form rejects a W that does not have one
   entry per query head.
   */
  method Extend(p: Params, b: Batch, read: array2<State>, write: array2<State>)
      returns (ok: bool, out: array2<Vec>)
    requires BatchOk(b) && ((p.perQ && |p.w| != |p.gates|) || ParamsOk(p)) && StatesShaped(p, read)
    requires Fits(p, b, read.Length0, read.Length1) && Fits(p, b, write.Length0, write.Length1)
    modifies write
    ensures fresh(out) && StatesShaped(p, read) && ok == !(p.perQ && |p.w| != |p.gates|)
    ensures !ok ==> Contents(write) == old(Contents(write))
    ensures ok ==> out.Length0 == |b.toks| && out.Length1 == |p.gates|
    ensures ok ==> Served(p, JobsOf(b), old(Other(read, write)), old(Contents(write)), Contents(write))
    ensures ok ==> RowsServed(p, b, old(Other(read, write)), old(Contents(write)), Contents(out), |b.lens|)
    ensures ok ==> forall t: nat, h: nat :: Offset(b.lens, |b.lens|) <= t < |b.toks| && h < |p.gates| ==>
      Contents(out)[t][h] == Zeros(p.proto.dim)
  {
    hide RowsAre, SlotCell, HeadCell, Slice, Shaped, Reads, Contents, JobsOf, Served, RowsServed;
    if p.perQ && |p.w| != |p.gates| {
      out := new Vec[0, 0];
      return false, out;
    }
    ok := true;
    out := new Vec[|b.toks|, |p.gates|]((_, _) => Zeros(p.proto.dim));
    ghost var jobs, rd, wr := JobsOf(b), Other(read, write), Contents(write);
    NoJobs(p, b, rd, wr, Contents(out));
    for r := 0 to |b.lens|
      invariant StatesShaped(p, read) && (rd.Some? ==> Other(read, write) == rd)
      invariant forall t: nat, h: nat :: Offset(b.lens, r) <= t < |b.toks| && h < |p.gates| ==>
        Contents(out)[t][h] == Zeros(p.proto.dim)
      invariant RowsServed(p, b, rd, wr, Contents(out), r)
      invariant Served(p, jobs[..r], rd, wr, Contents(write))
    {
      assert Offset(b.lens, r + 1) == Offset(b.lens, r) + b.lens[r];
      ghost var now, was := Contents(write), Contents(out);
      ExtendRequest(p, b, read, write, out, r);
      NextServed(p, jobs, rd, wr, now, Contents(write), r);
      NextRows(p, b, rd, wr, now, was, Contents(out), r);
    }
    assert jobs[..|b.lens|] == jobs;
  }

  lemma NoJobs(p: Params, b: Batch, rd: Option<Table>, wr: Table, out: Rows)
    requires BatchOk(b) && ParamsOk(p) && WriteFits(p, b, wr) && IsGrid(out, |b.toks|, |p.gates|)
    ensures Served(p, JobsOf(b)[..0], rd, wr, wr) && RowsServed(p, b, rd, wr, out, 0)
  {}

  /** One request more. */
  lemma NextServed(p: Params, jobs: seq<Job>, rd: Option<Table>, wr: Table, was: Table, now: Table, r: nat)
    requires ParamsOk(p) && r < |jobs| && Served(p, jobs[..r], rd, wr, was)
    requires HeadsServed(p, jobs[r], rd, was, now, |p.gates|)
    ensures Served(p, jobs[..r + 1], rd, wr, now)
  {
    hide SlotCell, HeadCell;
    forall s: nat, k: nat | s < |wr| && k < |wr[s]|
      ensures now[s][k] == SlotCell(p, jobs[..r + 1], SourceAt(rd, s, k), wr[s][k], s, k)
    {
      SlotStep(p, jobs, r, SourceAt(rd, s, k), wr[s][k], s, k);
      assert was[s][k] == SlotCell(p, jobs[..r], SourceAt(rd, s, k), wr[s][k], s, k);
    }
  }

  /** Only the rows of request r differ. */
  ghost predicate Outside(b: Batch, r: nat, was: Rows, out: Rows)
    requires r < |b.lens|
  {
    && |was| == |out|
    && forall t :: 0 <= t < |out| && !(Offset(b.lens, r) <= t < Offset(b.lens, r) + b.lens[r]) ==> out[t] == was[t]
  }

  lemma NextRows(p: Params, b: Batch, rd: Option<Table>, wr: Table, now: Table, was: Rows, out: Rows, r: nat)
    requires BatchOk(b) && ParamsOk(p) && r < |b.lens| && WriteFits(p, b, wr) && Served(p, JobsOf(b)[..r], rd, wr, now)
    requires RowsServed(p, b, rd, wr, was, r) && HeadRows(p, b, rd, now, out, r, |p.gates|) && Outside(b, r, was, out)
    ensures RowsServed(p, b, rd, wr, out, r + 1)
  {
    hide RowsAre, SlotCell, HeadCell, Slice, LensOk;
    forall r': nat, h: nat | r' < r && h < |p.gates| ensures RowsAre(p, b, out, r', h, Reads(p, b, rd, wr, r', h)) {
      OffsetOrder(b.lens, b.blockSize, r', r);
      RowsKept(p, b, was, out, r', h, Reads(p, b, rd, wr, r', h));
    }
    forall h: nat | h < |p.gates| ensures RowsAre(p, b, out, r, h, Reads(p, b, rd, wr, r, h)) {
      var s, k := b.slots[r], StateHead(p, h);
      assert now[s][k] == SlotCell(p, JobsOf(b)[..r], SourceAt(rd, s, k), wr[s][k], s, k);
      assert HeadReads(p, b, rd, now, r, h) == Reads(p, b, rd, wr, r, h);
    }
  }

  // ----- the heads of one request -----

  /** `now` is what the first n heads of one request leave in a state that held `was`. */
  ghost predicate HeadsServed(p: Params, job: Job, rd: Option<Table>, was: Table, now: Table, n: nat)
    requires ParamsOk(p) && n <= |p.gates|
  {
    && |now| == |was|
    && (forall s :: 0 <= s < |was| ==> |now[s]| == |was[s]|)
    && forall s: nat, k: nat :: s < |was| && k < |was[s]| ==>
        now[s][k] == if s == job.slot then HeadCell(p, job.toks, SourceAt(rd, s, k), was[s][k], k, n) else was[s][k]
  }

  ghost function HeadReads(p: Params, b: Batch, rd: Option<Table>, was: Table, r: nat, h: nat): State
    requires BatchOk(b) && ParamsOk(p) && r < |b.lens| && h < |p.gates|
    requires b.slots[r] < |was| && StateHead(p, h) < |was[b.slots[r]]|
  {
    var s, k := b.slots[r], StateHead(p, h);
    Seen(p, Slice(b, r), SourceAt(rd, s, k), was[s][k], h)
  }

  /** `out` holds the rows of the first n heads of request r, served in a state that held `was`. */
  ghost predicate HeadRows(p: Params, b: Batch, rd: Option<Table>, was: Table, out: Rows, r: nat, n: nat)
    requires BatchOk(b) && ParamsOk(p) && r < |b.lens| && n <= |p.gates| && WriteFits(p, b, was)
  {
    && IsGrid(out, |b.toks|, |p.gates|)
    && forall h: nat :: h < n ==> RowsAre(p, b, out, r, h, HeadReads(p, b, rd, was, r, h))
  }

  /** All heads of request r. */
  method ExtendRequest(p: Params, b: Batch, read: array2<State>, write: array2<State>, out: array2<Vec>, r: nat)
    requires BatchOk(b) && ParamsOk(p) && StatesShaped(p, read) && r < |b.lens|
    requires Fits(p, b, read.Length0, read.Length1) && Fits(p, b, write.Length0, write.Length1)
    requires out.Length0 == |b.toks| && out.Length1 == |p.gates|
    modifies write, out
    ensures StatesShaped(p, read)
    ensures HeadsServed(p, Job(b.slots[r], Slice(b, r)), old(Other(read, write)), old(Contents(write)),
      Contents(write), |p.gates|)
    ensures HeadRows(p, b, old(Other(read, write)), old(Contents(write)), Contents(out), r, |p.gates|)
    ensures Outside(b, r, old(Contents(out)), Contents(out))
  {
    hide OutRow, NewState, LensOk, StateHead, Shaped, Slice, RowsAre, HeadCell, Contents, HeadsServed, HeadRows;
    ghost var rd, first, job := Other(read, write), Contents(write), Job(b.slots[r], Slice(b, r));
    NoHeads(p, b, r, rd, first, Contents(out));
    for h := 0 to |p.gates|
      invariant StatesShaped(p, read) && (rd.Some? ==> Other(read, write) == rd)
      invariant HeadsServed(p, job, rd, first, Contents(write), h)
      invariant HeadRows(p, b, rd, first, Contents(out), r, h)
      invariant Outside(b, r, old(Contents(out)), Contents(out))
    {
      ghost var was, rows := Contents(write), Contents(out);
      HeadReadsCell(p, b, rd, first, was, r, h);
      ExtendHead(p, b, read, write, out, r, h);
      NextHead(p, job, rd, first, was, Contents(write), h);
      NextHeadRows(p, b, rd, first, rows, Contents(out), r, h);
    }
  }

  lemma NoHeads(p: Params, b: Batch, r: nat, rd: Option<Table>, was: Table, out: Rows)
    requires BatchOk(b) && ParamsOk(p) && r < |b.lens| && WriteFits(p, b, was) && IsGrid(out, |b.toks|, |p.gates|)
    ensures HeadsServed(p, Job(b.slots[r], Slice(b, r)), rd, was, was, 0) && HeadRows(p, b, rd, was, out, r, 0)
  {}

  /** A head that reads the written state finds what the heads before it left. */
  lemma HeadReadsCell(p: Params, b: Batch, rd: Option<Table>, first: Table, was: Table, r: nat, h: nat)
    requires BatchOk(b) && ParamsOk(p) && r < |b.lens| && h < |p.gates| && WriteFits(p, b, first)
    requires HeadsServed(p, Job(b.slots[r], Slice(b, r)), rd, first, was, h)
    ensures var s, k := b.slots[r], StateHead(p, h);
            HeadReads(p, b, rd, first, r, h) == if SourceAt(rd, s, k).Some? then rd.value[s][k] else was[s][k]
  {
    hide HeadCell, Slice, LensOk, StateHead;
  }

  /** Entry (slot, k) is now `cell`; all others are as they were. */
  ghost predicate Wrote(was: Table, now: Table, slot: nat, k: nat, cell: State)
    requires slot < |was| && k < |was[slot]|
  {
    now == was[slot := was[slot][k := cell]]
  }

  lemma NextHead(p: Params, job: Job, rd: Option<Table>, first: Table, was: Table, now: Table, h: nat)
    requires ParamsOk(p) && h < |p.gates| && HeadsServed(p, job, rd, first, was, h)
    requires job.slot < |first| && StateHead(p, h) < |first[job.slot]|
    requires var k := StateHead(p, h);
             Wrote(was, now, job.slot, k,
               NewState(p, Seen(p, job.toks, SourceAt(rd, job.slot, k), first[job.slot][k], h), job.toks, h))
    ensures HeadsServed(p, job, rd, first, now, h + 1)
  {
    hide NewState, StateHead;
    forall s: nat, k: nat | s < |first| && k < |first[s]|
      ensures now[s][k] == if s == job.slot
        then HeadCell(p, job.toks, SourceAt(rd, s, k), first[s][k], k, h + 1) else first[s][k]
    {
      assert was[s][k] == if s == job.slot
        then HeadCell(p, job.toks, SourceAt(rd, s, k), first[s][k], k, h) else first[s][k];
    }
  }

  /** Only the rows of request r at head h differ. */
  ghost predicate OutsideHead(b: Batch, r: nat, h: nat, was: Rows, out: Rows)
    requires r < |b.lens|
  {
    && |was| == |out|
    && (forall t :: 0 <= t < |out| && !(Offset(b.lens, r) <= t < Offset(b.lens, r) + b.lens[r]) ==> out[t] == was[t])
    && forall t, k :: 0 <= t < |out| && 0 <= k < |out[t]| && k < |was[t]| && k != h ==> out[t][k] == was[t][k]
  }

  lemma NextHeadRows(p: Params, b: Batch, rd: Option<Table>, first: Table, was: Rows, out: Rows, r: nat, h: nat)
    requires BatchOk(b) && ParamsOk(p) && r < |b.lens| && h < |p.gates| && WriteFits(p, b, first)
    requires HeadRows(p, b, rd, first, was, r, h) && IsGrid(out, |b.toks|, |p.gates|) && OutsideHead(b, r, h, was, out)
    requires RowsAre(p, b, out, r, h, HeadReads(p, b, rd, first, r, h))
    ensures HeadRows(p, b, rd, first, out, r, h + 1)
  {
    hide RowsAre, HeadReads, StateHead, LensOk;
    forall h': nat | h' < h ensures RowsAre(p, b, out, r, h', HeadReads(p, b, rd, first, r, h')) {
      RowsKept(p, b, was, out, r, h', HeadReads(p, b, rd, first, r, h'));
    }
  }

  /** One (request, head) program: the output tile and the new state. */
  method ExtendHead(p: Params, b: Batch, read: array2<State>, write: array2<State>, out: array2<Vec>, r: nat, h: nat)
    requires BatchOk(b) && ParamsOk(p) && StatesShaped(p, read) && r < |b.lens| && h < |p.gates|
    requires Fits(p, b, read.Length0, read.Length1) && Fits(p, b, write.Length0, write.Length1)
    requires out.Length0 == |b.toks| && out.Length1 == |p.gates|
    modifies write, out
    ensures StatesShaped(p, read)
    ensures RowsAre(p, b, Contents(out), r, h, old(read[b.slots[r], StateHead(p, h)]))
    ensures OutsideHead(b, r, h, old(Contents(out)), Contents(out))
    ensures Wrote(old(Contents(write)), Contents(write), b.slots[r], StateHead(p, h),
                  NewState(p, old(read[b.slots[r], StateHead(p, h)]), Slice(b, r), h))
  {
    hide Row, RefRow, RefUpdate, Update, HeadBlock, LensOk, Contents, Offset;
    LastOffset(b, r);
    var head, blk, st := HeadOf(p, h), HeadBlock(p, Slice(b, r), h), read[b.slots[r], StateHead(p, h)];
    WriteRows(head, st, blk, out, Offset(b.lens, r), h);
    RefUpdateIsUpdate(head, st, blk);
    NewShaped(p, st, Slice(b, r), h);
    ghost var was := Contents(write);
    write[b.slots[r], StateHead(p, h)] := RefUpdate(head, st, blk);
    GridUpdate(was, Contents(write), b.slots[r], StateHead(p, h), RefUpdate(head, st, blk));
  }

  lemma GridUpdate(was: Table, now: Table, s: nat, k: nat, cell: State)
    requires |was| == |now| && s < |was| && k < |was[s]| && (forall i :: 0 <= i < |was| ==> |was[i]| == |now[i]|)
    requires forall i, j :: 0 <= i < |was| && 0 <= j < |was[i]| ==>
      now[i][j] == if i == s && j == k then cell else was[i][j]
    ensures Wrote(was, now, s, k, cell)
  {
    forall i | 0 <= i < |was| ensures now[i] == was[s := was[s][k := cell]][i] {}
  }

  /** The rows of a block are stored in column h of the output, from row `start` on. */
  method WriteRows(head: Head, st: State, blk: seq<Entry>, out: array2<Vec>, start: nat, h: nat)
    requires head.kind.Hybrid? && Shaped(head, st) && AllValid(blk) && |blk| > 0
    requires start + |blk| <= out.Length0 && h < out.Length1
    modifies out
    ensures forall t, k :: 0 <= t < out.Length0 && 0 <= k < out.Length1 ==>
      out[t, k] == if k == h && start <= t < start + |blk| then Row(head, st, blk, blk[t - start].q) else old(out[t, k])
  {
    hide Row, RefRow;
    for i := 0 to |blk|
      invariant forall t, k :: 0 <= t < out.Length0 && 0 <= k < out.Length1 ==>
        out[t, k] == if k == h && start <= t < start + i then Row(head, st, blk, blk[t - start].q) else old(out[t, k])
    {
      RefRowIsRow(head, st, blk, blk[i].q);
      out[start + i, h] := RefRow(head, head.kind.gate, st, blk, blk[i].q);
    }
  }
}
