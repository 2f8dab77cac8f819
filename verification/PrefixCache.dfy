/**
 The prefix cache object and the forward pass that reads it or commits a block to it.
 Tensors carry a batch dimension: the cache of a layer holds one slot per batch row.
 */
module PrefixCache {
  import opened Wrappers
  import opened Vectors
  import opened Layers

  datatype CacheMode = Read | CommitBlock

  /** Slots of every layer and every batch row. */
  type Table = seq<seq<Slot>>

  ghost predicate RowsFit(l: Layer, slots: seq<Slot>, batch: nat) {
    |slots| == batch && forall b :: 0 <= b < batch ==> SlotFits(l, slots[b])
  }

  ghost predicate TableFits(m: Model, t: Table, batch: nat) {
    |t| == |m.layers| && forall n :: 0 <= n < |t| ==> RowsFit(m.layers[n], t[n], batch)
  }

  /** The slots of one batch row. */
  function RowOf(m: Model, t: Table, batch: nat, b: nat): (slots: seq<Slot>)
    requires TableFits(m, t, batch) && b < batch
    ensures SlotsFit(m, slots)
  {
    seq(|t|, n requires 0 <= n < |t| => t[n][b])
  }

  /** What a layer holds; a missing entry reads as empty. */
  function Held(l: Layer, batch: nat, entry: Option<seq<Slot>>): seq<Slot> {
    if entry.Some? then entry.value else seq(batch, _ => EmptySlot(l))
  }

  function TableOf(m: Model, batch: nat, kv: seq<Option<seq<Slot>>>, rec: seq<Option<seq<Slot>>>): (t: Table)
    requires |kv| == |rec| == |m.layers|
    ensures |t| == |m.layers|
  {
    seq(|m.layers|, n requires 0 <= n < |m.layers| =>
      Held(m.layers[n], batch, if m.layers[n].attn.SoftmaxAttn? then kv[n] else rec[n]))
  }

  function EmptyTable(m: Model, batch: nat): (t: Table)
    ensures TableFits(m, t, batch)
  {
    seq(|m.layers|, n requires 0 <= n < |m.layers| => seq(batch, _ => EmptySlot(m.layers[n])))
  }

  /** update_kv: keys and values of every row, appended to those already held. */
  function Appended(held: Option<seq<Slot>>, added: seq<Slot>): seq<Slot>
    requires forall b :: 0 <= b < |added| ==> added[b].Kv?
    requires held.Some? ==> |held.value| == |added| && forall b :: 0 <= b < |added| ==> held.value[b].Kv?
  {
    if held.None? then added
    else
      seq(|added|, b requires 0 <= b < |added| =>
        Kv(held.value[b].keys + added[b].keys, held.value[b].values + added[b].values))
  }

  class BlockDiffusionCache {
    var kvCache: seq<Option<seq<Slot>>>
    var recurrentState: seq<Option<seq<Slot>>>

    ghost predicate Valid(m: Model, batch: nat)
      reads this
    {
      && |kvCache| == |recurrentState| == |m.layers|
      && TableFits(m, TableOf(m, batch, kvCache, recurrentState), batch)
    }

    ghost function Contents(m: Model, batch: nat): Table
      requires Valid(m, batch)
      reads this
    {
      TableOf(m, batch, kvCache, recurrentState)
    }

    /** _init_prefix_cache: no keys and values yet, zero recurrent states. */
    constructor (m: Model, batch: nat)
      ensures Valid(m, batch) && Contents(m, batch) == EmptyTable(m, batch)
    {
      kvCache := seq(|m.layers|, _ => None);
      recurrentState := seq(|m.layers|, n requires 0 <= n < |m.layers| =>
        if m.layers[n].attn.RecurrentAttn? then Some(seq(batch, _ => EmptySlot(m.layers[n]))) else None);
    }

    method UpdateKv(n: nat, added: seq<Slot>)
      requires n < |kvCache| && forall b :: 0 <= b < |added| ==> added[b].Kv?
      requires kvCache[n].Some? ==>
        |kvCache[n].value| == |added| && forall b :: 0 <= b < |added| ==> kvCache[n].value[b].Kv?
      modifies this`kvCache
      ensures kvCache == old(kvCache)[n := Some(Appended(old(kvCache[n]), added))]
    {
      var held := kvCache[n];
      if held.None? {
        kvCache := kvCache[n := Some(added)];
      } else {
        var rows := [];
        for b := 0 to |added|
          invariant rows == Appended(held, added)[..b]
        {
          var oldKeys, oldValues := held.value[b].keys, held.value[b].values;
          rows := rows + [Kv(oldKeys + added[b].keys, oldValues + added[b].values)];
        }
        assert rows == Appended(held, added);
        kvCache := kvCache[n := Some(rows)];
      }
    }

    method UpdateRecurrentState(n: nat, states: seq<Slot>)
      requires n < |recurrentState|
      modifies this`recurrentState
      ensures recurrentState == old(recurrentState)[n := Some(states)]
    {
      recurrentState := recurrentState[n := Some(states)];
    }
  }

  /** The layer outputs of all rows, and the slots after committing them. */
  function CachedOuts(l: Layer, slots: seq<Slot>, hs: seq<seq<Vec>>, start: nat): (r: seq<seq<Vec>>)
    requires LayerOk(l) && RowsFit(l, slots, |hs|)
    ensures |r| == |hs|
  {
    seq(|hs|, b requires 0 <= b < |hs| => CachedOut(l, slots[b], hs[b], start))
  }

  function CommitRows(l: Layer, slots: seq<Slot>, hs: seq<seq<Vec>>, start: nat): (r: seq<Slot>)
    requires LayerOk(l) && RowsFit(l, slots, |hs|)
    ensures RowsFit(l, r, |hs|)
  {
    seq(|hs|, b requires 0 <= b < |hs| => Commit(l, slots[b], hs[b], start))
  }

  function NewKv(l: Layer, hs: seq<seq<Vec>>, start: nat): (r: seq<Slot>)
    ensures |r| == |hs| && forall b :: 0 <= b < |r| ==> r[b].Kv?
  {
    seq(|hs|, b requires 0 <= b < |hs| =>
      Kv(KeysOf(Project(l, hs[b], start)), ValuesOf(Project(l, hs[b], start))))
  }

  lemma AppendedCommits(l: Layer, held: Option<seq<Slot>>, hs: seq<seq<Vec>>, start: nat)
    requires l.attn.SoftmaxAttn? && RowsFit(l, Held(l, |hs|, held), |hs|)
    ensures Appended(held, NewKv(l, hs, start)) == CommitRows(l, Held(l, |hs|, held), hs, start)
  {
    hide Project;
    forall b | 0 <= b < |hs|
      ensures Appended(held, NewKv(l, hs, start))[b] == Commit(l, Held(l, |hs|, held)[b], hs[b], start)
    {
      var ks, vs := KeysOf(Project(l, hs[b], start)), ValuesOf(Project(l, hs[b], start));
      assert [] + ks == ks && [] + vs == vs;
    }
  }

  /** _forward_with_prefix_cache for layer n: use the slots, and in commit mode store the new ones. */
  method LayerForward(cache: BlockDiffusionCache, m: Model, n: nat, hs: seq<seq<Vec>>, start: nat, mode: CacheMode)
      returns (out: seq<seq<Vec>>)
    requires ModelOk(m) && n < |m.layers| && cache.Valid(m, |hs|)
    modifies cache
    ensures cache.Valid(m, |hs|)
    ensures out == CachedOuts(m.layers[n], old(cache.Contents(m, |hs|))[n], hs, start)
    ensures cache.Contents(m, |hs|) ==
      if mode.Read? then old(cache.Contents(m, |hs|))
      else old(cache.Contents(m, |hs|))[n := CommitRows(m.layers[n], old(cache.Contents(m, |hs|))[n], hs, start)]
  {
    hide CachedOut, Commit, Project, CachedOuts, CommitRows, Appended, NewKv;
    var l, batch := m.layers[n], |hs|;
    ghost var was := cache.Contents(m, batch);
    var entry := if l.attn.RecurrentAttn? then cache.recurrentState[n] else cache.kvCache[n];
    assert was[n] == Held(l, batch, entry);
    out := CachedOuts(l, Held(l, batch, entry), hs, start);
    if mode.CommitBlock? {
      if l.attn.RecurrentAttn? {
        cache.UpdateRecurrentState(n, CommitRows(l, Held(l, batch, entry), hs, start));
      } else {
        AppendedCommits(l, entry, hs, start);
        cache.UpdateKv(n, NewKv(l, hs, start));
      }
      assert TableOf(m, batch, cache.kvCache, cache.recurrentState) == was[n := CommitRows(l, was[n], hs, start)];
    }
  }

  /** Hidden states of all rows after n layers, and the table after committing the first n layers. */
  function HiddenRows(m: Model, t: Table, tokens: seq<seq<Token>>, start: nat, n: nat): (r: seq<seq<Vec>>)
    requires ModelOk(m) && TableFits(m, t, |tokens|) && n <= |m.layers|
    ensures |r| == |tokens|
  {
    seq(|tokens|, b requires 0 <= b < |tokens| =>
      CachedHidden(m, RowOf(m, t, |tokens|, b), Embed(m, tokens[b]), start, n))
  }

  function CommitTable(m: Model, t: Table, tokens: seq<seq<Token>>, start: nat, n: nat): (r: Table)
    requires ModelOk(m) && TableFits(m, t, |tokens|) && n <= |m.layers|
    ensures TableFits(m, r, |tokens|)
  {
    seq(|t|, k requires 0 <= k < |t| =>
      if k < n then CommitRows(m.layers[k], t[k], HiddenRows(m, t, tokens, start, k), start) else t[k])
  }

  lemma HiddenStep(m: Model, t: Table, tokens: seq<seq<Token>>, start: nat, n: nat)
    requires ModelOk(m) && TableFits(m, t, |tokens|) && n < |m.layers|
    ensures HiddenRows(m, t, tokens, start, n + 1) ==
      CachedOuts(m.layers[n], t[n], HiddenRows(m, t, tokens, start, n), start)
    ensures CommitTable(m, t, tokens, start, n + 1)
         == CommitTable(m, t, tokens, start, n)[
              n := CommitRows(m.layers[n], t[n], HiddenRows(m, t, tokens, start, n), start)]
  {
    hide CachedOut, Commit, CommitRows, Embed;
  }

  /** Committing the table row by row is committing every row. */
  lemma CommitTableRow(m: Model, t: Table, tokens: seq<seq<Token>>, start: nat, b: nat)
    requires ModelOk(m) && TableFits(m, t, |tokens|) && b < |tokens|
    ensures RowOf(m, CommitTable(m, t, tokens, start, |m.layers|), |tokens|, b)
         == CommitAll(m, RowOf(m, t, |tokens|, b), Embed(m, tokens[b]), start)
  {
    hide CachedHidden, Commit, Embed;
  }

  /** The forward pass of a block with the prefix cached, through all layers. */
  method CachedForward(cache: BlockDiffusionCache, m: Model, tokens: seq<seq<Token>>, start: nat, mode: CacheMode)
      returns (logits: seq<seq<Vec>>)
    requires ModelOk(m) && cache.Valid(m, |tokens|)
    modifies cache
    ensures cache.Valid(m, |tokens|) && |logits| == |tokens|
    ensures forall b :: 0 <= b < |tokens| ==>
      logits[b] == LogitRows(m, HiddenRows(m, old(cache.Contents(m, |tokens|)), tokens, start, |m.layers|)[b])
    ensures cache.Contents(m, |tokens|) ==
      if mode.Read? then old(cache.Contents(m, |tokens|))
      else CommitTable(m, old(cache.Contents(m, |tokens|)), tokens, start, |m.layers|)
  {
    hide CachedOut, Commit, CachedOuts, CommitRows, Embed, ModelOk, CachedHidden, TableOf;
    var batch := |tokens|;
    ghost var was := cache.Contents(m, batch);
    var hs := seq(batch, b requires 0 <= b < batch => Embed(m, tokens[b]));
    assert hs == HiddenRows(m, was, tokens, start, 0) by { HiddenStart(m, was, tokens, start); }
    assert was == CommitTable(m, was, tokens, start, 0);
    for n := 0 to |m.layers|
      invariant hs == HiddenRows(m, was, tokens, start, n)
      invariant cache.Valid(m, batch)
      invariant cache.Contents(m, batch) == if mode.Read? then was else CommitTable(m, was, tokens, start, n)
    {
      HiddenStep(m, was, tokens, start, n);
      assert cache.Contents(m, batch)[n] == was[n];
      hs := LayerForward(cache, m, n, hs, start, mode);
    }
    logits := seq(batch, b requires 0 <= b < batch && |hs| == batch => LogitRows(m, hs[b]));
  }

  lemma HiddenStart(m: Model, t: Table, tokens: seq<seq<Token>>, start: nat)
    requires ModelOk(m) && TableFits(m, t, |tokens|)
    ensures HiddenRows(m, t, tokens, start, 0) == seq(|tokens|, b requires 0 <= b < |tokens| => Embed(m, tokens[b]))
  {
    hide Embed;
  }
}
