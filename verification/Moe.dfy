/**
 Expert dispatch: the inference path sorts the (token, slot) pairs by expert, runs each expert on one
 contiguous segment and scatters the results back; the training path masks per expert. Both must give
 every token the weighted sum of its experts.
 */
module Moe {
  import opened Vectors
  import opened BlockMath
  import opened Sequences

  type Expert = Vec -> Vec

  /** Every token has k distinct experts. */
  ghost predicate Routed(ids: seq<seq<nat>>, experts: nat, k: pos) {
    forall t :: 0 <= t < |ids| ==> |ids[t]| == k && RowOk(ids[t], experts)
  }

  ghost predicate RowOk(row: seq<nat>, experts: nat) {
    && (forall j :: 0 <= j < |row| ==> row[j] < experts)
    && (forall i, j :: 0 <= i < j < |row| ==> row[i] != row[j])
  }

  /** What each slot of a token adds to coordinate d: its weight times the output of its expert there. */
  function Terms(experts: seq<Expert>, x: Vec, ids: seq<nat>, weights: Vec, d: nat): (r: Vec)
    requires RowOk(ids, |experts|)
    ensures |r| == |ids|
  {
    seq(|ids|, j requires 0 <= j < |ids| => Times(At(weights, j), At(experts[ids[j]](x), d)))
  }

  /** y is the mixture of the token's experts: every coordinate is the sum over the slots. */
  ghost predicate IsMixture(experts: seq<Expert>, x: Vec, ids: seq<nat>, weights: Vec, dim: nat, y: Vec)
    requires RowOk(ids, |experts|)
  {
    |y| == dim && forall d :: 0 <= d < dim ==> y[d] == Sum(Terms(experts, x, ids, weights, d))
  }

  // ----- the flattened expert ids -----

  /** Slot j of token t in the flattened ids. */
  lemma {:induction false} FlatAt(ids: seq<seq<nat>>, k: pos, t: nat, j: nat)
    requires (forall t :: 0 <= t < |ids| ==> |ids[t]| == k) && t < |ids| && j < k
    ensures |Flat<nat>(ids)| == Span(|ids|, k) && Span(t, k) + j < |Flat<nat>(ids)|
    ensures Flat<nat>(ids)[Span(t, k) + j] == ids[t][j]
  {
    var n := |ids| - 1;
    FlatLength(ids, k);
    FlatLength(ids[..n], k);
    SpanMonotone(t + 1, |ids|, k);
    if t < n {
      FlatAt(ids[..n], k, t, j);
    }
  }

  lemma {:induction false} FlatLength(ids: seq<seq<nat>>, k: pos)
    requires forall t :: 0 <= t < |ids| ==> |ids[t]| == k
    ensures |Flat<nat>(ids)| == Span(|ids|, k)
  {
    if |ids| > 0 { FlatLength(ids[..|ids| - 1], k); }
  }

  lemma Coordinates(p: nat, k: pos)
    ensures p == Span(p / k, k) + p % k && p % k < k
  {
    SpanIsProduct(p / k, k);
    assert p == k * (p / k) + p % k;
  }

  /** Position p of the flattened ids is slot p % k of token p / k. */
  lemma FlatIndex(ids: seq<seq<nat>>, k: pos, p: nat)
    requires (forall t :: 0 <= t < |ids| ==> |ids[t]| == k) && p < |Flat<nat>(ids)|
    ensures p / k < |ids| && p == Span(p / k, k) + p % k && Flat<nat>(ids)[p] == ids[p / k][p % k]
  {
    hide Flat, Span;
    FlatLength(ids, k);
    Coordinates(p, k);
    SpanBelow(p / k, |ids|, k);
    FlatAt(ids, k, p / k, p % k);
  }

  lemma SlotIndex(t: nat, j: nat, k: pos)
    requires j < k
    ensures (Span(t, k) + j) / k == t && (Span(t, k) + j) % k == j
  {
    SpanIsProduct(t, k);
    RemainderUnique(Span(t, k) + j, t, j, k);
  }

  lemma {:induction false} FlatInRange(ids: seq<seq<nat>>, experts: nat, k: pos)
    requires Routed(ids, experts, k)
    ensures forall p :: 0 <= p < |Flat<nat>(ids)| ==> Flat<nat>(ids)[p] < experts
  {
    if |ids| > 0 { FlatInRange(ids[..|ids| - 1], experts, k); }
  }

  // ----- counting -----

  /** How many elements are below e. */
  function Below(ms: multiset<nat>, e: nat): nat {
    if e == 0 then 0 else Below(ms, e - 1) + ms[e - 1]
  }

  lemma {:induction false} BelowAdd(a: multiset<nat>, b: multiset<nat>, e: nat)
    ensures Below(a + b, e) == Below(a, e) + Below(b, e)
  {
    if e > 0 { BelowAdd(a, b, e - 1); }
  }

  lemma {:induction false} BelowNone(ms: multiset<nat>, e: nat)
    requires forall x :: x in ms ==> x >= e
    ensures Below(ms, e) == 0
  {
    if e > 0 { BelowNone(ms, e - 1); }
  }

  lemma {:induction false} BelowOne(x: nat, e: nat)
    ensures Below(multiset{x}, e) == if x < e then 1 else 0
  {
    if e > 0 { BelowOne(x, e - 1); }
  }

  lemma {:induction false} BelowAll(s: seq<nat>, e: nat)
    requires forall p :: 0 <= p < |s| ==> s[p] < e
    ensures Below(multiset(s), e) == |s|
  {
    if |s| == 0 {
      BelowNone(multiset(s), e);
    } else {
      var n := |s| - 1;
      assert s == s[..n] + [s[n]];
      BelowAll(s[..n], e);
      BelowAdd(multiset(s[..n]), multiset{s[n]}, e);
      BelowOne(s[n], e);
    }
  }

  ghost predicate Sorted(s: seq<nat>) {
    forall a, b :: 0 <= a <= b < |s| ==> s[a] <= s[b]
  }

  /** In a sorted sequence the first Below(e) elements are exactly those below e. */
  lemma SegmentBound(s: seq<nat>, e: nat)
    requires Sorted(s)
    ensures Below(multiset(s), e) <= |s|
    ensures forall p :: 0 <= p < |s| ==> (s[p] < e <==> p < Below(multiset(s), e))
  {
    var m := 0;
    while m < |s| && s[m] < e
      invariant m <= |s| && forall p :: 0 <= p < m ==> s[p] < e
    {
      m := m + 1;
    }
    assert s == s[..m] + s[m..];
    BelowAdd(multiset(s[..m]), multiset(s[m..]), e);
    BelowAll(s[..m], e);
    BelowNone(multiset(s[m..]), e);
  }

  // ----- argsort -----

  function Identity(n: nat): seq<nat> {
    seq(n, i requires 0 <= i => i)
  }

  function Gathered(s: seq<nat>, idxs: seq<nat>): (r: seq<nat>)
    requires forall p :: 0 <= p < |idxs| ==> idxs[p] < |s|
    ensures |r| == |idxs|
  {
    seq(|idxs|, p requires 0 <= p < |idxs| => s[idxs[p]])
  }

  /** idxs rearranges 0..n-1 so that s is read in ascending order; ties in any order. */
  ghost predicate IsArgsort(s: seq<nat>, idxs: seq<nat>) {
    && |idxs| == |s|
    && (forall p :: 0 <= p < |idxs| ==> idxs[p] < |s|)
    && (forall a, b :: 0 <= a < b < |idxs| ==> idxs[a] != idxs[b])
    && multiset(idxs) == multiset(Identity(|s|))
    && Sorted(Gathered(s, idxs))
  }

  lemma {:induction false} GatherMultiset(s: seq<nat>, a: seq<nat>, b: seq<nat>)
    requires multiset(a) == multiset(b) && forall p :: 0 <= p < |a| ==> a[p] < |s|
    ensures |a| == |b| && forall p :: 0 <= p < |b| ==> b[p] < |s|
    ensures multiset(Gathered(s, a)) == multiset(Gathered(s, b))
    decreases |a|
  {
    hide Gathered;
    assert |a| == |multiset(a)| == |b|;
    forall p | 0 <= p < |b| ensures b[p] < |s| {
      assert b[p] in multiset(a);
    }
    if |a| > 0 {
      var n := |a| - 1;
      var x := a[n];
      RemoveAt(a, n);
      assert x in multiset(b);
      var j :| 0 <= j < |b| && b[j] == x;
      var rest := b[..j] + b[j + 1..];
      RemoveAt(b, j);
      assert a[..n] + a[n + 1..] == a[..n];
      assert multiset(rest) == multiset(b) - multiset{x};
      assert multiset(a[..n]) == multiset(a) - multiset{x};
      GatherMultiset(s, a[..n], rest);
      GatherTake(s, a, n);
      GatherTake(s, b, j);
    }
  }

  /** Dropping one index drops one gathered element. */
  lemma GatherTake(s: seq<nat>, a: seq<nat>, j: nat)
    requires j < |a| && forall p :: 0 <= p < |a| ==> a[p] < |s|
    ensures multiset(Gathered(s, a)) == multiset(Gathered(s, a[..j] + a[j + 1..])) + multiset{s[a[j]]}
  {
    var g := Gathered(s, a);
    RemoveAt(g, j);
    assert g[..j] + g[j + 1..] == Gathered(s, a[..j] + a[j + 1..]);
  }

  lemma SortedCounts(s: seq<nat>, idxs: seq<nat>)
    requires IsArgsort(s, idxs)
    ensures multiset(Gathered(s, idxs)) == multiset(s)
  {
    GatherMultiset(s, idxs, Identity(|s|));
    assert Gathered(s, Identity(|s|)) == s;
  }

  // ----- tokens per expert -----

  lemma {:induction false} RowCount(row: seq<nat>, experts: nat, e: nat)
    requires RowOk(row, experts)
    ensures multiset(row)[e] == if e in row then 1 else 0
  {
    if |row| > 0 {
      var n := |row| - 1;
      assert row == row[..n] + [row[n]];
      RowCount(row[..n], experts, e);
    }
  }

  /** Number of the first n tokens routed to expert e. */
  function TokenCount(ids: seq<seq<nat>>, e: nat, n: nat): nat
    requires n <= |ids|
  {
    if n == 0 then 0 else TokenCount(ids, e, n - 1) + (if e in ids[n - 1] then 1 else 0)
  }

  lemma {:induction false} TokenCountIs(ids: seq<seq<nat>>, experts: nat, k: pos, e: nat, n: nat)
    requires Routed(ids, experts, k) && n <= |ids|
    ensures TokenCount(ids, e, n) == multiset(Flat<nat>(ids[..n]))[e]
  {
    if n > 0 {
      TokenCountIs(ids, experts, k, e, n - 1);
      RowCount(ids[n - 1], experts, e);
      assert ids[..n][..n - 1] == ids[..n - 1];
      assert Flat<nat>(ids[..n]) == Flat<nat>(ids[..n - 1]) + ids[n - 1];
    }
  }

  /** A table of tokens by experts with a one for every routed pair. */
  method ScatterOnes(ids: seq<seq<nat>>, experts: nat, k: pos) returns (cnts: array2<nat>)
    requires Routed(ids, experts, k)
    ensures fresh(cnts) && cnts.Length0 == |ids| && cnts.Length1 == experts
    ensures forall a, e :: 0 <= a < |ids| && 0 <= e < experts ==> cnts[a, e] == if e in ids[a] then 1 else 0
  {
    cnts := new nat[|ids|, experts]((_, _) => 0);
    for t := 0 to |ids|
      invariant forall a, e :: 0 <= a < |ids| && 0 <= e < experts ==>
        cnts[a, e] == if a < t && e in ids[a] then 1 else 0
    {
      for j := 0 to k
        invariant forall a, e :: 0 <= a < |ids| && 0 <= e < experts ==>
          cnts[a, e] == if (a < t && e in ids[a]) || (a == t && e in ids[a][..j]) then 1 else 0
      {
        cnts[t, ids[t][j]] := 1;
      }
      assert ids[t][..k] == ids[t];
    }
  }

  /** The column of one expert, summed over the tokens. */
  method ColumnSum(cnts: array2<nat>, e: nat, ghost ids: seq<seq<nat>>) returns (c: nat)
    requires cnts.Length0 == |ids| && e < cnts.Length1
    requires forall a :: 0 <= a < |ids| ==> cnts[a, e] == if e in ids[a] then 1 else 0
    ensures c == TokenCount(ids, e, |ids|)
  {
    c := 0;
    for t := 0 to cnts.Length0
      invariant c == TokenCount(ids, e, t)
    {
      c := c + cnts[t, e];
    }
  }

  /** The ones summed over tokens count the pairs of every expert. */
  method TokensPerExpert(ids: seq<seq<nat>>, experts: nat, k: pos) returns (counts: seq<nat>)
    requires Routed(ids, experts, k)
    ensures |counts| == experts && forall e :: 0 <= e < experts ==> counts[e] == multiset(Flat<nat>(ids))[e]
  {
    hide Routed;
    var cnts := ScatterOnes(ids, experts, k);
    counts := [];
    for e := 0 to experts
      invariant |counts| == e && forall i :: 0 <= i < e ==> counts[i] == multiset(Flat<nat>(ids))[i]
      invariant forall a, e :: 0 <= a < |ids| && 0 <= e < experts ==> cnts[a, e] == if e in ids[a] then 1 else 0
    {
      var c := ColumnSum(cnts, e, ids);
      TokenCountIs(ids, experts, k, e, |ids|);
      assert ids[..|ids|] == ids;
      counts := counts + [c];
    }
  }

  // ----- inference -----

  /** Output of every (token, slot) pair before weighting. */
  function PairOut(experts: seq<Expert>, x: seq<Vec>, ids: seq<seq<nat>>, k: pos, p: nat): Vec
    requires Routed(ids, |experts|, k) && |x| == |ids| && p < |Flat<nat>(ids)|
  {
    FlatIndex(ids, k, p);
    FlatInRange(ids, |experts|, k);
    experts[Flat<nat>(ids)[p]](x[p / k])
  }

  /** One token: every slot's output, scaled by its weight, is added up. */
  method AddSlots(rows: seq<Vec>, weights: Vec, dim: nat, ghost experts: seq<Expert>, ghost x: Vec, ghost ids: seq<nat>)
      returns (y: Vec)
    requires RowOk(ids, |experts|) && |rows| == |ids| && forall j :: 0 <= j < |ids| ==> rows[j] == experts[ids[j]](x)
    ensures IsMixture(experts, x, ids, weights, dim, y)
  {
    hide Sum, Times;
    NoTerms();
    y := Zeros(dim);
    for j := 0 to |rows|
      invariant |y| == dim
      invariant forall d :: 0 <= d < dim ==> y[d] == Sum(Terms(experts, x, ids, weights, d)[..j])
    {
      var next := Add(y, Scale(At(weights, j), rows[j]));
      forall d | 0 <= d < dim ensures next[d] == Sum(Terms(experts, x, ids, weights, d)[..j + 1]) {
        NextTerm(Terms(experts, x, ids, weights, d), j);
        TimesZero(At(weights, j));
      }
      y := next;
    }
    forall d | 0 <= d < dim ensures y[d] == Sum(Terms(experts, x, ids, weights, d)) {
      var terms := Terms(experts, x, ids, weights, d);
      assert terms[..|rows|] == terms;
    }
  }

  lemma NoTerms()
    ensures Sum([]) == 0.0
  {}

  lemma NextTerm(terms: Vec, j: nat)
    requires j < |terms|
    ensures Sum(terms[..j + 1]) == Sum(terms[..j]) + terms[j]
  {
    assert terms[..j + 1][..j] == terms[..j];
  }

  lemma TimesZero(w: real)
    ensures Times(w, 0.0) == 0.0
  {}

  /** Every pair's output times its weight, summed over the slots of each token. */
  method WeightedSum(pairs: seq<Vec>, weights: seq<seq<real>>, k: pos, dim: nat,
                     ghost experts: seq<Expert>, ghost x: seq<Vec>, ghost ids: seq<seq<nat>>) returns (out: seq<Vec>)
    requires Routed(ids, |experts|, k) && |x| == |ids| == |weights| && |pairs| == |Flat<nat>(ids)|
    requires forall p :: 0 <= p < |pairs| ==> pairs[p] == PairOut(experts, x, ids, k, p)
    ensures |out| == |x| && forall t :: 0 <= t < |x| ==> IsMixture(experts, x[t], ids[t], weights[t], dim, out[t])
  {
    hide IsMixture;
    FlatLength(ids, k);
    out := [];
    for t := 0 to |weights|
      invariant |out| == t && forall a :: 0 <= a < t ==> IsMixture(experts, x[a], ids[a], weights[a], dim, out[a])
    {
      SpanMonotone(t + 1, |ids|, k);
      var rows := pairs[Span(t, k)..Span(t, k) + k];
      forall j | 0 <= j < k ensures rows[j] == experts[ids[t][j]](x[t]) {
        FlatAt(ids, k, t, j);
        SlotIndex(t, j, k);
      }
      var y := AddSlots(rows, weights[t], dim, experts, x[t], ids[t]);
      out := out + [y];
    }
  }

  /** Expert i on n consecutive tokens of the sorted order. */
  function Segment(experts: seq<Expert>, x: seq<Vec>, k: pos, idxs: seq<nat>, i: nat, from: nat, n: nat): (r: seq<Vec>)
    requires i < |experts| && from + n <= |idxs| && forall p :: 0 <= p < |idxs| ==> idxs[p] / k < |x|
    ensures |r| == n
  {
    seq(n, p requires 0 <= p < n => experts[i](x[idxs[from + p] / k]))
  }

  /** The outputs so far are those of the first pairs in sorted order. */
  ghost predicate PairsDone(experts: seq<Expert>, x: seq<Vec>, ids: seq<seq<nat>>, k: pos, idxs: seq<nat>,
                            outs: seq<Vec>)
    requires Routed(ids, |experts|, k) && |x| == |ids|
  {
    |outs| <= |idxs| && forall p :: 0 <= p < |outs| ==>
      idxs[p] < |Flat<nat>(ids)| && outs[p] == PairOut(experts, x, ids, k, idxs[p])
  }

  /** The experts run over their segments of the sorted tokens. */
  method RunSegments(experts: seq<Expert>, x: seq<Vec>, ids: seq<seq<nat>>, k: pos, idxs: seq<nat>)
    returns (outs: seq<Vec>)
    requires Routed(ids, |experts|, k) && |x| == |ids| && IsArgsort(Flat<nat>(ids), idxs)
    ensures |outs| == |Flat<nat>(ids)| == |idxs| && PairsDone(experts, x, ids, k, idxs, outs)
  {
    hide PairOut, Below, IsArgsort, PairsDone, Routed, Segment;
    var counts := TokensPerExpert(ids, |experts|, k);
    ghost var ms := multiset(Flat<nat>(ids));
    BelowZero(ms);
    TokensInRange(experts, x, ids, k, idxs);
    outs := [];
    var startIdx := 0;
    for i := 0 to |experts|
      invariant startIdx == |outs| == Below(ms, i) <= |Flat<nat>(ids)|
      invariant PairsDone(experts, x, ids, k, idxs, outs)
    {
      SegmentEnd(Flat<nat>(ids), idxs, i);
      if counts[i] != 0 {
        var endIdx := startIdx + counts[i];
        SegmentDone(experts, x, ids, k, idxs, i, outs);
        outs := outs + Segment(experts, x, k, idxs, i, startIdx, counts[i]);
        startIdx := endIdx;
      }
    }
    FlatInRange(ids, |experts|, k);
    BelowAll(Flat<nat>(ids), |experts|);
  }

  lemma TokensInRange(experts: seq<Expert>, x: seq<Vec>, ids: seq<seq<nat>>, k: pos, idxs: seq<nat>)
    requires Routed(ids, |experts|, k) && |x| == |ids| && IsArgsort(Flat<nat>(ids), idxs)
    ensures |idxs| == |Flat<nat>(ids)| && forall p :: 0 <= p < |idxs| ==> idxs[p] / k < |x|
    ensures PairsDone(experts, x, ids, k, idxs, [])
  {
    forall p | 0 <= p < |idxs| ensures idxs[p] / k < |x| { FlatIndex(ids, k, idxs[p]); }
  }

  lemma SegmentDone(experts: seq<Expert>, x: seq<Vec>, ids: seq<seq<nat>>, k: pos, idxs: seq<nat>, i: nat,
                    outs: seq<Vec>)
    requires Routed(ids, |experts|, k) && |x| == |ids| && IsArgsort(Flat<nat>(ids), idxs) && i < |experts|
    requires |outs| == Below(multiset(Flat<nat>(ids)), i) && PairsDone(experts, x, ids, k, idxs, outs)
    requires |outs| + multiset(Flat<nat>(ids))[i] <= |idxs| && forall p :: 0 <= p < |idxs| ==> idxs[p] / k < |x|
    ensures PairsDone(experts, x, ids, k, idxs,
                      outs + Segment(experts, x, k, idxs, i, |outs|, multiset(Flat<nat>(ids))[i]))
  {
    hide PairOut, Below, IsArgsort, Routed, Flat;
    var flat, n := Flat<nat>(ids), multiset(Flat<nat>(ids))[i];
    ArgsortRange(flat, idxs);
    var part := Segment(experts, x, k, idxs, i, |outs|, n);
    forall p: nat | p < |outs| + n
      ensures idxs[p] < |flat| && (outs + part)[p] == PairOut(experts, x, ids, k, idxs[p])
    {
      if |outs| <= p {
        SegmentAt(flat, idxs, i, p);
        PairOutAt(experts, x, ids, k, i, idxs[p]);
      }
    }
  }

  lemma PairOutAt(experts: seq<Expert>, x: seq<Vec>, ids: seq<seq<nat>>, k: pos, i: nat, q: nat)
    requires Routed(ids, |experts|, k) && |x| == |ids| && q < |Flat<nat>(ids)| && Flat<nat>(ids)[q] == i
    requires i < |experts|
    ensures q / k < |x| && PairOut(experts, x, ids, k, q) == experts[i](x[q / k])
  {
    FlatIndex(ids, k, q);
  }

  lemma BelowZero(ms: multiset<nat>)
    ensures Below(ms, 0) == 0
  {}

  /** The segment of expert i ends where that of the next one starts. */
  lemma SegmentEnd(flat: seq<nat>, idxs: seq<nat>, i: nat)
    requires IsArgsort(flat, idxs)
    ensures Below(multiset(flat), i + 1) == Below(multiset(flat), i) + multiset(flat)[i] <= |flat|
  {
    SortedCounts(flat, idxs);
    SegmentBound(Gathered(flat, idxs), i + 1);
  }

  /** Expert i's segment of the sorted order holds exactly the pairs routed to it. */
  lemma SegmentAt(flat: seq<nat>, idxs: seq<nat>, i: nat, p: nat)
    requires IsArgsort(flat, idxs) && p < |flat|
    ensures Below(multiset(flat), i) <= p < Below(multiset(flat), i) + multiset(flat)[i] <==> flat[idxs[p]] == i
  {
    hide Sorted;
    var sorted := Gathered(flat, idxs);
    SortedCounts(flat, idxs);
    SegmentBound(sorted, i);
    SegmentBound(sorted, i + 1);
    SegmentEnd(flat, idxs, i);
    assert sorted[p] == flat[idxs[p]];
  }

  lemma ArgsortRange(s: seq<nat>, idxs: seq<nat>)
    requires IsArgsort(s, idxs)
    ensures |idxs| == |s| && forall p :: 0 <= p < |idxs| ==> idxs[p] < |s|
  {}

  /** Every output goes back to the place its pair was sorted from. */
  method Unsort(outs: seq<Vec>, idxs: seq<nat>, ghost s: seq<nat>) returns (r: array<Vec>)
    requires IsArgsort(s, idxs) && |outs| == |s|
    ensures fresh(r) && r.Length == |s| && forall p :: 0 <= p < |s| ==> r[idxs[p]] == outs[p]
  {
    r := new Vec[|outs|](_ => []);
    for p := 0 to |outs|
      invariant forall a :: 0 <= a < p ==> r[idxs[a]] == outs[a]
    {
      r[idxs[p]] := outs[p];
    }
  }

  lemma Reached(s: seq<nat>, idxs: seq<nat>, q: nat)
    requires IsArgsort(s, idxs) && q < |s|
    ensures exists p :: 0 <= p < |idxs| && idxs[p] == q
  {
    assert Identity(|s|)[q] == q;
    assert q in multiset(Identity(|s|));
    assert q in multiset(idxs);
  }

  /** moe_infer: sorting by expert, segments and the inverse scatter give every token its mixture. */
  method MoeInfer(experts: seq<Expert>, x: seq<Vec>, ids: seq<seq<nat>>, weights: seq<seq<real>>, k: pos,
                  idxs: seq<nat>, dim: nat)
      returns (out: seq<Vec>)
    requires Routed(ids, |experts|, k) && |x| == |ids| == |weights| && |x| > 0 && IsArgsort(Flat<nat>(ids), idxs)
    ensures |out| == |x| && forall t :: 0 <= t < |x| ==> IsMixture(experts, x[t], ids[t], weights[t], dim, out[t])
  {
    var outs := RunSegments(experts, x, ids, k, idxs);
    var newX := Unsort(outs, idxs, Flat<nat>(ids));
    forall q | 0 <= q < newX.Length ensures newX[q] == PairOut(experts, x, ids, k, q) {
      Reached(Flat<nat>(ids), idxs, q);
      var p :| 0 <= p < |idxs| && idxs[p] == q;
      assert newX[idxs[p]] == outs[p];
    }
    out := WeightedSum(newX[..], weights, k, dim, experts, x, ids);
  }

  // ----- the order of the slots does not matter -----

  /** Permuting a token's slots, their ids and weights together, leaves its mixture as it was. */
  lemma MixturePermuted(experts: seq<Expert>, x: Vec, ids: seq<nat>, weights: Vec, perm: seq<nat>, ids': seq<nat>,
                        weights': Vec, dim: nat, y: Vec)
    requires RowOk(ids, |experts|) && RowOk(ids', |experts|) && multiset(perm) == multiset(Identity(|ids|))
    requires |ids| == |ids'| == |perm| && forall j :: 0 <= j < |perm| ==> perm[j] < |ids|
    requires forall j :: 0 <= j < |perm| ==> ids'[j] == ids[perm[j]] && At(weights', j) == At(weights, perm[j])
    requires IsMixture(experts, x, ids, weights, dim, y)
    ensures IsMixture(experts, x, ids', weights', dim, y)
  {
    hide Sum;
    forall d | 0 <= d < dim ensures y[d] == Sum(Terms(experts, x, ids', weights', d)) {
      var terms := Terms(experts, x, ids, weights, d);
      SumPicked(terms, Identity(|ids|), perm);
      assert Picked(terms, Identity(|ids|)) == terms;
      assert Picked(terms, perm) == Terms(experts, x, ids', weights', d);
    }
  }

  // ----- training -----

  /** The training path: every expert fills the rows its mask selects. */
  method MoeTraining(experts: seq<Expert>, x: seq<Vec>, ids: seq<seq<nat>>, weights: seq<seq<real>>, k: pos, dim: nat)
      returns (out: seq<Vec>)
    requires Routed(ids, |experts|, k) && |x| == |ids| == |weights| && |x| > 0
    ensures |out| == |x| && forall t :: 0 <= t < |x| ==> IsMixture(experts, x[t], ids[t], weights[t], dim, out[t])
  {
    var flat := Flat<nat>(ids);
    FlatInRange(ids, |experts|, k);
    var y := new Vec[|flat|](_ => []);
    for i := 0 to |experts|
      invariant forall p :: 0 <= p < |flat| && flat[p] < i ==> y[p] == PairOut(experts, x, ids, k, p)
    {
      for p := 0 to |flat|
        invariant forall q :: 0 <= q < |flat| && (flat[q] < i || (flat[q] == i && q < p)) ==>
          y[q] == PairOut(experts, x, ids, k, q)
      {
        if flat[p] == i {
          FlatIndex(ids, k, p);
          y[p] := experts[i](x[p / k]);
        }
      }
    }
    out := WeightedSum(y[..], weights, k, dim, experts, x, ids);
  }
}
