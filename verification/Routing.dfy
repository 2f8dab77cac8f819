/** Group-limited expert routing for one token. */
module Routing {
  import opened Vectors
  import opened Softmax
  import opened Selection
  import opened BlockMath
  import Moe

  datatype Gate = Gate(topK: nat, groups: nat, topkGroup: nat, per: pos, scaling: real)

  ghost predicate GateOk(g: Gate, scores: Vec) {
    |scores| == Span(g.groups, g.per) && g.per >= 2 && g.topkGroup <= g.groups && g.topK <= |scores|
  }

  function GroupScores(g: Gate, scores: Vec, i: nat): (r: Vec)
    requires |scores| == Span(g.groups, g.per) && i < g.groups
    ensures |r| == g.per
  {
    SpanMonotone(i + 1, g.groups, g.per);
    scores[Span(i, g.per)..Span(i + 1, g.per)]
  }

  /** The two largest values of a sequence of at least two. */
  function BestTwo(s: Vec): (r: (real, real))
    requires |s| >= 2
    ensures r.0 >= r.1
  {
    var n := |s| - 1;
    if n == 1 then (if s[0] >= s[1] then (s[0], s[1]) else (s[1], s[0]))
    else
      var b := BestTwo(s[..n]);
      if s[n] > b.0 then (s[n], b.0) else if s[n] > b.1 then (b.0, s[n]) else b
  }

  /** The score of a group: the sum of its two best experts. */
  function TopTwoSum(s: Vec): real
    requires |s| >= 2
  {
    BestTwo(s).0 + BestTwo(s).1
  }

  lemma {:induction false} BestTwoIs(s: Vec)
    requires |s| >= 2
    ensures exists i, j :: 0 <= i < |s| && 0 <= j < |s| && i != j && s[i] == BestTwo(s).0 && s[j] == BestTwo(s).1
    ensures forall i :: 0 <= i < |s| ==> s[i] <= BestTwo(s).0
    ensures forall i, j :: 0 <= i < j < |s| ==> s[i] <= BestTwo(s).1 || s[j] <= BestTwo(s).1
  {
    var n := |s| - 1;
    if n > 1 {
      var f := s[..n];
      BestTwoIs(f);
      var i, j :| 0 <= i < |f| && 0 <= j < |f| && i != j && f[i] == BestTwo(f).0 && f[j] == BestTwo(f).1;
      assert s[i] == f[i] && s[j] == f[j];
      forall a, b | 0 <= a < b < |s| ensures s[a] <= BestTwo(s).1 || s[b] <= BestTwo(s).1 {
        assert s[a] == f[a];
        if b < n { assert s[b] == f[b]; }
      }
      if s[n] > BestTwo(f).0 {
        assert s[n] == BestTwo(s).0 && s[i] == BestTwo(s).1;
      } else if s[n] > BestTwo(f).1 {
        assert s[i] == BestTwo(s).0 && s[n] == BestTwo(s).1;
      } else {
        assert s[i] == BestTwo(s).0 && s[j] == BestTwo(s).1;
      }
    } else if s[0] >= s[1] {
      assert s[0] == BestTwo(s).0 && s[1] == BestTwo(s).1;
    } else {
      assert s[1] == BestTwo(s).0 && s[0] == BestTwo(s).1;
    }
  }

  /** The score of a group is attained by two of its experts and by no pair exceeded. */
  lemma TopTwoSumIsBest(s: Vec)
    requires |s| >= 2
    ensures exists i, j :: 0 <= i < |s| && 0 <= j < |s| && i != j && s[i] + s[j] == TopTwoSum(s)
    ensures forall i, j :: 0 <= i < j < |s| ==> s[i] + s[j] <= TopTwoSum(s)
  {
    BestTwoIs(s);
    var i, j :| 0 <= i < |s| && 0 <= j < |s| && i != j && s[i] == BestTwo(s).0 && s[j] == BestTwo(s).1;
    assert s[i] + s[j] == TopTwoSum(s);
  }

  function AllGroupScores(g: Gate, scores: Vec): (r: seq<Score>)
    requires |scores| == Span(g.groups, g.per) && g.per >= 2
    ensures |r| == g.groups
  {
    seq(g.groups, i requires 0 <= i < g.groups => Fin(TopTwoSum(GroupScores(g, scores, i))))
  }

  function ChosenGroups(g: Gate, topk: (seq<Score>, nat) -> set<nat>, scores: Vec): set<nat>
    requires |scores| == Span(g.groups, g.per) && g.per >= 2
  {
    topk(AllGroupScores(g, scores), g.topkGroup)
  }

  /** Scores with the experts of unchosen groups masked out. */
  function MaskedScores(g: Gate, scores: Vec, groups: set<nat>): (r: seq<Score>)
    ensures |r| == |scores|
  {
    seq(|scores|, e requires 0 <= e < |scores| => if e / g.per in groups then Fin(scores[e]) else Masked)
  }

  /** group_limited_topk. */
  function Route(g: Gate, topk: (seq<Score>, nat) -> set<nat>, scores: Vec): set<nat>
    requires |scores| == Span(g.groups, g.per) && g.per >= 2
  {
    topk(MaskedScores(g, scores, ChosenGroups(g, topk, scores)), g.topK)
  }

  function Allowed(g: Gate, total: nat, groups: set<nat>): set<nat> {
    set e: nat | e < total && e / g.per in groups
  }

  /** {lo, ..., lo + n - 1}. */
  function Range(lo: nat, n: nat): (r: set<nat>)
    ensures |r| == n && forall e :: e in r <==> lo <= e < lo + n
  {
    if n == 0 then {} else Range(lo, n - 1) + {lo + n - 1}
  }

  lemma GroupRange(per: pos, e: nat, i: nat)
    ensures e / per == i <==> e in Range(Span(i, per), per)
  {
    QuotientSpan(e, per);
    if Span(i, per) <= e < Span(i, per) + per {
      SpanIsProduct(i, per);
      RemainderUnique(e, i, e - Span(i, per), per);
    }
  }

  /** The chosen groups hold per experts each. */
  lemma {:induction false} AllowedSize(g: Gate, groups: set<nat>)
    requires forall i :: i in groups ==> i < g.groups
    ensures |Allowed(g, Span(g.groups, g.per), groups)| == Span(|groups|, g.per)
    decreases groups
  {
    var total := Span(g.groups, g.per);
    if groups == {} {
      assert Allowed(g, total, groups) == {};
    } else {
      var i :| i in groups;
      AllowedSize(g, groups - {i});
      OwnGroup(g, groups, i);
    }
  }

  lemma OwnGroup(g: Gate, groups: set<nat>, i: nat)
    requires i in groups && i < g.groups
    ensures var total := Span(g.groups, g.per);
            |Allowed(g, total, groups)| == |Allowed(g, total, groups - {i})| + g.per
  {
    var total, own := Span(g.groups, g.per), Range(Span(i, g.per), g.per);
    var rest := Allowed(g, total, groups - {i});
    SpanMonotone(i + 1, g.groups, g.per);
    forall e: nat ensures e / g.per == i <==> e in own { GroupRange(g.per, e, i); }
    assert Allowed(g, total, groups) == rest + own;
    assert rest !! own;
  }

  /** No group left out has a better top-2 sum. */
  ghost predicate BestGroups(g: Gate, scores: Vec, groups: set<nat>)
    requires |scores| == Span(g.groups, g.per) && g.per >= 2
  {
    && |groups| == g.topkGroup && (forall i :: i in groups ==> i < g.groups)
    && forall i: nat, j: nat :: i in groups && j < g.groups && j !in groups ==>
         TopTwoSum(GroupScores(g, scores, j)) <= TopTwoSum(GroupScores(g, scores, i))
  }

  /** The chosen experts are allowed, and no allowed expert left out scores higher. */
  ghost predicate BestExperts(scores: Vec, allowed: set<nat>, chosen: set<nat>) {
    && chosen <= allowed && (forall e :: e in allowed ==> e < |scores|)
    && forall e: nat, f: nat :: e in chosen && f in allowed && f !in chosen ==> scores[f] <= scores[e]
  }

  lemma GroupsAreBest(g: Gate, topk: (seq<Score>, nat) -> set<nat>, scores: Vec)
    requires GateOk(g, scores) && SelectsTopK(topk)
    ensures BestGroups(g, scores, ChosenGroups(g, topk, scores))
  {
    hide TopTwoSum, GroupScores;
    var groups, gs := ChosenGroups(g, topk, scores), AllGroupScores(g, scores);
    assert IsTopK(gs, g.topkGroup, groups);
    forall i: nat, j: nat | i in groups && j < g.groups && j !in groups
      ensures TopTwoSum(GroupScores(g, scores, j)) <= TopTwoSum(GroupScores(g, scores, i))
    {
      assert ScoreLe(gs[j], gs[i]);
    }
  }

  /**
   Routing picks topK experts. They come from the topkGroup groups with the best top-2 sums, none beaten
   by an allowed expert left out, exactly when those groups hold at least topK experts.
   */
  lemma RoutingCorrect(g: Gate, topk: (seq<Score>, nat) -> set<nat>, scores: Vec)
    requires GateOk(g, scores) && SelectsTopK(topk)
    ensures BestGroups(g, scores, ChosenGroups(g, topk, scores)) && |Route(g, topk, scores)| == g.topK
    ensures g.topK <= g.topkGroup * g.per <==>
      BestExperts(scores, Allowed(g, |scores|, ChosenGroups(g, topk, scores)), Route(g, topk, scores))
  {
    hide TopTwoSum, GroupScores, ChosenGroups;
    GroupsAreBest(g, topk, scores);
    var groups := ChosenGroups(g, topk, scores);
    var masked, chosen := MaskedScores(g, scores, groups), Route(g, topk, scores);
    assert IsTopK(masked, g.topK, chosen);
    var allowed := Allowed(g, |scores|, groups);
    AllowedSize(g, groups);
    SpanIsProduct(g.topkGroup, g.per);
    assert FinitePositions(masked) == allowed;
    if g.topK <= |allowed| {
      TopKAvoidsMasked(masked, g.topK, chosen);
      forall e: nat, f: nat | e in chosen && f in allowed && f !in chosen ensures scores[f] <= scores[e] {
        assert ScoreLe(masked[f], masked[e]);
      }
    }
    if chosen <= allowed { SubsetSize(chosen, allowed); }
  }

  // ----- combination weights -----

  const TINY: real := 0.00000000000000000001

  /** Combination weights of the chosen experts' scores, in the order top-k returned them. */
  function CombineWeights(g: Gate, chosen: Vec): (w: Vec)
    ensures |w| == |chosen|
  {
    var total := Sum(chosen) + TINY;
    seq(|chosen|, j requires 0 <= j < |chosen| =>
      Times(if g.topK > 1 then Ratio(chosen[j], total) else chosen[j], g.scaling))
  }

  /** With more than one expert the weights are non-negative and sum to just under the scaling factor. */
  lemma WeightsSum(g: Gate, chosen: Vec)
    requires g.topK > 1 && g.scaling > 0.0 && forall j :: 0 <= j < |chosen| ==> chosen[j] >= 0.0
    ensures forall j :: 0 <= j < |chosen| ==> CombineWeights(g, chosen)[j] >= 0.0
    ensures forall j :: 0 <= j < |chosen| ==>
      CombineWeights(g, chosen)[j] * (Sum(chosen) + TINY) == g.scaling * chosen[j]
    ensures Sum(CombineWeights(g, chosen)) * (Sum(chosen) + TINY) == g.scaling * Sum(chosen)
    ensures Sum(CombineWeights(g, chosen)) < g.scaling
  {
    hide Sum, Times, Ratio;
    SumNonNegative(chosen);
    var s, total := Sum(chosen), Sum(chosen) + TINY;
    var c := Ratio(g.scaling, total);
    forall j | 0 <= j < |chosen|
      ensures CombineWeights(g, chosen)[j] == Times(c, chosen[j]) >= 0.0
      ensures CombineWeights(g, chosen)[j] * total == g.scaling * chosen[j]
    {
      WeightAt(chosen[j], total, g.scaling);
    }
    assert CombineWeights(g, chosen) == Scale(c, chosen);
    SumScale(c, chosen);
    Deficit(g.scaling, s, total);
  }

  /** The set's elements in some order, each once. */
  ghost predicate Lists(ids: seq<nat>, chosen: set<nat>) {
    && (forall i, j :: 0 <= i < j < |ids| ==> ids[i] != ids[j])
    && (forall e :: e in ids <==> e in chosen)
  }

  lemma {:induction false} ListSize(ids: seq<nat>, chosen: set<nat>)
    requires Lists(ids, chosen)
    ensures |ids| == |chosen|
  {
    if |ids| == 0 {
      assert chosen == {};
    } else {
      var n := |ids| - 1;
      assert ids == ids[..n] + [ids[n]];
      ListSize(ids[..n], chosen - {ids[n]});
    }
  }

  function Gathered(scores: Vec, ids: seq<nat>): (r: Vec)
    requires forall j :: 0 <= j < |ids| ==> ids[j] < |scores|
    ensures |r| == |ids|
  {
    seq(|ids|, j requires 0 <= j < |ids| => scores[ids[j]])
  }

  /**
   The gate's result for a token, routed by its scores plus the expert bias, whatever order top-k lists the
   experts in: top_k distinct experts, fit for the dispatch, each with a non-negative weight; with more than one
   expert each weight is the scaled share of the gate's own score for that expert, and they sum to just under the
   scaling factor. The scores are sigmoids, hence positive.
   */
  lemma GateWeights(g: Gate, topk: (seq<Score>, nat) -> set<nat>, scores: Vec, bias: Vec, ids: seq<nat>)
    requires |bias| == |scores| && GateOk(g, scores) && SelectsTopK(topk) && g.scaling > 0.0
    requires (forall e :: 0 <= e < |scores| ==> scores[e] > 0.0) && Lists(ids, Route(g, topk, Add(scores, bias)))
    ensures |ids| == g.topK && Moe.RowOk(ids, |scores|)
    ensures var s, w := Gathered(scores, ids), CombineWeights(g, Gathered(scores, ids));
            && (forall j :: 0 <= j < |ids| ==> s[j] == scores[ids[j]] && w[j] >= 0.0)
            && (g.topK > 1 ==> forall j :: 0 <= j < |w| ==>
                  w[j] * (Sum(s) + 0.00000000000000000001) == g.scaling * s[j])
            && (g.topK > 1 ==> Sum(w) * (Sum(s) + TINY) == g.scaling * Sum(s) && Sum(w) < g.scaling)
            && (g.topK == 1 ==> w == [Times(scores[ids[0]], g.scaling)])
  {
    hide Sum, TopTwoSum, GroupScores, ChosenGroups, MaskedScores, CombineWeights, Times;
    var routing := Add(scores, bias);
    var chosen := Route(g, topk, routing);
    ListSize(ids, chosen);
    assert IsTopK(MaskedScores(g, routing, ChosenGroups(g, topk, routing)), g.topK, chosen);
    forall j | 0 <= j < |ids| ensures ids[j] < |scores| { assert ids[j] in chosen; }
    var s := Gathered(scores, ids);
    if g.topK > 1 {
      WeightsSum(g, s);
    } else {
      SingleWeight(g, s);
    }
  }

  lemma SingleWeight(g: Gate, chosen: Vec)
    requires g.topK <= 1 && |chosen| == g.topK && g.scaling > 0.0 && forall j :: 0 <= j < |chosen| ==> chosen[j] > 0.0
    ensures forall j :: 0 <= j < |chosen| ==> CombineWeights(g, chosen)[j] == Times(chosen[j], g.scaling) >= 0.0
  {}

  lemma WeightAt(x: real, total: real, scaling: real)
    requires total > 0.0 && x >= 0.0 && scaling > 0.0
    ensures Times(Ratio(x, total), scaling) == Times(Ratio(scaling, total), x) >= 0.0
    ensures Times(Ratio(x, total), scaling) * total == scaling * x
  {
    var r := 1.0 / total;
    assert ((x * r) * scaling) * total == (scaling * x) * (r * total);
    assert x / total == x * r && scaling / total == scaling * r && r > 0.0;
    assert (x * r) * scaling == (scaling * r) * x;
  }

  lemma Deficit(scaling: real, s: real, total: real)
    requires total == s + TINY && s >= 0.0 && scaling > 0.0
    ensures Ratio(scaling, total) * s * total == scaling * s && Ratio(scaling, total) * s < scaling
  {
    var c := scaling / total;
    assert c * total == scaling;
    assert c * s * total == (c * total) * s;
    assert c > 0.0;
    assert c * total == c * s + c * TINY;
    assert c * TINY > 0.0;
  }
}
