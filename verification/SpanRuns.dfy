/**
 The whole span layout: which line every span of every group gets, and exactly when no two spans of a process
 overlap on a line.
 */
module SpanRuns {
  import opened Sequences
  import opened Spans

  datatype Placed = Placed(span: Span, line: nat)

  /** The placements made so far, and the current line of the group on each process. */
  datatype Lay = Lay(placed: seq<Placed>, status: map<Pid, int>)

  predicate Empty(sp: Span) { sp.start == sp.end }

  /** No two spans of a process share a line and overlap. */
  ghost predicate Clean(placed: seq<Placed>) {
    forall i, j :: 0 <= i < j < |placed| && SameLine(placed[i], placed[j]) ==>
      !Overlaps(IntervalOf(placed[i].span), IntervalOf(placed[j].span))
  }

  predicate SameLine(a: Placed, b: Placed) {
    a.span.pid == b.span.pid && a.line == b.line
  }

  /** A line of a process after these placements. */
  function LineAt(placed: seq<Placed>, pid: Pid, l: int): (line: Line) {
    if |placed| == 0 then []
    else
      var p, line := placed[|placed| - 1], LineAt(placed[..|placed| - 1], pid, l);
      if p.span.pid == pid && p.line == l then Insort(line, IntervalOf(p.span)) else line
  }

  /** The highest line of a process in use, zero for none. */
  function LastLine(placed: seq<Placed>, pid: Pid): nat {
    if |placed| == 0 then 0
    else
      var p, last := placed[|placed| - 1], LastLine(placed[..|placed| - 1], pid);
      if p.span.pid == pid && p.line > last then p.line else last
  }

  /** The two-neighbour test lets the span on this line. */
  predicate Fits(placed: seq<Placed>, sp: Span, l: int) {
    !NeighbourTest(LineAt(placed, sp.pid, l), sp.start, sp.end)
  }

  /** The first line from l on that the span fits on; the one after the last is new. */
  function FirstFit(placed: seq<Placed>, sp: Span, l: nat): nat
    decreases LastLine(placed, sp.pid) + 1 - l
  {
    if l > LastLine(placed, sp.pid) || Fits(placed, sp, l) then l else FirstFit(placed, sp, l + 1)
  }

  /** The current line is kept for an empty span and for one that fits there. */
  predicate Keeps(s: Lay, sp: Span) {
    sp.pid in s.status && (Empty(sp) || Fits(s.placed, sp, s.status[sp.pid]))
  }

  predicate StatusOf(s: Lay) {
    forall p :: p in s.status ==> s.status[p] >= 0
  }

  function Place(s: Lay, sp: Span): (r: Lay)
    requires StatusOf(s)
    ensures StatusOf(r)
  {
    var l := if Keeps(s, sp) then s.status[sp.pid] else FirstFit(s.placed, sp, 1);
    Lay(s.placed + [Placed(sp, l)], s.status[sp.pid := l])
  }

  /** A group is laid out over the lines already there, with no current line at its start. */
  function LayGroup(placed: seq<Placed>, spans: seq<Span>): (r: Lay)
    ensures StatusOf(r)
  {
    if |spans| == 0 then Lay(placed, map[])
    else Place(LayGroup(placed, spans[..|spans| - 1]), spans[|spans| - 1])
  }

  function LayoutOf(groups: seq<seq<Span>>): seq<Placed> {
    if |groups| == 0 then []
    else LayGroup(LayoutOf(groups[..|groups| - 1]), groups[|groups| - 1]).placed
  }

  /** The two-neighbour test let a span on its line at the moment it was placed. */
  predicate Passes(placed: seq<Placed>, i: nat)
    requires i < |placed|
  {
    Fits(placed[..i], placed[i].span, placed[i].line)
  }

  ghost predicate AllPass(placed: seq<Placed>) {
    forall i :: 0 <= i < |placed| ==> Passes(placed, i)
  }

  /** Every zero-length span, which the layout may place without a test, would have passed it. */
  ghost predicate ShortcutsFit(placed: seq<Placed>) {
    forall i :: 0 <= i < |placed| && Empty(placed[i].span) ==> Passes(placed, i)
  }

  /** Only zero-length spans are placed without passing the test. */
  ghost predicate Lawful(placed: seq<Placed>) {
    forall i :: 0 <= i < |placed| ==> Passes(placed, i) || Empty(placed[i].span)
  }

  // ----- lines -----

  lemma {:induction false} LineOrdered(placed: seq<Placed>, pid: Pid, l: int)
    ensures Ordered(LineAt(placed, pid, l))
  {
    hide Insort;
    if |placed| > 0 {
      var before := placed[..|placed| - 1];
      LineOrdered(before, pid, l);
      InsortOrdered(LineAt(before, pid, l), IntervalOf(placed[|placed| - 1].span));
    }
  }

  lemma {:induction false} LineBeyond(placed: seq<Placed>, pid: Pid, l: int)
    requires l > LastLine(placed, pid)
    ensures LineAt(placed, pid, l) == []
  {
    if |placed| > 0 { LineBeyond(placed[..|placed| - 1], pid, l); }
  }

  /** What lies on a line was placed there. */
  lemma {:induction false} OnLine(placed: seq<Placed>, pid: Pid, l: int, x: Interval) returns (i: nat)
    requires x in LineAt(placed, pid, l)
    ensures i < |placed| && placed[i].span.pid == pid && placed[i].line == l && IntervalOf(placed[i].span) == x
  {
    hide Insort;
    var n := |placed| - 1;
    var before := LineAt(placed[..n], pid, l);
    if x in before {
      i := OnLine(placed[..n], pid, l, x);
    } else {
      LineOrdered(placed[..n], pid, l);
      InsortOrdered(before, IntervalOf(placed[n].span));
      assert x in multiset(LineAt(placed, pid, l));
      i := n;
    }
  }

  /** What was placed on a line lies there. */
  lemma {:induction false} Kept(placed: seq<Placed>, i: nat)
    requires i < |placed|
    ensures IntervalOf(placed[i].span) in LineAt(placed, placed[i].span.pid, placed[i].line)
  {
    hide Insort;
    var n, x, pid, l := |placed| - 1, IntervalOf(placed[i].span), placed[i].span.pid, placed[i].line;
    var before := LineAt(placed[..n], pid, l);
    LineOrdered(placed[..n], pid, l);
    InsortOrdered(before, IntervalOf(placed[n].span));
    if i < n {
      Kept(placed[..n], i);
      assert x in multiset(before);
    }
    assert x in multiset(LineAt(placed, pid, l));
  }

  // ----- when the layout is clean -----

  lemma {:induction false} PassesApart(placed: seq<Placed>, pid: Pid, l: int)
    requires AllPass(placed)
    ensures Apart(LineAt(placed, pid, l))
  {
    hide Insort, Apart, Ordered, NeighbourTest;
    if |placed| == 0 {
      assert Apart([]) by { NothingApart(); }
    } else {
      var n := |placed| - 1;
      var p, before := placed[n], placed[..n];
      AllPassPrefix(placed, n);
      PassesApart(before, pid, l);
      LineOrdered(before, pid, l);
      if p.span.pid == pid && p.line == l {
        assert Passes(placed, n);
        FitsApart(LineAt(before, pid, l), IntervalOf(p.span));
      }
    }
  }

  lemma NothingApart()
    ensures Apart([])
  {}

  lemma AllPassPrefix(placed: seq<Placed>, n: nat)
    requires AllPass(placed) && n <= |placed|
    ensures AllPass(placed[..n])
  {
    hide Fits;
    forall i | 0 <= i < n ensures Passes(placed[..n], i) {
      assert placed[..n][..i] == placed[..i] && placed[..n][i] == placed[i];
      assert Passes(placed, i);
    }
  }

  /** If every span passed the test at its moment, no two overlap. */
  lemma PassesClean(placed: seq<Placed>)
    requires AllPass(placed)
    ensures Clean(placed)
  {
    forall i, j | 0 <= i < j < |placed| && SameLine(placed[i], placed[j])
      ensures !Overlaps(IntervalOf(placed[i].span), IntervalOf(placed[j].span))
    {
      LaterFits(placed, i, j);
    }
  }

  lemma LaterFits(placed: seq<Placed>, i: nat, j: nat)
    requires AllPass(placed) && i < j < |placed| && SameLine(placed[i], placed[j])
    ensures !Overlaps(IntervalOf(placed[i].span), IntervalOf(placed[j].span))
  {
    hide LineAt, NeighbourTest, Apart, Ordered, AllPass;
    var pid, l, before := placed[j].span.pid, placed[j].line, placed[..j];
    AllPassPrefix(placed, j);
    PassesApart(before, pid, l);
    LineOrdered(before, pid, l);
    Kept(before, i);
    PassesAt(placed, j);
    FitsApart(LineAt(before, pid, l), IntervalOf(placed[j].span));
  }

  lemma PassesAt(placed: seq<Placed>, j: nat)
    requires AllPass(placed) && j < |placed|
    ensures Passes(placed, j)
  {}

  /** A zero-length span that would have failed the test overlaps a span already on its line. */
  lemma FailureOverlaps(placed: seq<Placed>, j: nat) returns (i: nat)
    requires j < |placed| && Empty(placed[j].span) && !Passes(placed, j)
    ensures i < j && SameLine(placed[i], placed[j])
    ensures Overlaps(IntervalOf(placed[i].span), IntervalOf(placed[j].span))
  {
    hide LineAt, NeighbourTest;
    var pid, l, t := placed[j].span.pid, placed[j].line, placed[j].span.start;
    var line := LineAt(placed[..j], pid, l);
    LineOrdered(placed[..j], pid, l);
    EmptyConflict(line, t);
    var k :| 0 <= k < |line| && Overlaps(line[k], Interval(t, t));
    i := OnLine(placed[..j], pid, l, line[k]);
  }

  /** Clean exactly if every zero-length span would have passed the test at its moment. */
  lemma CleanIff(placed: seq<Placed>)
    requires Lawful(placed)
    ensures Clean(placed) <==> ShortcutsFit(placed)
  {
    hide Passes;
    if ShortcutsFit(placed) {
      assert AllPass(placed);
      PassesClean(placed);
    } else {
      var j :| 0 <= j < |placed| && Empty(placed[j].span) && !Passes(placed, j);
      var i := FailureOverlaps(placed, j);
    }
  }

  // ----- the layout is lawful -----

  lemma {:induction false} FirstFitFits(placed: seq<Placed>, sp: Span, l: nat)
    ensures Fits(placed, sp, FirstFit(placed, sp, l))
    decreases LastLine(placed, sp.pid) + 1 - l
  {
    if l > LastLine(placed, sp.pid) {
      LineBeyond(placed, sp.pid, l);
    } else if !Fits(placed, sp, l) {
      FirstFitFits(placed, sp, l + 1);
    }
  }

  lemma PassesStep(placed: seq<Placed>, p: Placed)
    ensures forall i :: 0 <= i < |placed| ==> Passes(placed + [p], i) == Passes(placed, i)
    ensures Passes(placed + [p], |placed|) == Fits(placed, p.span, p.line)
  {
    hide Fits;
    var next := placed + [p];
    forall i | 0 <= i <= |placed| ensures next[..i] == placed[..i] {}
    assert next[..|placed|] == placed;
  }

  lemma PlaceLawful(s: Lay, sp: Span)
    requires StatusOf(s)
    ensures Lawful(s.placed) ==> Lawful(Place(s, sp).placed)
    ensures AllPass(s.placed) && (sp.pid in s.status ==> !Empty(sp)) ==> AllPass(Place(s, sp).placed)
  {
    hide Passes, Fits;
    FirstFitFits(s.placed, sp, 1);
    PassesStep(s.placed, Place(s, sp).placed[|s.placed|]);
  }

  lemma {:induction false} GroupLawful(placed: seq<Placed>, spans: seq<Span>)
    requires Lawful(placed)
    ensures Lawful(LayGroup(placed, spans).placed)
  {
    hide Lawful, AllPass, Place;
    if |spans| > 0 {
      GroupLawful(placed, spans[..|spans| - 1]);
      PlaceLawful(LayGroup(placed, spans[..|spans| - 1]), spans[|spans| - 1]);
    }
  }

  lemma {:induction false} LayoutLawful(groups: seq<seq<Span>>)
    ensures Lawful(LayoutOf(groups))
  {
    if |groups| > 0 {
      LayoutLawful(groups[..|groups| - 1]);
      GroupLawful(LayoutOf(groups[..|groups| - 1]), groups[|groups| - 1]);
    }
  }

  /** No zero-length span follows another span of its process in its group. */
  ghost predicate NoEmptyAfter(groups: seq<seq<Span>>) {
    forall g :: 0 <= g < |groups| ==> EmptyFirst(groups[g])
  }

  ghost predicate EmptyFirst(spans: seq<Span>) {
    forall i, j :: 0 <= i < j < |spans| && spans[i].pid == spans[j].pid ==> !Empty(spans[j])
  }

  lemma {:induction false} StatusFrom(placed: seq<Placed>, spans: seq<Span>, pid: Pid)
    requires pid in LayGroup(placed, spans).status
    ensures exists i :: 0 <= i < |spans| && spans[i].pid == pid
  {
    if |spans| > 0 {
      var n := |spans| - 1;
      if spans[n].pid != pid {
        StatusFrom(placed, spans[..n], pid);
        var i :| 0 <= i < n && spans[..n][i].pid == pid;
        assert spans[i].pid == pid;
      }
    }
  }

  lemma {:induction false} GroupPasses(placed: seq<Placed>, spans: seq<Span>)
    requires AllPass(placed) && EmptyFirst(spans)
    ensures AllPass(LayGroup(placed, spans).placed)
  {
    hide AllPass, Lawful, Place;
    if |spans| > 0 {
      var n := |spans| - 1;
      var before, sp := LayGroup(placed, spans[..n]), spans[n];
      GroupPasses(placed, spans[..n]);
      if sp.pid in before.status {
        StatusFrom(placed, spans[..n], sp.pid);
        var i :| 0 <= i < n && spans[..n][i].pid == sp.pid;
        assert spans[i].pid == spans[n].pid;
      }
      PlaceLawful(before, sp);
    }
  }

  lemma {:induction false} LayoutPasses(groups: seq<seq<Span>>)
    requires NoEmptyAfter(groups)
    ensures AllPass(LayoutOf(groups))
  {
    if |groups| > 0 {
      var n := |groups| - 1;
      assert EmptyFirst(groups[n]);
      assert NoEmptyAfter(groups[..n]) by { hide EmptyFirst; }
      LayoutPasses(groups[..n]);
      GroupPasses(LayoutOf(groups[..n]), groups[n]);
    }
  }

  /** The exact condition, and one a caller reads off the input. */
  lemma LayoutClean(groups: seq<seq<Span>>)
    ensures Clean(LayoutOf(groups)) <==> ShortcutsFit(LayoutOf(groups))
    ensures NoEmptyAfter(groups) ==> Clean(LayoutOf(groups))
  {
    hide Clean, ShortcutsFit, Lawful, AllPass, NoEmptyAfter;
    LayoutLawful(groups);
    CleanIff(LayoutOf(groups));
    if NoEmptyAfter(groups) {
      LayoutPasses(groups);
      PassesClean(LayoutOf(groups));
    }
  }

  /** Every span is placed once, in the order given. */
  lemma {:induction false} LayoutSpans(groups: seq<seq<Span>>)
    ensures |LayoutOf(groups)| == |Flat(groups)|
    ensures forall i :: 0 <= i < |LayoutOf(groups)| ==> LayoutOf(groups)[i].span == Flat(groups)[i]
  {
    if |groups| > 0 {
      var n := |groups| - 1;
      LayoutSpans(groups[..n]);
      GroupSpans(LayoutOf(groups[..n]), groups[n]);
      assert Flat(groups) == Flat(groups[..n]) + groups[n];
    }
  }

  lemma {:induction false} GroupSpans(placed: seq<Placed>, spans: seq<Span>)
    ensures var r := LayGroup(placed, spans).placed;
            |r| == |placed| + |spans| && r[..|placed|] == placed
            && forall i :: 0 <= i < |spans| ==> r[|placed| + i].span == spans[i]
  {
    if |spans| > 0 { GroupSpans(placed, spans[..|spans| - 1]); }
  }

  /**
   The shortcut breaks the layout. For one request, a zero-length span inside a longer one stays on its line
   and hides it from the test, so that a third span is put over the first.
   */
  lemma EmptySpanHides(p: Pid, a: int, e: int, s: int, t: int, b: int)
    requires a < e < s < b && s < t
    ensures var spans := [Span(p, a, b), Span(p, e, e), Span(p, s, t)];
            LayoutOf([spans]) == [Placed(spans[0], 1), Placed(spans[1], 1), Placed(spans[2], 1)]
            && Overlaps(IntervalOf(spans[0]), IntervalOf(spans[2])) && !Clean(LayoutOf([spans]))
  {
    hide LayGroup, Clean, Place;
    var spans := [Span(p, a, b), Span(p, e, e), Span(p, s, t)];
    var p1, p2, p3 := Placed(spans[0], 1), Placed(spans[1], 1), Placed(spans[2], 1);
    PlaceFirst(spans[0]);
    PlaceEmpty([p1], spans[1], 1);
    PlaceHidden(p, a, e, s, t, b);
    GroupOfThree([], spans);
    assert [p1] + [p2] == [p1, p2] && [p1, p2] + [p3] == [p1, p2, p3];
    assert LayGroup([], spans) == Lay([p1, p2, p3], map[p := 1]);
    LayoutStep([spans], 0);
    assert [spans][..1] == [spans] && [spans][..0] == [];
    assert !Clean([p1, p2, p3]) by { TwoOverlap([p1, p2, p3]); }
  }

  lemma GroupOfThree(placed: seq<Placed>, spans: seq<Span>)
    requires |spans| == 3
    ensures LayGroup(placed, spans) == Place(Place(Place(Lay(placed, map[]), spans[0]), spans[1]), spans[2])
  {
    hide Place;
    assert spans[..2][..1] == spans[..1] && spans[..1][..0] == [];
    assert LayGroup(placed, spans[..1]) == Place(Lay(placed, map[]), spans[0]);
  }

  lemma PlaceFirst(sp: Span)
    ensures Place(Lay([], map[]), sp) == Lay([Placed(sp, 1)], map[sp.pid := 1])
  {}

  /** A zero-length span stays on the current line, whatever lies there. */
  lemma PlaceEmpty(placed: seq<Placed>, sp: Span, l: nat)
    requires Empty(sp)
    ensures Place(Lay(placed, map[sp.pid := l]), sp) == Lay(placed + [Placed(sp, l)], map[sp.pid := l])
  {}

  lemma PlaceHidden(p: Pid, a: int, e: int, s: int, t: int, b: int)
    requires a < e < s
    ensures var placed, sp := [Placed(Span(p, a, b), 1), Placed(Span(p, e, e), 1)], Span(p, s, t);
            Place(Lay(placed, map[p := 1]), sp) == Lay(placed + [Placed(sp, 1)], map[p := 1])
  {
    var p1, p2 := Placed(Span(p, a, b), 1), Placed(Span(p, e, e), 1);
    assert LineAt([p1], p, 1) == [Interval(a, b)] by { assert [p1][..0] == []; }
    assert LineAt([p1, p2], p, 1) == [Interval(a, b), Interval(e, e)] by { assert [p1, p2][..1] == [p1]; }
    RankIs([Interval(a, b), Interval(e, e)], s, 2);
    assert Fits([p1, p2], Span(p, s, t), 1);
  }

  lemma TwoOverlap(placed: seq<Placed>)
    requires |placed| == 3 && SameLine(placed[0], placed[2])
    requires Overlaps(IntervalOf(placed[0].span), IntervalOf(placed[2].span))
    ensures !Clean(placed)
  {}

  // ----- the loops of the converter -----

  /** The graph holds exactly these placements. */
  ghost predicate Holds(graph: Graph, placed: seq<Placed>) {
    && (forall p, l: int :: LineOf(graph, p, l) == LineAt(placed, p, l))
    && (forall p :: |LinesOf(graph, p)| == LastLine(placed, p))
  }

  lemma HoldsNothing()
    ensures Holds(map[], [])
  {}

  lemma HoldsStep(graph: Graph, meta: seq<(Pid, int)>, placed: seq<Placed>, sp: Span, line: nat)
    requires Holds(graph, placed) && GraphOk(graph, meta) && 1 <= line <= |LinesOf(graph, sp.pid)| + 1
    ensures Holds(Added(graph, sp, line), placed + [Placed(sp, line)])
  {
    hide Insort, Ordered;
    var next, after := placed + [Placed(sp, line)], Added(graph, sp, line);
    assert next[..|placed|] == placed;
    LinesGrow(graph, meta, sp.pid, line, Insort(LineOf(graph, sp.pid, line), IntervalOf(sp)));
    forall p, l: int ensures LineOf(after, p, l) == LineAt(next, p, l) {
      assert LineOf(graph, p, l) == LineAt(placed, p, l);
    }
    forall p ensures |LinesOf(after, p)| == LastLine(next, p) {
      assert |LinesOf(graph, p)| == LastLine(placed, p);
    }
  }

  lemma LinesGrow(graph: Graph, meta: seq<(Pid, int)>, pid: Pid, l: int, line: Line)
    requires GraphOk(graph, meta) && 1 <= l <= |LinesOf(graph, pid)| + 1
    ensures var lines := LinesOf(graph, pid);
            |lines[l := line]| == if l > |lines| then l else |lines|
  {
    hide Ordered;
    var lines := LinesOf(graph, pid);
    if l <= |lines| { assert lines[l := line].Keys == lines.Keys; }
    assert l <= |lines| <==> l in lines;
  }

  /** The line the search finds is the one the specification names. */
  lemma SameChoice(graph: Graph, s: Lay, sp: Span, line: nat)
    requires Holds(graph, s.placed) && StatusOf(s) && StatusOk(graph, s.status)
    requires 1 <= line <= |LinesOf(graph, sp.pid)| + 1
    requires Stays(graph, s.status, sp.pid, sp.start, sp.end) ==> line == s.status[sp.pid]
    requires !Stays(graph, s.status, sp.pid, sp.start, sp.end) ==> FirstFree(graph, sp, line)
    ensures Place(s, sp) == Lay(s.placed + [Placed(sp, line)], s.status[sp.pid := line])
  {
    hide LineAt, NeighbourTest;
    if sp.pid in s.status {
      assert graph[sp.pid][s.status[sp.pid]] == LineOf(graph, sp.pid, s.status[sp.pid]);
    }
    if !Keeps(s, sp) {
      FirstFitIs(s.placed, sp, 1, line);
    }
  }

  lemma {:induction false} FirstFitIs(placed: seq<Placed>, sp: Span, l: nat, line: nat)
    requires l <= line <= LastLine(placed, sp.pid) + 1
    requires Fits(placed, sp, line) && forall m :: l <= m < line ==> !Fits(placed, sp, m)
    ensures FirstFit(placed, sp, l) == line
    decreases line - l
  {
    if l < line { FirstFitIs(placed, sp, l + 1, line); }
  }

  /**
   generate_perfetto_span_layout: every group (the spans of a request, or the gateway spans) is laid out
   with its own current lines, over one shared set of lines.
   */
  method Layout(groups: seq<seq<Span>>) returns (placed: seq<Placed>, layout: SpanLayout)
    ensures placed == LayoutOf(groups) && layout.Valid() && Holds(layout.graph, placed)
    ensures |placed| == |Flat(groups)| && forall i :: 0 <= i < |placed| ==> placed[i].span == Flat(groups)[i]
    ensures Clean(placed) <==> ShortcutsFit(placed)
    ensures NoEmptyAfter(groups) ==> Clean(placed)
  {
    hide GraphOk, StatusOk, Holds, Place, Clean, ShortcutsFit, NoEmptyAfter, Stays, FirstFree, Added;
    layout := new SpanLayout();
    placed := [];
    HoldsNothing();
    for g := 0 to |groups|
      invariant layout.Valid() && fresh(layout) && Holds(layout.graph, placed)
      invariant placed == LayoutOf(groups[..g])
    {
      var status: map<Pid, int> := map[];
      ghost var base := placed;
      NoStatus(layout.graph);
      for i := 0 to |groups[g]|
        invariant layout.Valid() && fresh(layout) && Holds(layout.graph, placed) && StatusOk(layout.graph, status)
        invariant Lay(placed, status) == LayGroup(base, groups[g][..i])
      {
        var sp := groups[g][i];
        ghost var was, meta, before := layout.graph, layout.slotMetaData, Lay(placed, status);
        var line;
        line, status := layout.PlaceSpan(status, sp);
        SameChoice(was, before, sp, line);
        HoldsStep(was, meta, placed, sp, line);
        placed := placed + [Placed(sp, line)];
        GroupStep(base, groups[g], i);
      }
      assert groups[g][..|groups[g]|] == groups[g];
      LayoutStep(groups, g);
    }
    assert groups[..|groups|] == groups;
    LayoutClean(groups);
    LayoutSpans(groups);
  }

  lemma NoStatus(graph: Graph)
    ensures StatusOk(graph, map[])
  {}

  lemma GroupStep(placed: seq<Placed>, spans: seq<Span>, i: nat)
    requires i < |spans|
    ensures LayGroup(placed, spans[..i + 1]) == Place(LayGroup(placed, spans[..i]), spans[i])
  {
    assert spans[..i + 1][..i] == spans[..i];
  }

  lemma LayoutStep(groups: seq<seq<Span>>, g: nat)
    requires g < |groups|
    ensures LayoutOf(groups[..g + 1]) == LayGroup(LayoutOf(groups[..g]), groups[g]).placed
  {
    assert groups[..g + 1][..g] == groups[..g];
  }
}
