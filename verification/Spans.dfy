/**
 Span layout of the trace converter: every span of a process goes to a display line that a two-neighbour test
 finds free, or stays on its request's line. A line is a list of intervals kept sorted by bisection.
 */
module Spans {
  import opened Sequences

  type Pid = int

  datatype Interval = Interval(start: int, end: int)
  datatype Span = Span(pid: Pid, start: int, end: int)
  type Line = seq<Interval>

  /** Tuple order on (start, end). */
  predicate Before(a: Interval, b: Interval) {
    a.start < b.start || (a.start == b.start && a.end < b.end)
  }

  ghost predicate Ordered(line: Line) {
    forall i, j :: 0 <= i < j < |line| ==> !Before(line[j], line[i])
  }

  predicate Overlaps(a: Interval, b: Interval) {
    a.start < b.end && b.start < a.end
  }

  /** Each interval ends before every later one starts; intervals of any length, also negative. */
  ghost predicate Apart(line: Line) {
    forall i, j :: 0 <= i < j < |line| ==> line[i].end <= line[j].start
  }

  /** Non-empty intervals, each ending before the next starts. */
  ghost predicate Disjoint(line: Line) {
    Apart(line) && forall i :: 0 <= i < |line| ==> line[i].start < line[i].end
  }

  /** How many intervals start before `start`. */
  function Rank(line: Line, start: int): (k: nat)
    ensures k <= |line|
  {
    if |line| == 0 then 0
    else if line[|line| - 1].start < start then |line|
    else Rank(line[..|line| - 1], start)
  }

  /** The two-neighbour overlap test. */
  predicate NeighbourTest(line: Line, start: int, end: int) {
    var k := Rank(line, start);
    (k > 0 && line[k - 1].end > start) || (k < |line| && line[k].start < end)
  }

  lemma {:induction false} RankIs(line: Line, start: int, k: nat)
    requires Ordered(line) && k <= |line|
    requires forall i :: 0 <= i < k ==> line[i].start < start
    requires forall i :: k <= i < |line| ==> line[i].start >= start
    ensures Rank(line, start) == k
  {
    if |line| > 0 && k < |line| { RankIs(line[..|line| - 1], start, k); }
  }

  lemma {:induction false} RankSplits(line: Line, start: int)
    requires Ordered(line)
    ensures forall i :: 0 <= i < Rank(line, start) ==> line[i].start < start
    ensures forall i :: Rank(line, start) <= i < |line| ==> line[i].start >= start
  {
    if |line| > 0 && line[|line| - 1].start >= start { RankSplits(line[..|line| - 1], start); }
  }

  /** check_overlap: bisect_left on (start, -inf), then look at both neighbours. */
  method CheckOverlap(line: Line, start: int, end: int) returns (r: bool)
    requires Ordered(line)
    ensures r == NeighbourTest(line, start, end)
  {
    var lo, hi := 0, |line|;
    while lo < hi
      invariant 0 <= lo <= hi <= |line|
      invariant forall i :: 0 <= i < lo ==> line[i].start < start
      invariant forall i :: hi <= i < |line| ==> line[i].start >= start
    {
      var mid := (lo + hi) / 2;
      assert forall i :: 0 <= i < mid ==> !Before(line[mid], line[i]);
      assert forall i :: mid < i < |line| ==> !Before(line[i], line[mid]);
      if line[mid].start < start {
        lo := mid + 1;
      } else {
        hi := mid;
      }
    }
    RankIs(line, start, lo);
    if lo > 0 && line[lo - 1].end > start {
      return true;
    }
    if lo < |line| && line[lo].start < end {
      return true;
    }
    return false;
  }

  /** On a disjoint line the two neighbours decide for all intervals. */
  lemma NeighbourTestIsExact(line: Line, start: int, end: int)
    requires Disjoint(line) && start < end
    ensures Ordered(line)
    ensures NeighbourTest(line, start, end) <==> exists i :: 0 <= i < |line| && Overlaps(line[i], Interval(start, end))
  {
    forall i, j | 0 <= i < j < |line| ensures !Before(line[j], line[i]) {
      assert line[i].start < line[i].end <= line[j].start;
    }
    RankSplits(line, start);
    var k := Rank(line, start);
    if k > 0 && line[k - 1].end > start { assert Overlaps(line[k - 1], Interval(start, end)); }
    if k < |line| && line[k].start < end { assert Overlaps(line[k], Interval(start, end)); }
    if !NeighbourTest(line, start, end) {
      forall i | 0 <= i < |line| ensures !Overlaps(line[i], Interval(start, end)) {
        if i < k - 1 { assert line[i].end <= line[k - 1].start; }
        if k < i { assert line[k].start < line[k].end <= line[i].start; }
      }
    }
  }

  /** The line with x added in order. */
  function Insort(line: Line, x: Interval): (r: Line)
    ensures |r| == |line| + 1
  {
    if |line| == 0 then [x]
    else if Before(line[|line| - 1], x) then line + [x]
    else Insort(line[..|line| - 1], x) + [line[|line| - 1]]
  }

  lemma {:induction false} InsortIs(line: Line, x: Interval, k: nat)
    requires Ordered(line) && k <= |line|
    requires forall i :: 0 <= i < k ==> Before(line[i], x)
    requires forall i :: k <= i < |line| ==> !Before(line[i], x)
    ensures Insort(line, x) == line[..k] + [x] + line[k..]
  {
    if k < |line| {
      var front := line[..|line| - 1];
      InsortIs(front, x, k);
      assert front[..k] == line[..k] && line[k..] == front[k..] + [line[|line| - 1]];
    } else {
      assert line[..k] == line && line[k..] == [];
    }
  }

  /** Where x goes on an ordered line. */
  lemma {:induction false} InsortAt(line: Line, x: Interval) returns (k: nat)
    requires Ordered(line)
    ensures k <= |line|
    ensures forall i :: 0 <= i < k ==> Before(line[i], x)
    ensures forall i :: k <= i < |line| ==> !Before(line[i], x)
    ensures Insort(line, x) == line[..k] + [x] + line[k..]
  {
    k := |line|;
    while k > 0 && !Before(line[k - 1], x)
      invariant 0 <= k <= |line|
      invariant forall i :: k <= i < |line| ==> !Before(line[i], x)
    {
      k := k - 1;
    }
    if k > 0 {
      assert forall i :: 0 <= i < k - 1 ==> !Before(line[k - 1], line[i]);
    }
    InsortIs(line, x, k);
  }

  /** Insertion keeps the order and adds exactly that interval. */
  lemma InsortOrdered(line: Line, x: Interval)
    requires Ordered(line)
    ensures Ordered(Insort(line, x)) && multiset(Insort(line, x)) == multiset(line) + multiset{x}
  {
    hide Insort, Ordered;
    var k := InsortAt(line, x);
    PutOrdered(line, x, k);
  }

  lemma PutOrdered(line: Line, x: Interval, k: nat)
    requires Ordered(line) && k <= |line|
    requires forall i :: 0 <= i < k ==> Before(line[i], x)
    requires forall i :: k <= i < |line| ==> !Before(line[i], x)
    ensures var r := line[..k] + [x] + line[k..]; Ordered(r) && multiset(r) == multiset(line) + multiset{x}
  {
    var r := line[..k] + [x] + line[k..];
    RemoveAt(r, k);
    assert r[..k] + r[k + 1..] == line;
  }

  /** insert_span: insort_left. */
  method InsertSpan(line: Line, start: int, end: int) returns (r: Line)
    requires Ordered(line)
    ensures Ordered(r) && multiset(r) == multiset(line) + multiset{Interval(start, end)}
    ensures r == Insort(line, Interval(start, end))
  {
    var lo, hi, x := 0, |line|, Interval(start, end);
    while lo < hi
      invariant 0 <= lo <= hi <= |line|
      invariant forall i :: 0 <= i < lo ==> Before(line[i], x)
      invariant forall i :: hi <= i < |line| ==> !Before(line[i], x)
    {
      var mid := (lo + hi) / 2;
      assert forall i :: 0 <= i < mid ==> !Before(line[mid], line[i]);
      assert forall i :: mid < i < |line| ==> !Before(line[i], line[mid]);
      if Before(line[mid], x) {
        lo := mid + 1;
      } else {
        hi := mid;
      }
    }
    InsortIs(line, x, lo);
    InsortOrdered(line, x);
    r := line[..lo] + [x] + line[lo..];
  }

  /**
   An interval of any length that passes the two-neighbour test on a line of intervals apart from each other
   overlaps none of them and leaves them apart.
   */
  lemma FitsApart(line: Line, x: Interval)
    requires Ordered(line) && Apart(line) && !NeighbourTest(line, x.start, x.end)
    ensures Apart(Insort(line, x)) && forall i :: 0 <= i < |line| ==> !Overlaps(line[i], x)
  {
    hide Insort, Ordered, NeighbourTest, Apart;
    var k := InsortAt(line, x);
    FitsSides(line, x, k);
    PutApart(line, x, k);
  }

  lemma PutApart(line: Line, x: Interval, k: nat)
    requires Apart(line) && k <= |line|
    requires forall i :: 0 <= i < k ==> line[i].end <= x.start
    requires forall i :: k <= i < |line| ==> x.end <= line[i].start
    ensures Apart(line[..k] + [x] + line[k..])
  {
    var r := line[..k] + [x] + line[k..];
    forall i, j | 0 <= i < j < |r| ensures r[i].end <= r[j].start {
      var a, b := if i < k then i else i - 1, if j < k then j else j - 1;
      if i != k && j != k { assert r[i] == line[a] && r[j] == line[b]; }
    }
  }

  lemma FitsSides(line: Line, x: Interval, k: nat)
    requires Ordered(line) && Apart(line) && !NeighbourTest(line, x.start, x.end) && k <= |line|
    requires forall i :: 0 <= i < k ==> Before(line[i], x)
    requires forall i :: k <= i < |line| ==> !Before(line[i], x)
    ensures forall i :: 0 <= i < k ==> line[i].end <= x.start
    ensures forall i :: k <= i < |line| ==> x.end <= line[i].start
  {
    RankSplits(line, x.start);
    var m := Rank(line, x.start);
    forall i | m <= i < |line| ensures x.end <= line[i].start {
      if m < i { assert !Before(line[i], line[m]); }
    }
    forall i | 0 <= i < m ensures line[i].end <= x.start {
      if i < m - 1 { assert line[i].end <= line[m - 1].start; }
    }
  }

  /** A zero-length interval that fails the test overlaps an interval of the line. */
  lemma EmptyConflict(line: Line, t: int)
    requires Ordered(line) && NeighbourTest(line, t, t)
    ensures exists i :: 0 <= i < |line| && Overlaps(line[i], Interval(t, t))
  {
    RankSplits(line, t);
    assert Overlaps(line[Rank(line, t) - 1], Interval(t, t));
  }

  // ----- lines of a process -----

  type Lines = map<int, Line>
  type Graph = map<Pid, Lines>

  /** Lines are numbered 1..n, each ordered. */
  ghost predicate LinesOk(lines: Lines) {
    && (forall l: int :: l in lines <==> 1 <= l <= |lines|)
    && (forall l :: l in lines ==> Ordered(lines[l]))
  }

  /** Every process has a line, and every line was announced exactly once. */
  ghost predicate GraphOk(graph: Graph, meta: seq<(Pid, int)>) {
    && (forall p :: p in graph ==> LinesOk(graph[p]) && |graph[p]| >= 1)
    && (forall p, l: int :: (p, l) in meta <==> p in graph && l in graph[p])
    && (forall i, j :: 0 <= i < j < |meta| ==> meta[i] != meta[j])
  }

  /** An interval fits on no line. */
  ghost predicate AllConflict(lines: Lines, start: int, end: int) {
    forall l :: l in lines ==> NeighbourTest(lines[l], start, end)
  }

  function LinesOf(graph: Graph, pid: Pid): Lines {
    if pid in graph then graph[pid] else map[]
  }

  lemma AddLine(lines: Lines)
    requires LinesOk(lines)
    ensures |lines| + 1 !in lines && LinesOk(lines[|lines| + 1 := []]) && |lines[|lines| + 1 := []]| == |lines| + 1
  {
    var n := |lines| + 1;
    assert n !in lines;
    assert |lines[n := []]| == |lines| + 1;
  }

  lemma AddLineToGraph(graph: Graph, meta: seq<(Pid, int)>, pid: Pid)
    requires GraphOk(graph, meta)
    ensures var lines := LinesOf(graph, pid);
            GraphOk(graph[pid := lines[|lines| + 1 := []]], meta + [(pid, |lines| + 1)])
  {
    hide LinesOk;
    var lines := LinesOf(graph, pid);
    assert LinesOk(lines) by { EmptyLines(); }
    AddLine(lines);
    var n, meta' := |lines| + 1, meta + [(pid, |lines| + 1)];
    var graph' := graph[pid := lines[n := []]];
    assert (pid, n) !in meta;
    forall p, l: int ensures (p, l) in meta' <==> p in graph' && l in graph'[p] {
      assert (p, l) in meta' <==> (p, l) in meta || (p, l) == (pid, n);
    }
  }

  lemma EmptyLines()
    ensures LinesOk(map[])
  {}

  /** Replacing the contents of a line. */
  lemma ReplaceLine(graph: Graph, meta: seq<(Pid, int)>, pid: Pid, l: int, line: Line)
    requires GraphOk(graph, meta) && pid in graph && l in graph[pid] && Ordered(line)
    ensures GraphOk(graph[pid := graph[pid][l := line]], meta)
  {
    hide LinesOk;
    ReplaceInLines(graph[pid], l, line);
  }

  lemma ReplaceInLines(lines: Lines, l: int, line: Line)
    requires LinesOk(lines) && l in lines && Ordered(line)
    ensures LinesOk(lines[l := line]) && |lines[l := line]| == |lines| && lines[l := line].Keys == lines.Keys
  {
    hide Ordered;
    var next := lines[l := line];
    assert next.Keys == lines.Keys;
    assert |next.Keys| == |next| && |lines.Keys| == |lines|;
  }

  ghost predicate StatusOk(graph: Graph, status: map<Pid, int>) {
    forall p :: p in status ==> p in graph && status[p] in graph[p]
  }

  /** The request keeps its current line on the process: the span is empty, or fits there. */
  predicate Stays(graph: Graph, status: map<Pid, int>, pid: Pid, start: int, end: int)
    requires StatusOk(graph, status)
  {
    pid in status && (start == end || !NeighbourTest(graph[pid][status[pid]], start, end))
  }

  function LineOf(graph: Graph, pid: Pid, l: int): Line {
    if l in LinesOf(graph, pid) then LinesOf(graph, pid)[l] else []
  }

  class SpanLayout {
    var graph: Graph
    var slotMetaData: seq<(Pid, int)>

    ghost predicate Valid()
      reads this
    {
      GraphOk(graph, slotMetaData)
    }

    constructor ()
      ensures Valid() && graph == map[] && slotMetaData == []
    {
      graph, slotMetaData := map[], [];
    }

    /** A new empty line for a process, numbered after the existing ones. */
    method OpenLine(pid: Pid) returns (line: int)
      requires Valid()
      modifies this
      ensures Valid() && line == |LinesOf(old(graph), pid)| + 1
      ensures graph == old(graph)[pid := LinesOf(old(graph), pid)[line := []]]
      ensures slotMetaData == old(slotMetaData) + [(pid, line)]
    {
      hide GraphOk;
      AddLineToGraph(graph, slotMetaData, pid);
      var lines := LinesOf(graph, pid);
      line := |lines| + 1;
      graph := graph[pid := lines[line := []]];
      slotMetaData := slotMetaData + [(pid, line)];
    }

    /**
     __find_line. The request's current line on this process is preferred; otherwise the first line
     without a conflict; a new line is opened only when every line conflicts.
     */
    method FindLine(status: map<Pid, int>, pid: Pid, start: int, end: int) returns (line: int, newStatus: map<Pid, int>)
      requires Valid() && StatusOk(graph, status)
      modifies this
      ensures Valid() && pid in graph && line in graph[pid] && newStatus == status[pid := line]
      ensures StatusOk(graph, newStatus)
      ensures Stays(old(graph), status, pid, start, end) ==> line == status[pid] && graph == old(graph)
      ensures !Stays(old(graph), status, pid, start, end) ==>
        && !NeighbourTest(graph[pid][line], start, end)
        && forall l :: 1 <= l < line ==>
          l in LinesOf(old(graph), pid) && NeighbourTest(LinesOf(old(graph), pid)[l], start, end)
      ensures graph == old(graph) ||
        (line == |LinesOf(old(graph), pid)| + 1 && graph == old(graph)[pid := LinesOf(old(graph), pid)[line := []]]
         && AllConflict(LinesOf(old(graph), pid), start, end))
    {
      hide NeighbourTest, GraphOk;
      if pid in graph { NumberedAt(graph, slotMetaData, pid); }
      if pid in status {
        line := status[pid];
        newStatus := status;
        assert status[pid := line] == status;
        if start == end {
          return;
        }
        OrderedAt(graph, slotMetaData, pid, line);
        var busy := CheckOverlap(graph[pid][line], start, end);
        if !busy {
          return;
        }
      }
      if pid in graph {
        line := 1;
        var count := |graph[pid]|;
        while line <= count
          invariant graph == old(graph) && slotMetaData == old(slotMetaData) && 1 <= line <= count + 1
          invariant forall l :: 1 <= l < line ==> NeighbourTest(graph[pid][l], start, end)
        {
          OrderedAt(graph, slotMetaData, pid, line);
          var busy := CheckOverlap(graph[pid][line], start, end);
          if !busy {
            newStatus := status[pid := line];
            return;
          }
          line := line + 1;
        }
      }
      line := OpenLine(pid);
      EmptyFits(start, end);
      newStatus := status[pid := line];
    }

    /** A span is inserted on a line. */
    method InsertAt(status: map<Pid, int>, sp: Span, line: int)
      requires Valid() && StatusOk(graph, status) && sp.pid in graph && line in graph[sp.pid]
      modifies this`graph
      ensures Valid() && StatusOk(graph, status)
      ensures var lines := old(graph)[sp.pid];
              graph == old(graph)[sp.pid := lines[line := Insort(lines[line], IntervalOf(sp))]]
    {
      hide GraphOk, Ordered, StatusOk;
      OrderedAt(graph, slotMetaData, sp.pid, line);
      var next := InsertSpan(graph[sp.pid][line], sp.start, sp.end);
      ReplaceLine(graph, slotMetaData, sp.pid, line, next);
      StatusKept(graph, status, sp.pid, line, next);
      graph := graph[sp.pid := graph[sp.pid][line := next]];
    }

    /** A span is given a line and inserted there. */
    method PlaceSpan(status: map<Pid, int>, sp: Span) returns (line: int, newStatus: map<Pid, int>)
      requires Valid() && StatusOk(graph, status)
      modifies this
      ensures Valid() && StatusOk(graph, newStatus) && newStatus == status[sp.pid := line]
      ensures 1 <= line <= |LinesOf(old(graph), sp.pid)| + 1
      ensures graph == Added(old(graph), sp, line)
      ensures Stays(old(graph), status, sp.pid, sp.start, sp.end) ==> line == status[sp.pid]
      ensures !Stays(old(graph), status, sp.pid, sp.start, sp.end) ==> FirstFree(old(graph), sp, line)
    {
      hide GraphOk, NeighbourTest, Ordered, AllConflict, StatusOk;
      ghost var was := graph;
      UnusedNumber(graph, slotMetaData, sp.pid);
      line, newStatus := FindLine(status, sp.pid, sp.start, sp.end);
      NumberedAt(graph, slotMetaData, sp.pid);
      ghost var mid := graph;
      FoundLine(was, mid, sp.pid, line);
      InsertAt(newStatus, sp, line);
      Replaced(was, mid, sp, line);
    }
  }

  /** The graph with a span added in order on a line of its process, an unused line being empty. */
  ghost function Added(graph: Graph, sp: Span, line: int): Graph {
    graph[sp.pid := LinesOf(graph, sp.pid)[line := Insort(LineOf(graph, sp.pid, line), IntervalOf(sp))]]
  }

  /** The span fits on this line of its process and on no line before it. */
  ghost predicate FirstFree(graph: Graph, sp: Span, line: int) {
    && !NeighbourTest(LineOf(graph, sp.pid, line), sp.start, sp.end)
    && forall l :: 1 <= l < line ==>
      l in LinesOf(graph, sp.pid) && NeighbourTest(LineOf(graph, sp.pid, l), sp.start, sp.end)
  }

  lemma FoundLine(was: Graph, mid: Graph, pid: Pid, line: int)
    requires pid in mid && line in mid[pid]
    requires mid == was || (line !in LinesOf(was, pid) && mid == was[pid := LinesOf(was, pid)[line := []]])
    ensures mid[pid][line] == LineOf(was, pid, line)
  {}

  lemma Replaced(was: Graph, mid: Graph, sp: Span, line: int)
    requires sp.pid in mid && line in mid[sp.pid] && mid[sp.pid][line] == LineOf(was, sp.pid, line)
    requires mid == was || mid == was[sp.pid := LinesOf(was, sp.pid)[line := []]]
    ensures mid[sp.pid := mid[sp.pid][line := Insort(mid[sp.pid][line], IntervalOf(sp))]] == Added(was, sp, line)
  {
    hide Insort;
    var lines, next := LinesOf(was, sp.pid), Insort(mid[sp.pid][line], IntervalOf(sp));
    assert mid[sp.pid][line := next] == lines[line := next];
  }

  function IntervalOf(s: Span): Interval { Interval(s.start, s.end) }

  lemma StatusKept(graph: Graph, status: map<Pid, int>, pid: Pid, line: int, next: Line)
    requires StatusOk(graph, status) && pid in graph && line in graph[pid]
    ensures StatusOk(graph[pid := graph[pid][line := next]], status)
  {}

  lemma EmptyFits(start: int, end: int)
    ensures !NeighbourTest([], start, end)
  {}

  lemma OrderedAt(graph: Graph, meta: seq<(Pid, int)>, p: Pid, l: int)
    requires GraphOk(graph, meta) && p in graph && l in graph[p]
    ensures Ordered(graph[p][l])
  {}

  lemma NumberedAt(graph: Graph, meta: seq<(Pid, int)>, p: Pid)
    requires GraphOk(graph, meta) && p in graph
    ensures forall l: int :: l in graph[p] <==> 1 <= l <= |graph[p]|
  {}

  lemma UnusedNumber(graph: Graph, meta: seq<(Pid, int)>, p: Pid)
    requires GraphOk(graph, meta)
    ensures |LinesOf(graph, p)| + 1 !in LinesOf(graph, p)
  {}
}
