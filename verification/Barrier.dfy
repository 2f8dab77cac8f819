/**
 The multi-turn workload generator: a sender thread, a response-handler thread and the requests in flight
 between them, as a state machine. Each thread is a program counter, and every access to what the threads
 share is a step of its own, so the steps of one interleave freely with the steps of the other.
 */
module Barrier {
  import opened Sequences

  type Client = nat

  /** What does not change during a run. */
  datatype Workload = Workload(total: seq<nat>, maxRounds: nat, maxParallel: nat, barrier: bool, fifo: bool,
                               questions: nat)

  /** The sender: before its window test, past it, or with a popped request in hand. */
  datatype Sender = Idle | Permitted | Holding(client: Client)

  /**
   The handler: waiting for a response, or inside an iteration. `Took` has a response in hand, `Failed` one
   that reports failure; `Recorded` has counted the client's round, `Counted` the completed request, `Queued`
   has queued or parked the client's next request; `Releasing` is in the loop that releases a round.
   */
  datatype Handler = Waiting | Failed(client: Client) | Took(client: Client) | Recorded(client: Client)
                   | Counted(client: Client) | Queued(client: Client) | Releasing

  /**
   `ready`, `responses` and `parked` are the ready queue, the response queue and the handler's
   next_round_reqs, each request named by its client. `lost` are the clients whose request failed.
   `crashed` is a pop from an empty sub-question list.
   */
  datatype State = State(sent: nat, completed: nat, sender: Sender, ready: seq<Client>, inFlight: multiset<Client>,
                         responses: seq<Client>, handler: Handler, parked: seq<Client>, round: seq<nat>,
                         questions: nat, barrierRound: nat, barrierDone: nat, lost: set<Client>, crashed: bool)

  /** Number of clients with more than r rounds. */
  function CountAbove(total: seq<nat>, r: nat): nat {
    if |total| == 0 then 0
    else CountAbove(total[..|total| - 1], r) + (if total[|total| - 1] > r then 1 else 0)
  }

  function Sum(s: seq<nat>): nat {
    if |s| == 0 then 0 else Sum(s[..|s| - 1]) + s[|s| - 1]
  }

  /** Sub-questions the clients will still need. */
  function Needed(total: seq<nat>, round: seq<nat>): nat
    requires |total| == |round|
  {
    if |total| == 0 then 0
    else
      var n := |total| - 1;
      Needed(total[..n], round[..n]) + (if total[n] > round[n] + 1 then total[n] - round[n] - 1 else 0)
  }

  function Zeros(n: nat): seq<nat> { seq(n, _ => 0) }
  function Clients(n: nat): seq<Client> { seq(n, i requires 0 <= i => i) }

  /** Every client has at least one round and at most maxRounds; enough sub-questions were sampled. */
  ghost predicate Ok(w: Workload) {
    && w.maxParallel >= 1 && w.questions >= Needed(w.total, Zeros(|w.total|))
    && forall c :: 0 <= c < |w.total| ==> 1 <= w.total[c] <= w.maxRounds
  }

  function Init(w: Workload): State {
    State(0, 0, Idle, Clients(|w.total|), multiset{}, [], Waiting, [], Zeros(|w.total|), w.questions, 0, 0, {}, false)
  }

  // ----- steps of the sender and of a request -----

  /** The window test: fewer requests are outstanding than may be. */
  predicate CanCheck(w: Workload, s: State) { s.sender.Idle? && s.sent - s.completed < w.maxParallel }

  function Check(s: State): State { s.(sender := Permitted) }

  /** Pop from the ready queue, at the front or anywhere. */
  predicate CanPop(w: Workload, s: State, i: nat) {
    s.sender.Permitted? && i < |s.ready| && (w.fifo ==> i == 0)
  }

  function Pop(s: State, i: nat): State
    requires i < |s.ready|
  {
    s.(sender := Holding(s.ready[i]), ready := s.ready[..i] + s.ready[i + 1..])
  }

  /** The ready queue was empty. */
  predicate CanSkip(s: State) { s.sender.Permitted? && |s.ready| == 0 }

  function Skip(s: State): State { s.(sender := Idle) }

  /** Launch the popped request and count it as sent. */
  function Launch(s: State): State
    requires s.sender.Holding?
  {
    s.(sender := Idle, inFlight := s.inFlight + multiset{s.sender.client}, sent := s.sent + 1)
  }

  /** An in-flight request is answered. */
  predicate CanRespond(s: State, c: Client) { c in s.inFlight }

  function Respond(s: State, c: Client): State {
    s.(inFlight := s.inFlight - multiset{c}, responses := s.responses + [c])
  }

  // ----- steps of the handler -----

  predicate CanTake(s: State) { s.handler.Waiting? && |s.responses| > 0 }

  /** Take the oldest response. */
  function Take(s: State): State
    requires CanTake(s)
  {
    s.(responses := s.responses[1..], handler := Took(s.responses[0]))
  }

  /** Take the oldest response when it reports failure: its client sends no more requests. */
  function Fail(s: State): State
    requires CanTake(s)
  {
    s.(responses := s.responses[1..], handler := Failed(s.responses[0]), lost := s.lost + {s.responses[0]})
  }

  /** A failed request counts as completed, and nothing else happens. */
  function Drop(s: State): State { s.(handler := Waiting, completed := s.completed + 1) }

  predicate CanRecord(s: State) { s.handler.Took? && s.handler.client < |s.round| }

  function Record(s: State): State
    requires CanRecord(s)
  {
    var c := s.handler.client;
    s.(handler := Recorded(c), round := s.round[c := s.round[c] + 1])
  }

  function Count(s: State): State
    requires s.handler.Recorded?
  {
    s.(handler := Counted(s.handler.client), completed := s.completed + 1)
  }

  predicate CanRequeue(w: Workload, s: State) { s.handler.Counted? && s.handler.client < |s.round| == |w.total| }

  /** The client's next request is built and queued, or parked behind the barrier. */
  function Requeue(w: Workload, s: State): State
    requires CanRequeue(w, s)
  {
    var c := s.handler.client;
    var t := s.(handler := Queued(c));
    if s.round[c] >= w.total[c] then t
    else if s.questions == 0 then t.(crashed := true)
    else if w.barrier then t.(questions := s.questions - 1, parked := s.parked + [c])
    else t.(questions := s.questions - 1, ready := s.ready + [c])
  }

  /** The barrier count; the last client of the round starts the release. */
  function Tally(w: Workload, s: State): State {
    if !w.barrier || s.barrierRound >= w.maxRounds then s.(handler := Waiting)
    else if s.barrierDone + 1 == CountAbove(w.total, s.barrierRound) then
      s.(handler := Releasing, barrierDone := s.barrierDone + 1)
    else s.(handler := Waiting, barrierDone := s.barrierDone + 1)
  }

  /** One turn of the release loop. */
  function ReleaseOne(s: State): State
    requires |s.parked| > 0
  {
    s.(ready := s.ready + [s.parked[0]], parked := s.parked[1..])
  }

  function Finish(s: State): State { s.(handler := Waiting, barrierRound := s.barrierRound + 1, barrierDone := 0) }

  // ----- runs -----

  /** The sender's idle turns: they change nothing but its program counter. */
  ghost predicate Idles(w: Workload, s: State, t: State) {
    (CanCheck(w, s) && t == Check(s)) || (CanSkip(s) && t == Skip(s))
  }

  ghost predicate Sends(w: Workload, s: State, t: State) {
    || (exists i: nat :: CanPop(w, s, i) && t == Pop(s, i))
    || (s.sender.Holding? && t == Launch(s))
    || (exists c :: CanRespond(s, c) && t == Respond(s, c))
  }

  ghost predicate Handles(w: Workload, s: State, t: State) {
    || (CanTake(s) && (t == Take(s) || t == Fail(s)))
    || (s.handler.Failed? && t == Drop(s))
    || (CanRecord(s) && t == Record(s))
    || (s.handler.Recorded? && t == Count(s))
    || (CanRequeue(w, s) && t == Requeue(w, s))
    || (s.handler.Queued? && t == Tally(w, s))
    || (s.handler.Releasing? && |s.parked| > 0 && t == ReleaseOne(s))
    || (s.handler.Releasing? && |s.parked| == 0 && t == Finish(s))
  }

  ghost predicate Next(w: Workload, s: State, t: State) {
    !s.crashed && (Idles(w, s, t) || Sends(w, s, t) || Handles(w, s, t))
  }

  ghost predicate Run(w: Workload, trace: seq<State>) {
    |trace| > 0 && trace[0] == Init(w) && forall i :: 0 <= i < |trace| - 1 ==> Next(w, trace[i], trace[i + 1])
  }

  // ----- the invariant -----

  /** Requests past the barrier: queued, in the sender's hand, in flight, answered or just taken. */
  function Released(s: State): multiset<Client> {
    multiset(s.ready) + Underway(s)
  }

  function Underway(s: State): multiset<Client> {
    s.inFlight + multiset(s.responses)
    + (if s.sender.Holding? then multiset{s.sender.client} else multiset{})
    + (if s.handler.Took? then multiset{s.handler.client} else multiset{})
  }

  /** The round of a response is counted and the client's next request is still to be queued. */
  function Pending(w: Workload, s: State): multiset<Client> {
    if (s.handler.Recorded? || s.handler.Counted?) && s.handler.client < |s.round| == |w.total|
       && s.round[s.handler.client] < w.total[s.handler.client]
    then multiset{s.handler.client} else multiset{}
  }

  function Outstanding(w: Workload, s: State): multiset<Client> {
    Released(s) + multiset(s.parked) + Pending(w, s)
  }

  /** The round of a response is counted and the barrier has not seen it. */
  predicate Untallied(s: State) { s.handler.Recorded? || s.handler.Counted? || s.handler.Queued? }

  /** A response is in the handler's hand and completed_requests has not seen it. */
  predicate Uncounted(s: State) { s.handler.Failed? || s.handler.Took? || s.handler.Recorded? }

  /** The round of the released requests. */
  function OpenRound(s: State): nat { if s.handler.Releasing? then s.barrierRound + 1 else s.barrierRound }

  /** Clients of round r that have finished it. */
  function CountDone(total: seq<nat>, round: seq<nat>, r: nat): nat
    requires |total| == |round|
  {
    if |total| == 0 then 0
    else
      var n := |total| - 1;
      CountDone(total[..n], round[..n], r) + (if total[n] > r && round[n] > r then 1 else 0)
  }

  function One(b: bool): nat { if b then 1 else 0 }

  ghost predicate Sane(w: Workload, s: State) {
    && |s.round| == |w.total| && !s.crashed
    && (forall c :: 0 <= c < |w.total| ==> s.round[c] <= w.total[c])
    && (Untallied(s) ==> s.handler.client < |w.total|)
  }

  /** Every client with rounds to go has exactly one request somewhere, unless it lost it. */
  ghost predicate Places(w: Workload, s: State)
    requires |s.round| == |w.total|
  {
    && (forall c: Client :: Outstanding(w, s)[c] == One(c < |w.total| && s.round[c] < w.total[c] && c !in s.lost))
    && (forall c :: c in s.lost ==> c < |w.total| && s.round[c] < w.total[c])
  }

  ghost predicate Books(w: Workload, s: State)
    requires |s.round| == |w.total|
  {
    && s.completed + One(s.handler.Failed? || s.handler.Recorded?) == Sum(s.round) + |s.lost|
    && s.sent == s.completed + |s.inFlight| + |s.responses| + One(Uncounted(s))
    && s.sent - s.completed <= w.maxParallel && (!s.sender.Idle? ==> s.sent - s.completed < w.maxParallel)
    && s.questions >= Needed(w.total, s.round) + |Pending(w, s)|
  }

  ghost predicate BarrierHolds(w: Workload, s: State)
    requires Sane(w, s)
  {
    if !w.barrier then s.parked == [] && !s.handler.Releasing?
    else
      && (forall c :: c in Released(s) && c < |w.total| ==> s.round[c] == OpenRound(s))
      && (forall c :: c in s.parked && c < |w.total| ==> s.round[c] == s.barrierRound + 1)
      && (Untallied(s) ==> s.round[s.handler.client] == s.barrierRound + 1)
      && (forall c :: 0 <= c < |w.total| ==>
            s.round[c] <= s.barrierRound + 1 && (s.round[c] >= s.barrierRound || s.round[c] == w.total[c]))
      && s.barrierDone + One(Untallied(s)) == CountDone(w.total, s.round, s.barrierRound)
      && (s.handler.Releasing? ==> s.barrierDone == CountAbove(w.total, s.barrierRound))
      && (!s.handler.Releasing? ==>
            s.barrierDone < CountAbove(w.total, s.barrierRound) || CountAbove(w.total, s.barrierRound) == 0)
  }

  ghost predicate Inv(w: Workload, s: State) {
    Sane(w, s) && Places(w, s) && Books(w, s) && BarrierHolds(w, s)
  }

  // ----- sums and counts -----

  lemma {:induction false} SumUpdate(s: seq<nat>, c: nat)
    requires c < |s|
    ensures Sum(s[c := s[c] + 1]) == Sum(s) + 1
  {
    var n := |s| - 1;
    if c < n {
      SumUpdate(s[..n], c);
      assert s[c := s[c] + 1][..n] == s[..n][c := s[c] + 1];
    } else {
      assert s[c := s[c] + 1][..n] == s[..n];
    }
  }

  lemma {:induction false} NeededUpdate(total: seq<nat>, round: seq<nat>, c: nat)
    requires |total| == |round| && c < |total| && round[c] < total[c]
    ensures Needed(total, round) == Needed(total, round[c := round[c] + 1]) + (if round[c] + 1 < total[c] then 1 else 0)
  {
    var n := |total| - 1;
    if c < n {
      NeededUpdate(total[..n], round[..n], c);
      assert round[c := round[c] + 1][..n] == round[..n][c := round[c] + 1];
    } else {
      assert round[c := round[c] + 1][..n] == round[..n];
    }
  }

  lemma {:induction false} DoneUpdate(total: seq<nat>, round: seq<nat>, c: nat)
    requires |total| == |round| && c < |total| && round[c] < total[c]
    ensures CountDone(total, round[c := round[c] + 1], round[c]) == CountDone(total, round, round[c]) + 1
  {
    var n, r := |total| - 1, round[c];
    if c < n {
      DoneUpdate(total[..n], round[..n], c);
      assert round[c := r + 1][..n] == round[..n][c := r + 1];
    } else {
      assert round[c := r + 1][..n] == round[..n];
    }
  }

  lemma {:induction false} DoneAll(total: seq<nat>, round: seq<nat>, r: nat)
    requires |total| == |round|
    ensures CountDone(total, round, r) <= CountAbove(total, r)
    ensures CountDone(total, round, r) == CountAbove(total, r) <==>
      forall c :: 0 <= c < |total| && total[c] > r ==> round[c] > r
  {
    if |total| > 0 {
      var n := |total| - 1;
      DoneAll(total[..n], round[..n], r);
      assert (forall c :: 0 <= c < |total| && total[c] > r ==> round[c] > r)
        <==> (forall c :: 0 <= c < n && total[..n][c] > r ==> round[..n][c] > r) && (total[n] > r ==> round[n] > r);
    }
  }

  lemma {:induction false} DoneNone(total: seq<nat>, round: seq<nat>, r: nat)
    requires |total| == |round| && forall c :: 0 <= c < |round| ==> round[c] <= r
    ensures CountDone(total, round, r) == 0
  {
    if |total| > 0 { DoneNone(total[..|total| - 1], round[..|total| - 1], r); }
  }

  lemma {:induction false} AbovePositive(total: seq<nat>, r: nat, c: nat)
    requires c < |total| && total[c] > r
    ensures CountAbove(total, r) > 0
  {
    if c < |total| - 1 { AbovePositive(total[..|total| - 1], r, c); }
  }

  lemma {:induction false} SumBound(round: seq<nat>, total: seq<nat>)
    requires |round| == |total| && forall c :: 0 <= c < |round| ==> round[c] <= total[c]
    ensures Sum(round) <= Sum(total)
  {
    if |round| > 0 { SumBound(round[..|round| - 1], total[..|round| - 1]); }
  }

  // ----- every step keeps it -----

  lemma {:induction false} ClientsOnce(n: nat, c: Client)
    ensures multiset(Clients(n))[c] == if c < n then 1 else 0
  {
    if n > 0 {
      assert Clients(n) == Clients(n - 1) + [n - 1];
      ClientsOnce(n - 1, c);
    }
  }

  lemma {:induction false} SumZeros(n: nat)
    ensures Sum(Zeros(n)) == 0
  {
    if n > 0 {
      assert Zeros(n)[..n - 1] == Zeros(n - 1);
      SumZeros(n - 1);
    }
  }

  lemma ZerosAt(n: nat)
    ensures |Zeros(n)| == n && forall i :: 0 <= i < n ==> Zeros(n)[i] == 0
  {}

  lemma InitQueues(w: Workload)
    ensures Released(Init(w)) == Outstanding(w, Init(w)) == multiset(Clients(|w.total|))
  {
    hide Clients;
  }

  lemma InitInv(w: Workload)
    requires Ok(w)
    ensures Inv(w, Init(w))
  {
    hide CountAbove, CountDone, Needed, Sum, Clients, Zeros, Outstanding, Released;
    var s := Init(w);
    SumZeros(|w.total|);
    ZerosAt(|w.total|);
    InitQueues(w);
    forall c: Client ensures Outstanding(w, s)[c] == One(c < |w.total| && s.round[c] < w.total[c] && c !in s.lost) {
      ClientsOnce(|w.total|, c);
    }
    DoneNone(w.total, s.round, 0);
  }

  lemma SamePending(w: Workload, s: State, t: State)
    requires t.round == s.round
    requires t.handler == s.handler || (s.handler.Waiting? && t.handler.Took?)
    ensures Pending(w, t) == Pending(w, s)
  {}

  /** Moving a request between places on the same side of the barrier keeps the invariant. */
  lemma Moved(w: Workload, s: State, t: State)
    requires Inv(w, s) && Released(t) == Released(s) && t.parked == s.parked
    requires t.round == s.round && t.questions == s.questions && t.completed == s.completed && t.crashed == s.crashed
    requires t.barrierRound == s.barrierRound && t.barrierDone == s.barrierDone && t.lost == s.lost
    requires t.handler == s.handler || (s.handler.Waiting? && t.handler.Took?)
    requires t.sent == t.completed + |t.inFlight| + |t.responses| + One(Uncounted(t))
    requires t.sent - t.completed <= w.maxParallel && (!t.sender.Idle? ==> t.sent - t.completed < w.maxParallel)
    ensures Inv(w, t)
  {
    hide Released, CountDone, CountAbove, Needed, Sum, BarrierHolds, Pending;
    SamePending(w, s, t);
    assert Outstanding(w, t) == Outstanding(w, s);
    MovedBarrier(w, s, t);
  }

  lemma MovedBarrier(w: Workload, s: State, t: State)
    requires Sane(w, s) && BarrierHolds(w, s) && Sane(w, t) && Released(t) == Released(s) && t.parked == s.parked
    requires t.round == s.round && t.barrierRound == s.barrierRound && t.barrierDone == s.barrierDone
    requires t.handler == s.handler || (s.handler.Waiting? && t.handler.Took?)
    ensures BarrierHolds(w, t)
  {
    hide Released, CountDone, CountAbove;
  }

  lemma IdleInv(w: Workload, s: State)
    requires Inv(w, s)
    ensures CanCheck(w, s) ==> Inv(w, Check(s))
    ensures CanSkip(s) ==> Inv(w, Skip(s))
  {
    hide CountDone, CountAbove, Needed, Sum, Outstanding, BarrierHolds, Places;
    if CanCheck(w, s) { Moved(w, s, Check(s)); }
    if CanSkip(s) { Moved(w, s, Skip(s)); }
  }

  lemma PopInv(w: Workload, s: State, i: nat)
    requires Inv(w, s) && CanPop(w, s, i)
    ensures Inv(w, Pop(s, i))
  {
    hide CountDone, CountAbove, Needed, Sum, BarrierHolds, Outstanding, Places;
    var t := Pop(s, i);
    RemoveAt(s.ready, i);
    assert Released(t) == Released(s);
    Moved(w, s, t);
  }

  lemma LaunchInv(w: Workload, s: State)
    requires Inv(w, s) && s.sender.Holding?
    ensures Inv(w, Launch(s))
  {
    hide CountDone, CountAbove, Needed, Sum, BarrierHolds, Outstanding, Places;
    var t := Launch(s);
    assert Released(t) == Released(s);
    Moved(w, s, t);
  }

  lemma RespondInv(w: Workload, s: State, c: Client)
    requires Inv(w, s) && CanRespond(s, c)
    ensures Inv(w, Respond(s, c))
  {
    hide CountDone, CountAbove, Needed, Sum, BarrierHolds, Outstanding, Places;
    var t := Respond(s, c);
    assert Released(t) == Released(s);
    Moved(w, s, t);
  }

  lemma FirstOf(q: seq<Client>)
    requires |q| > 0
    ensures multiset(q) == multiset(q[1..]) + multiset{q[0]}
  {
    assert q == [q[0]] + q[1..];
  }

  lemma TakeInv(w: Workload, s: State)
    requires Inv(w, s) && CanTake(s)
    ensures Inv(w, Take(s))
  {
    hide CountDone, CountAbove, Needed, Sum, BarrierHolds, Outstanding, Places;
    var t := Take(s);
    FirstOf(s.responses);
    assert Released(t) == Released(s);
    Moved(w, s, t);
  }

  /** The answered client has this one request and rounds to go. */
  lemma InHand(w: Workload, s: State, c: Client)
    requires Inv(w, s) && c in Released(s)
    ensures c < |w.total| && s.round[c] < w.total[c] && c !in s.lost
    ensures Released(s)[c] == 1 && c !in s.parked && c !in Pending(w, s)
  {
    hide CountDone, CountAbove, Needed, Sum, BarrierHolds, Released, Pending;
    assert Outstanding(w, s)[c] == Released(s)[c] + multiset(s.parked)[c] + Pending(w, s)[c];
    assert c in s.parked ==> multiset(s.parked)[c] >= 1;
  }

  lemma PlacesKept(w: Workload, s: State, t: State)
    requires |s.round| == |w.total| && Places(w, s) && t.round == s.round && t.lost == s.lost
    requires Outstanding(w, t) == Outstanding(w, s)
    ensures Places(w, t)
  {
    hide Outstanding;
  }

  /** Client c gives up its request. */
  lemma PlacesLost(w: Workload, s: State, t: State, c: Client)
    requires |s.round| == |w.total| && Places(w, s) && t.round == s.round && t.lost == s.lost + {c}
    requires c < |w.total| && s.round[c] < w.total[c] && c !in s.lost
    requires Outstanding(w, s) == Outstanding(w, t) + multiset{c}
    ensures Places(w, t)
  {
    hide Outstanding;
    forall d: Client ensures Outstanding(w, t)[d] == One(d < |w.total| && t.round[d] < w.total[d] && d !in t.lost) {
      assert Outstanding(w, s)[d] == Outstanding(w, t)[d] + multiset{c}[d];
    }
  }

  /** Client c finishes a round and keeps its request only if it has rounds to go. */
  lemma PlacesRecorded(w: Workload, s: State, t: State, c: Client)
    requires |s.round| == |w.total| && Places(w, s) && t.lost == s.lost
    requires c < |w.total| && s.round[c] < w.total[c] && c !in s.lost && t.round == s.round[c := s.round[c] + 1]
    requires Outstanding(w, s) == Outstanding(w, t) + (if t.round[c] < w.total[c] then multiset{} else multiset{c})
    ensures Places(w, t)
  {
    hide Outstanding;
    var gone := if t.round[c] < w.total[c] then multiset{} else multiset{c};
    forall d: Client ensures Outstanding(w, t)[d] == One(d < |w.total| && t.round[d] < w.total[d] && d !in t.lost) {
      assert Outstanding(w, s)[d] == Outstanding(w, t)[d] + gone[d];
    }
  }

  lemma FailInv(w: Workload, s: State)
    requires Inv(w, s) && CanTake(s)
    ensures Inv(w, Fail(s))
  {
    hide CountDone, CountAbove, Needed, Sum, Outstanding, Released, Places;
    var c, t := s.responses[0], Fail(s);
    FailQueues(w, s);
    InHand(w, s, c);
    PlacesLost(w, s, t, c);
    assert |t.lost| == |s.lost| + 1;
  }

  lemma FailQueues(w: Workload, s: State)
    requires CanTake(s)
    ensures s.responses[0] in Released(s)
    ensures Released(s) == Released(Fail(s)) + multiset{s.responses[0]}
    ensures Outstanding(w, s) == Outstanding(w, Fail(s)) + multiset{s.responses[0]}
  {
    hide Pending;
    var c, t := s.responses[0], Fail(s);
    FirstOf(s.responses);
    assert Pending(w, s) == Pending(w, t) == multiset{} by { NotPending(w, s); NotPending(w, t); }
    assert Underway(s) == Underway(t) + multiset{c};
    assert Released(s) == Released(t) + multiset{c};
    Regroup(Released(t), multiset{c}, multiset(s.parked), multiset{});
  }

  lemma NotPending(w: Workload, s: State)
    requires !s.handler.Recorded? && !s.handler.Counted?
    ensures Pending(w, s) == multiset{}
  {}

  lemma DropInv(w: Workload, s: State)
    requires Inv(w, s) && s.handler.Failed?
    ensures Inv(w, Drop(s))
  {
    hide CountDone, CountAbove, Needed, Sum, Outstanding, Released, Places;
    var t := Drop(s);
    SameReleased(w, s, t);
    PlacesKept(w, s, t);
  }

  lemma SameReleased(w: Workload, s: State, t: State)
    requires s.ready == t.ready && s.inFlight == t.inFlight && s.responses == t.responses && s.sender == t.sender
    requires s.parked == t.parked && s.round == t.round && Pending(w, s) == Pending(w, t) && !s.handler.Took?
    requires !t.handler.Took?
    ensures Released(s) == Released(t) && Outstanding(w, s) == Outstanding(w, t)
  {}

  lemma RecordQueues(w: Workload, s: State)
    requires CanRecord(s) && |s.round| == |w.total|
    ensures var c, t := s.handler.client, Record(s);
            && c in Released(s) && Released(s) == Released(t) + multiset{c}
            && Pending(w, s) == multiset{}
            && Pending(w, t) == (if t.round[c] < w.total[c] then multiset{c} else multiset{})
            && Outstanding(w, s) == Outstanding(w, t) + (if t.round[c] < w.total[c] then multiset{} else multiset{c})
  {
    var c, t := s.handler.client, Record(s);
    assert Underway(s) == Underway(t) + multiset{c};
    assert Released(s) == Released(t) + multiset{c};
    Regroup(Released(t), multiset{c}, multiset(s.parked), multiset{});
  }

  lemma RecordInv(w: Workload, s: State)
    requires Inv(w, s) && s.handler.Took?
    ensures CanRecord(s) && Inv(w, Record(s))
  {
    hide CountDone, CountAbove, Needed, Sum, Released, Pending, BarrierHolds, Outstanding, Places;
    var c := s.handler.client;
    TookReleased(s);
    InHand(w, s, c);
    RecordQueues(w, s);
    PlacesRecorded(w, s, Record(s), c);
    NeededUpdate(w.total, s.round, c);
    SumUpdate(s.round, c);
    RecordBarrier(w, s);
  }

  lemma TookReleased(s: State)
    requires s.handler.Took?
    ensures s.handler.client in Released(s)
  {}

  lemma RecordBarrier(w: Workload, s: State)
    requires Inv(w, s) && CanRecord(s) && Sane(w, Record(s))
    ensures BarrierHolds(w, Record(s))
  {
    hide CountDone, CountAbove, Needed, Sum, Released, Pending, Places, Books;
    var c, t := s.handler.client, Record(s);
    RecordQueues(w, s);
    InHand(w, s, c);
    assert forall d :: d in Released(t) ==> d in Released(s) && d != c;
    DoneUpdate(w.total, s.round, c);
  }

  lemma CountInv(w: Workload, s: State)
    requires Inv(w, s) && s.handler.Recorded?
    ensures Inv(w, Count(s))
  {
    hide CountDone, CountAbove, Needed, Sum, Outstanding, Released, Places;
    SameReleased(w, s, Count(s));
    PlacesKept(w, s, Count(s));
  }

  lemma SameUnderway(s: State, t: State)
    requires t.inFlight == s.inFlight && t.responses == s.responses && t.sender == s.sender
    requires !s.handler.Took? && !t.handler.Took?
    ensures Underway(t) == Underway(s)
  {}

  lemma Queue(q: seq<Client>, c: Client)
    ensures multiset(q + [c]) == multiset(q) + multiset{c}
  {}

  lemma Regroup(a: multiset<Client>, x: multiset<Client>, u: multiset<Client>, p: multiset<Client>)
    ensures (a + x) + u == (a + u) + x
    ensures (a + u) + x + p == (a + u) + p + x == (a + u) + (p + x)
  {}

  lemma RequeueQueues(w: Workload, s: State)
    requires CanRequeue(w, s) && !Requeue(w, s).crashed
    ensures var t := Requeue(w, s);
            && Outstanding(w, t) == Outstanding(w, s) && Pending(w, t) == multiset{}
            && (w.barrier ==> Released(t) == Released(s))
            && t.parked == if w.barrier && Pending(w, s) != multiset{} then s.parked + [s.handler.client] else s.parked
  {
    hide Underway, Pending;
    var c, t := s.handler.client, Requeue(w, s);
    PendingIs(w, s, t);
    SameUnderway(s, t);
    Queue(s.parked, c);
    Queue(s.ready, c);
    Regroup(multiset(s.ready), multiset{c}, Underway(s), multiset(s.parked));
  }

  lemma PendingIs(w: Workload, s: State, t: State)
    requires CanRequeue(w, s) && t.handler.Queued?
    ensures Pending(w, t) == multiset{}
    ensures Pending(w, s) == if s.round[s.handler.client] < w.total[s.handler.client]
      then multiset{s.handler.client} else multiset{}
  {}

  lemma RequeueFields(w: Workload, s: State)
    requires CanRequeue(w, s)
    ensures var t := Requeue(w, s);
            && t.round == s.round && t.completed == s.completed && t.sent == s.sent && t.responses == s.responses
            && t.inFlight == s.inFlight && t.sender == s.sender && t.handler == Queued(s.handler.client)
            && t.lost == s.lost
            && t.barrierRound == s.barrierRound && t.barrierDone == s.barrierDone
            && t.crashed == (s.crashed || (Pending(w, s) != multiset{} && s.questions == 0))
            && (!t.crashed ==> t.questions == s.questions - |Pending(w, s)|)
  {}

  /** The sub-question list never runs dry. */
  lemma NeverCrashes(w: Workload, s: State)
    requires Inv(w, s) && s.handler.Counted?
    ensures CanRequeue(w, s) && !Requeue(w, s).crashed
  {
    hide CountDone, CountAbove, Needed, Sum, Released, Outstanding, BarrierHolds, Places;
    RequeueFields(w, s);
  }

  lemma RequeueInv(w: Workload, s: State)
    requires Inv(w, s) && s.handler.Counted?
    ensures CanRequeue(w, s) && Inv(w, Requeue(w, s))
  {
    NeverCrashes(w, s);
    hide CountDone, CountAbove, Needed, Sum, Released, Outstanding, Requeue, Pending, BarrierHolds, Places;
    RequeueFields(w, s);
    RequeueQueues(w, s);
    PlacesKept(w, s, Requeue(w, s));
    RequeueBarrier(w, s);
  }

  lemma RequeueBarrier(w: Workload, s: State)
    requires Inv(w, s) && CanRequeue(w, s) && Sane(w, Requeue(w, s))
    ensures BarrierHolds(w, Requeue(w, s))
  {
    hide CountDone, CountAbove, Needed, Sum, Released, Outstanding, Requeue, Pending, Books, Places;
    RequeueFields(w, s);
    RequeueQueues(w, s);
  }

  /** When the last client of the round is done, no request of the round is left. */
  lemma NoneReleased(w: Workload, s: State)
    requires Inv(w, s) && w.barrier && s.handler.Queued?
    requires CountAbove(w.total, s.barrierRound) == CountDone(w.total, s.round, s.barrierRound)
    ensures Released(s) == multiset{}
  {
    hide Needed, Sum, CountAbove, CountDone, Released, Outstanding, Pending, Books;
    DoneAll(w.total, s.round, s.barrierRound);
    forall c | c in Released(s) ensures false {
      InHand(w, s, c);
    }
  }

  lemma TallyFields(w: Workload, s: State)
    requires s.handler.Queued?
    ensures var t := Tally(w, s);
            && t == s.(handler := t.handler, barrierDone := t.barrierDone)
            && (t.handler.Waiting? || t.handler.Releasing?)
            && (!w.barrier ==> t.handler.Waiting? && t.barrierDone == s.barrierDone)
            && (w.barrier && s.barrierRound < w.maxRounds ==>
                  && t.barrierDone == s.barrierDone + 1
                  && (t.handler.Releasing? <==> s.barrierDone + 1 == CountAbove(w.total, s.barrierRound)))
  {
    hide CountAbove;
  }

  lemma TallyQueues(w: Workload, s: State)
    requires s.handler.Queued?
    ensures var t := Tally(w, s);
            && Released(t) == Released(s) && Outstanding(w, t) == Outstanding(w, s)
            && Pending(w, t) == Pending(w, s) == multiset{}
  {
    hide CountAbove, Tally, Underway;
    TallyFields(w, s);
    SameUnderway(s, Tally(w, s));
  }

  lemma TallyInv(w: Workload, s: State)
    requires Ok(w) && Inv(w, s) && s.handler.Queued?
    ensures Inv(w, Tally(w, s))
  {
    hide CountDone, CountAbove, Needed, Sum, Released, Outstanding, Pending, Tally, BarrierHolds, Places;
    TallyFields(w, s);
    TallyQueues(w, s);
    PlacesKept(w, s, Tally(w, s));
    TallyBarrier(w, s);
  }

  lemma TallyBarrier(w: Workload, s: State)
    requires Ok(w) && Inv(w, s) && s.handler.Queued? && Sane(w, Tally(w, s))
    ensures BarrierHolds(w, Tally(w, s))
  {
    hide CountDone, CountAbove, Needed, Sum, Released, Outstanding, Pending, Tally, Books, Places;
    TallyFields(w, s);
    TallyQueues(w, s);
    DoneAll(w.total, s.round, s.barrierRound);
    if w.barrier && s.barrierDone + 1 == CountAbove(w.total, s.barrierRound) { NoneReleased(w, s); }
  }

  lemma ReleaseQueues(w: Workload, s: State)
    requires |s.parked| > 0 && s.handler.Releasing?
    ensures var c, t := s.parked[0], ReleaseOne(s);
            Released(t) == Released(s) + multiset{c} && Outstanding(w, t) == Outstanding(w, s)
  {
    hide Underway, Pending;
    var c, t := s.parked[0], ReleaseOne(s);
    SameUnderway(s, t);
    SamePending(w, s, t);
    FirstOf(s.parked);
    Queue(s.ready, c);
    Regroup(multiset(s.ready), multiset{c}, Underway(s), multiset(t.parked));
  }

  lemma ReleaseInv(w: Workload, s: State)
    requires Inv(w, s) && s.handler.Releasing? && |s.parked| > 0
    ensures Inv(w, ReleaseOne(s))
  {
    hide CountDone, CountAbove, Needed, Sum, Released, Outstanding, Places;
    ReleaseQueues(w, s);
    PlacesKept(w, s, ReleaseOne(s));
  }

  lemma FinishInv(w: Workload, s: State)
    requires Inv(w, s) && s.handler.Releasing? && |s.parked| == 0
    ensures Inv(w, Finish(s))
  {
    hide CountDone, CountAbove, Needed, Sum, Released, Outstanding, BarrierHolds, Places;
    SameReleased(w, s, Finish(s));
    PlacesKept(w, s, Finish(s));
    FinishBarrier(w, s);
  }

  lemma FinishBarrier(w: Workload, s: State)
    requires Inv(w, s) && s.handler.Releasing? && |s.parked| == 0 && Sane(w, Finish(s))
    ensures BarrierHolds(w, Finish(s))
  {
    hide CountDone, CountAbove, Needed, Sum, Released, Outstanding, Books, Places;
    SameReleased(w, s, Finish(s));
    DoneAll(w.total, s.round, s.barrierRound);
    if w.barrier { DoneNone(w.total, s.round, s.barrierRound + 1); }
  }

  lemma SendsInv(w: Workload, s: State, t: State)
    requires Inv(w, s) && Sends(w, s, t)
    ensures Inv(w, t)
  {
    hide Inv, Pop, Respond, Launch;
    if i: nat :| CanPop(w, s, i) && t == Pop(s, i) {
      PopInv(w, s, i);
    } else if s.sender.Holding? && t == Launch(s) {
      LaunchInv(w, s);
    } else {
      var c :| CanRespond(s, c) && t == Respond(s, c);
      RespondInv(w, s, c);
    }
  }

  /** Every step of the handler keeps the invariant. */
  lemma HandlesInv(w: Workload, s: State, t: State)
    requires Ok(w) && Inv(w, s) && Handles(w, s, t)
    ensures Inv(w, t)
  {
    hide Inv, Ok, Take, Fail, Drop, Record, Count, Requeue, Tally, ReleaseOne, Finish;
    match s.handler
    case Waiting => TakeInv(w, s); FailInv(w, s);
    case Failed(_) => DropInv(w, s);
    case Took(_) => RecordInv(w, s);
    case Recorded(_) => CountInv(w, s);
    case Counted(_) => RequeueInv(w, s);
    case Queued(_) => TallyInv(w, s);
    case Releasing => if |s.parked| > 0 { ReleaseInv(w, s); } else { FinishInv(w, s); }
  }

  lemma NextInv(w: Workload, s: State, t: State)
    requires Ok(w) && Inv(w, s) && Next(w, s, t)
    ensures Inv(w, t)
  {
    hide Inv, Ok, Sends, Handles;
    if Idles(w, s, t) {
      IdleInv(w, s);
    } else if Sends(w, s, t) {
      SendsInv(w, s, t);
    } else {
      HandlesInv(w, s, t);
    }
  }

  lemma {:induction false} RunInv(w: Workload, trace: seq<State>, i: nat)
    requires Ok(w) && Run(w, trace) && i < |trace|
    ensures Inv(w, trace[i])
  {
    hide Inv, Next;
    if i == 0 {
      InitInv(w);
    } else {
      RunInv(w, trace, i - 1);
      NextInv(w, trace[i - 1], trace[i]);
    }
  }

  // ----- what every run promises -----

  /**
   Between any two steps of the two threads: no sub-question pop has underflowed; at most maxParallel requests
   are in flight or unhandled; and when a request is past the barrier in its client's round r, every other
   client has finished its rounds before r.
   */
  lemma RunSafe(w: Workload, trace: seq<State>, i: nat)
    requires Ok(w) && Run(w, trace) && i < |trace|
    ensures var s := trace[i];
            && !s.crashed && |s.round| == |w.total|
            && |s.inFlight| + |s.responses| + One(Uncounted(s)) == s.sent - s.completed <= w.maxParallel
            && (w.barrier ==> forall c, d :: c in Released(s) && c < |w.total| && 0 <= d < |w.total| ==>
                  s.round[d] >= s.round[c] || s.round[d] == w.total[d])
  {
    hide CountDone, CountAbove, Needed, Sum, Outstanding, Released, Places;
    var s := trace[i];
    RunInv(w, trace, i);
    if w.barrier && s.handler.Releasing? { DoneAll(w.total, s.round, s.barrierRound); }
  }

  // ----- progress -----

  /** What is left of the handler's iteration. */
  function Rest(h: Handler): nat {
    match h
    case Waiting => 0
    case Failed(_) => 1
    case Took(_) => 1
    case Recorded(_) => 13
    case Counted(_) => 12
    case Queued(_) => 5
    case Releasing => 3
  }

  /** What is still to be done; only the sender's idle turns leave it as it is. */
  function Potential(w: Workload, s: State): int {
    20 * (Sum(w.total) - Sum(s.round)) + 6 * |s.parked| + 5 * |s.ready| + 3 * |s.inFlight| + 2 * |s.responses|
    + 4 * One(s.sender.Holding?) + Rest(s.handler)
  }

  lemma StepLowers(w: Workload, s: State, t: State)
    requires Next(w, s, t)
    ensures Idles(w, s, t) ==> Potential(w, t) == Potential(w, s)
    ensures !Idles(w, s, t) ==> Potential(w, t) < Potential(w, s)
  {
    hide Sum, CountAbove, Sends, Handles, Potential;
    if Idles(w, s, t) {
      IdleKeeps(w, s, t);
    } else if Sends(w, s, t) {
      SendLowers(w, s, t);
    } else {
      HandleLowers(w, s, t);
    }
  }

  lemma IdleKeeps(w: Workload, s: State, t: State)
    requires Idles(w, s, t)
    ensures Potential(w, t) == Potential(w, s)
  {
    hide Sum;
  }

  lemma SendLowers(w: Workload, s: State, t: State)
    requires Sends(w, s, t)
    ensures Potential(w, t) < Potential(w, s)
  {
    hide Sum, Rest;
    if i: nat :| CanPop(w, s, i) && t == Pop(s, i) {
      assert |t.ready| == |s.ready| - 1;
    } else if s.sender.Holding? && t == Launch(s) {
      assert |t.inFlight| == |s.inFlight| + 1;
    } else {
      assert |t.inFlight| == |s.inFlight| - 1 && |t.responses| == |s.responses| + 1;
    }
  }

  lemma HandleLowers(w: Workload, s: State, t: State)
    requires Handles(w, s, t)
    ensures Potential(w, t) < Potential(w, s)
  {
    hide Sum, CountAbove;
    if CanRecord(s) && t == Record(s) { SumUpdate(s.round, s.handler.client); }
  }

  /** Steps of the first n that are not idle turns of the sender. */
  ghost function WorkSteps(w: Workload, trace: seq<State>, n: nat): nat
    requires n < |trace|
  {
    if n == 0 then 0 else WorkSteps(w, trace, n - 1) + One(!Idles(w, trace[n - 1], trace[n]))
  }

  lemma {:induction false} WorkLowers(w: Workload, trace: seq<State>, n: nat)
    requires Run(w, trace) && n < |trace|
    ensures WorkSteps(w, trace, n) + Potential(w, trace[n]) <= Potential(w, trace[0])
  {
    hide Next, Potential, Idles;
    if n > 0 {
      WorkLowers(w, trace, n - 1);
      StepLowers(w, trace[n - 1], trace[n]);
    }
  }

  lemma {:induction false} OneEach(total: seq<nat>)
    requires forall c :: 0 <= c < |total| ==> total[c] >= 1
    ensures |total| <= Sum(total)
  {
    if |total| > 0 { OneEach(total[..|total| - 1]); }
  }

  /** However the threads interleave, a run holds at most 25 working steps per round of a client. */
  lemma RunBounded(w: Workload, trace: seq<State>, n: nat)
    requires Ok(w) && Run(w, trace) && n < |trace|
    ensures WorkSteps(w, trace, n) <= 25 * Sum(w.total)
  {
    hide Sum, Next, Places, Books, BarrierHolds;
    WorkLowers(w, trace, n);
    RunInv(w, trace, n);
    SumBound(trace[n].round, w.total);
    SumZeros(|w.total|);
    OneEach(w.total);
  }

  /** A working step is one or two steps away. */
  ghost predicate CanWork(w: Workload, s: State) {
    || (exists t :: Next(w, s, t) && Potential(w, t) < Potential(w, s))
    || (exists t, u :: Next(w, s, t) && Next(w, t, u) && Potential(w, u) < Potential(w, s))
  }

  /** The client's next request is held back for ever: it is parked, and a client of the round is lost. */
  predicate HeldBack(s: State, c: Client) { s.lost != {} && c in s.parked }

  /**
   While a client has rounds to go, is not lost and is not held back by a lost one, work is at most two steps
   away: the handler, a request or the sender can take a working step, or the sender's window test lets it take
   one. Without the barrier nothing is ever parked, so that this holds for every client not lost.
   */
  lemma NeverStalled(w: Workload, trace: seq<State>, i: nat, c: Client)
    requires Ok(w) && Run(w, trace) && i < |trace| && c !in trace[i].lost && !HeldBack(trace[i], c)
    requires c < |w.total| == |trace[i].round| && trace[i].round[c] < w.total[c]
    ensures CanWork(w, trace[i])
  {
    hide Inv, Next, Potential, HeldBack;
    RunInv(w, trace, i);
    var s := trace[i];
    if !s.handler.Waiting? || |s.responses| > 0 {
      var t := HandlerMoves(w, s);
    } else if s.sender.Holding? || |s.inFlight| > 0 {
      var t := RequestMoves(w, s);
    } else {
      SomeReady(w, s, c);
      var t, u := SenderMoves(w, s);
    }
  }

  lemma HandlerMoves(w: Workload, s: State) returns (t: State)
    requires Inv(w, s) && (!s.handler.Waiting? || |s.responses| > 0)
    ensures Next(w, s, t) && Potential(w, t) < Potential(w, s)
  {
    hide Sum, CountAbove, CountDone, Needed, Released, Outstanding, Places, Books, BarrierHolds, Potential;
    match s.handler {
      case Waiting => t := Take(s);
      case Failed(_) => t := Drop(s);
      case Took(_) => RecordInv(w, s); t := Record(s);
      case Recorded(_) => t := Count(s);
      case Counted(_) => t := Requeue(w, s);
      case Queued(_) => t := Tally(w, s);
      case Releasing => t := if |s.parked| > 0 then ReleaseOne(s) else Finish(s);
    }
    StepLowers(w, s, t);
  }

  lemma RequestMoves(w: Workload, s: State) returns (t: State)
    requires Inv(w, s) && (s.sender.Holding? || |s.inFlight| > 0)
    ensures Next(w, s, t) && Potential(w, t) < Potential(w, s)
  {
    hide Sum, Released, Outstanding, Places, Books, BarrierHolds, Potential;
    if s.sender.Holding? {
      t := Launch(s);
    } else {
      var c :| c in s.inFlight;
      t := Respond(s, c);
    }
    StepLowers(w, s, t);
  }

  lemma SenderMoves(w: Workload, s: State) returns (t: State, u: State)
    requires Inv(w, s) && |s.ready| > 0 && !s.sender.Holding? && s.sent - s.completed < w.maxParallel
    ensures Potential(w, u) < Potential(w, s)
    ensures s.sender.Permitted? ==> Next(w, s, u)
    ensures s.sender.Idle? ==> Next(w, s, t) && Next(w, t, u)
  {
    hide Sum, Released, Outstanding, Places, Books, BarrierHolds, Potential;
    t := if s.sender.Idle? then Check(s) else s;
    assert CanPop(w, t, 0);
    u := Pop(t, 0);
    if s.sender.Idle? { StepLowers(w, s, t); }
    StepLowers(w, t, u);
  }

  lemma SomeReady(w: Workload, s: State, c: Client)
    requires Ok(w) && Inv(w, s) && c !in s.lost && !HeldBack(s, c) && c < |w.total| && s.round[c] < w.total[c]
    requires s.handler.Waiting? && |s.responses| == 0 && !s.sender.Holding? && |s.inFlight| == 0
    ensures |s.ready| > 0 && s.sent - s.completed < w.maxParallel
  {
    hide CountDone, CountAbove, Needed, Sum;
    assert s.inFlight == multiset{};
    if |s.ready| == 0 {
      assert Released(s) == multiset{};
      AllParked(w, s);
      assert c in s.parked && s.lost == {};
      AbovePositive(w.total, s.barrierRound, c);
      DoneAll(w.total, s.round, s.barrierRound);
    }
  }

  /** With nothing released, every client with rounds to go is parked, unless it is lost. */
  lemma AllParked(w: Workload, s: State)
    requires Inv(w, s) && s.handler.Waiting? && Released(s) == multiset{}
    ensures forall d: Client :: d < |w.total| && s.round[d] < w.total[d] && d !in s.lost ==> d in s.parked
  {
    hide CountDone, CountAbove, Needed, Sum, Released, BarrierHolds, Books;
    forall d: Client | d < |w.total| && s.round[d] < w.total[d] && d !in s.lost ensures d in s.parked {
      assert multiset(s.parked)[d] == 1;
    }
  }

  // ----- totals -----

  /** Sum of the clients of rounds 0..n-1. */
  function RoundSizes(total: seq<nat>, n: nat): nat {
    if n == 0 then 0 else RoundSizes(total, n - 1) + CountAbove(total, n - 1)
  }

  lemma {:induction false} RoundSizesSnoc(total: seq<nat>, x: nat, n: nat)
    ensures RoundSizes(total + [x], n) == RoundSizes(total, n) + (if x < n then x else n)
  {
    if n > 0 {
      RoundSizesSnoc(total, x, n - 1);
      assert (total + [x])[..|total|] == total;
    }
  }

  /** Counting requests by client or by round gives the same total. */
  lemma {:induction false} TotalByRounds(total: seq<nat>, n: nat)
    requires forall c :: 0 <= c < |total| ==> total[c] <= n
    ensures Sum(total) == RoundSizes(total, n)
  {
    if |total| == 0 {
      NoRounds(n);
    } else {
      var front := total[..|total| - 1];
      assert total == front + [total[|total| - 1]];
      TotalByRounds(front, n);
      RoundSizesSnoc(front, total[|total| - 1], n);
    }
  }

  lemma {:induction false} NoRounds(n: nat)
    ensures RoundSizes([], n) == 0
  {
    if n > 0 { NoRounds(n - 1); }
  }

  /**
   With nothing outstanding and the handler waiting, every client has completed exactly its rounds or lost a
   request, and the counters agree with the rounds done; without losses they equal both totals.
   */
  lemma RunCompletes(w: Workload, trace: seq<State>, i: nat)
    requires Ok(w) && Run(w, trace) && i < |trace| && Outstanding(w, trace[i]) == multiset{}
    requires trace[i].handler.Waiting?
    ensures |trace[i].round| == |w.total|
    ensures forall c: nat :: c < |w.total| && c !in trace[i].lost ==> trace[i].round[c] == w.total[c]
    ensures trace[i].completed == trace[i].sent == Sum(trace[i].round) + |trace[i].lost|
    ensures trace[i].lost == {} ==>
      trace[i].round == w.total && trace[i].completed == Sum(w.total) == RoundSizes(w.total, w.maxRounds)
  {
    hide CountDone, CountAbove, Needed, Sum, BarrierHolds, Outstanding;
    var s := trace[i];
    RunInv(w, trace, i);
    forall c: nat | c < |w.total| && c !in s.lost ensures s.round[c] == w.total[c] {
      assert Outstanding(w, s)[c] == 0;
    }
    TotalByRounds(w.total, w.maxRounds);
    EmptyQueues(w, s);
  }

  /** Every client has done its rounds, or is lost, or is held back by a lost one. */
  ghost predicate Settled(w: Workload, s: State)
    requires |s.round| == |w.total|
  {
    forall c: nat :: c < |w.total| ==> s.round[c] == w.total[c] || c in s.lost || HeldBack(s, c)
  }

  /**
   A run can always work on until every client is settled, and since the working steps are bounded it cannot
   do so for ever. Without losses all rounds are then done and counted; without the barrier every client that
   lost no request has done all its rounds.
   */
  lemma WorksOrDone(w: Workload, trace: seq<State>, i: nat)
    requires Ok(w) && Run(w, trace) && i < |trace|
    ensures |trace[i].round| == |w.total| && (CanWork(w, trace[i]) || Settled(w, trace[i]))
    ensures CanWork(w, trace[i]) || trace[i].lost != {}
         || (trace[i].round == w.total && trace[i].completed == trace[i].sent == Sum(w.total))
    ensures CanWork(w, trace[i]) || w.barrier
         || (forall c: nat :: c < |w.total| && c !in trace[i].lost ==> trace[i].round[c] == w.total[c])
  {
    hide CanWork, Next, Potential, Sum, Places, Books, Outstanding;
    var s := trace[i];
    RunInv(w, trace, i);
    if c: nat :| c < |w.total| && s.round[c] < w.total[c] && c !in s.lost && !HeldBack(s, c) {
      NeverStalled(w, trace, i, c);
    } else if !s.handler.Waiting? {
      assert CanWork(w, s) by { HandlerWorks(w, s); }
    } else if s.lost == {} {
      NothingLeft(w, s);
      RunCompletes(w, trace, i);
    }
  }

  lemma HandlerWorks(w: Workload, s: State)
    requires Inv(w, s) && !s.handler.Waiting?
    ensures CanWork(w, s)
  {
    hide Inv, Next, Potential;
    var t := HandlerMoves(w, s);
  }

  lemma NothingLeft(w: Workload, s: State)
    requires Inv(w, s) && forall c: nat :: c < |w.total| ==> s.round[c] >= w.total[c]
    ensures Outstanding(w, s) == multiset{}
  {
    hide Outstanding, Books, BarrierHolds;
    assert forall c: Client :: Outstanding(w, s)[c] == 0;
  }

  lemma EmptyQueues(w: Workload, s: State)
    requires Outstanding(w, s) == multiset{}
    ensures |s.inFlight| == 0 && |s.responses| == 0
  {
    assert |Outstanding(w, s)| >= |s.inFlight| + |s.responses|;
  }

  // ----- the object the two threads share -----

  class WorkloadGenerator {
    const w: Workload
    const clientsPerRound: seq<nat>
    var sentRequests: nat
    var completedRequests: nat
    var sender: Sender
    var readyQueue: seq<Client>
    var inFlight: multiset<Client>
    var responseQueue: seq<Client>
    var handler: Handler
    var nextRoundReqs: seq<Client>
    var rounds: seq<nat>
    var subQuestions: nat
    var currentBarrierRound: nat
    var barrierRoundCompleted: nat
    ghost var lost: set<Client>

    ghost function View(): State
      reads this
    {
      State(sentRequests, completedRequests, sender, readyQueue, inFlight, responseQueue, handler, nextRoundReqs,
            rounds, subQuestions, currentBarrierRound, barrierRoundCompleted, lost, false)
    }

    ghost predicate Valid()
      reads this
    {
      && Ok(w) && Inv(w, View())
      && |clientsPerRound| == w.maxRounds
      && forall r :: 0 <= r < w.maxRounds ==> clientsPerRound[r] == CountAbove(w.total, r)
    }

    constructor (w: Workload)
      requires Ok(w)
      ensures Valid() && this.w == w && View() == Init(w)
    {
      hide Inv, Ok, CountAbove;
      this.w := w;
      clientsPerRound := seq(w.maxRounds, r requires 0 <= r => CountAbove(w.total, r));
      sentRequests, completedRequests, sender, handler := 0, 0, Idle, Waiting;
      readyQueue, inFlight, responseQueue, nextRoundReqs := Clients(|w.total|), multiset{}, [], [];
      rounds, subQuestions := Zeros(|w.total|), w.questions;
      currentBarrierRound, barrierRoundCompleted, lost := 0, 0, {};
      new;
      InitInv(w);
    }

    /** request_loop: may another request be launched? */
    method TestWindow()
      requires Valid() && sender.Idle?
      modifies this`sender
      ensures Valid() && View() == if CanCheck(w, old(View())) then Check(old(View())) else old(View())
    {
      hide Inv, Ok, CountAbove;
      IdleInv(w, View());
      if sentRequests - completedRequests < w.maxParallel { sender := Permitted; }
    }

    /** request_loop: pop a ready request, if any. i is the policy's choice. */
    method PopReady(i: nat)
      requires Valid() && sender.Permitted? && (|readyQueue| > 0 ==> i < |readyQueue| && (w.fifo ==> i == 0))
      modifies this`sender, this`readyQueue
      ensures Valid() && View() == if |old(readyQueue)| == 0 then Skip(old(View())) else Pop(old(View()), i)
    {
      hide Inv, Ok, CountAbove;
      IdleInv(w, View());
      if |readyQueue| == 0 {
        sender := Idle;
      } else {
        PopInv(w, View(), i);
        sender := Holding(readyQueue[i]);
        readyQueue := readyQueue[..i] + readyQueue[i + 1..];
      }
    }

    /** request_loop: launch the popped request. */
    method LaunchRequest()
      requires Valid() && sender.Holding?
      modifies this`sender, this`inFlight, this`sentRequests
      ensures Valid() && View() == Launch(old(View()))
    {
      hide Inv, Ok, CountAbove;
      LaunchInv(w, View());
      inFlight := inFlight + multiset{sender.client};
      sentRequests := sentRequests + 1;
      sender := Idle;
    }

    /** handle_request: the answer to an in-flight request arrives. */
    method Answer(c: Client)
      requires Valid() && c in inFlight
      modifies this`inFlight, this`responseQueue
      ensures Valid() && View() == Respond(old(View()), c)
    {
      hide Inv, Ok, CountAbove;
      RespondInv(w, View(), c);
      inFlight := inFlight - multiset{c};
      responseQueue := responseQueue + [c];
    }

    /** response_handler: get a response, successful or not. */
    method GetResponse(success: bool)
      requires Valid() && handler.Waiting? && |responseQueue| > 0
      modifies this`responseQueue, this`handler, this`lost
      ensures Valid() && View() == if success then Take(old(View())) else Fail(old(View()))
    {
      hide Inv, Ok, CountAbove;
      TakeInv(w, View());
      FailInv(w, View());
      var c := responseQueue[0];
      responseQueue := responseQueue[1..];
      if success { handler := Took(c); } else { handler := Failed(c); lost := lost + {c}; }
    }

    /** response_handler: a failed request is only counted. */
    method SkipFailed()
      requires Valid() && handler.Failed?
      modifies this`completedRequests, this`handler
      ensures Valid() && View() == Drop(old(View()))
    {
      hide Inv, Ok, CountAbove;
      DropInv(w, View());
      completedRequests := completedRequests + 1;
      handler := Waiting;
    }

    /** response_handler: the client's round is done. */
    method RecordRound()
      requires Valid() && handler.Took?
      modifies this`rounds, this`handler
      ensures Valid() && CanRecord(old(View())) && View() == Record(old(View()))
    {
      hide Inv, Ok, CountAbove;
      RecordInv(w, View());
      var c := handler.client;
      rounds := rounds[c := rounds[c] + 1];
      handler := Recorded(c);
    }

    /** response_handler: the request is completed, which opens the sender's window. */
    method CountCompleted()
      requires Valid() && handler.Recorded?
      modifies this`completedRequests, this`handler
      ensures Valid() && View() == Count(old(View()))
    {
      hide Inv, Ok, CountAbove;
      CountInv(w, View());
      completedRequests := completedRequests + 1;
      handler := Counted(handler.client);
    }

    /** response_handler: build the client's next request and queue or park it. The pop is safe. */
    method QueueNext()
      requires Valid() && handler.Counted?
      modifies this`subQuestions, this`nextRoundReqs, this`readyQueue, this`handler
      ensures Valid() && CanRequeue(w, old(View())) && View() == Requeue(w, old(View()))
    {
      hide Inv, CountAbove, Ok;
      NeverCrashes(w, View());
      RequeueInv(w, View());
      var c := handler.client;
      if rounds[c] < w.total[c] {
        assert subQuestions > 0;
        subQuestions := subQuestions - 1;
        if w.barrier {
          nextRoundReqs := nextRoundReqs + [c];
        } else {
          readyQueue := readyQueue + [c];
        }
      }
      handler := Queued(c);
    }

    /** response_handler: count the round and see whether it is complete. */
    method TallyRound()
      requires Valid() && handler.Queued?
      modifies this`barrierRoundCompleted, this`handler
      ensures Valid() && View() == Tally(w, old(View()))
    {
      hide Inv, CountAbove, Ok;
      TallyInv(w, View());
      handler := Waiting;
      if w.barrier && currentBarrierRound < w.maxRounds {
        barrierRoundCompleted := barrierRoundCompleted + 1;
        if barrierRoundCompleted == clientsPerRound[currentBarrierRound] { handler := Releasing; }
      }
    }

    /** response_handler: one turn of the release loop, or its end. */
    method ReleaseRound()
      requires Valid() && handler.Releasing?
      modifies this`readyQueue, this`nextRoundReqs, this`currentBarrierRound, this`barrierRoundCompleted, this`handler
      ensures Valid() && View() == if |old(nextRoundReqs)| > 0 then ReleaseOne(old(View())) else Finish(old(View()))
    {
      hide Inv, CountAbove, Ok;
      if |nextRoundReqs| > 0 {
        ReleaseInv(w, View());
        readyQueue := readyQueue + [nextRoundReqs[0]];
        nextRoundReqs := nextRoundReqs[1..];
      } else {
        FinishInv(w, View());
        currentBarrierRound := currentBarrierRound + 1;
        barrierRoundCompleted := 0;
        handler := Waiting;
      }
    }
  }
}
