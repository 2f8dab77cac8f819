/** The order of requests: first in, first out, at the ready queue and behind the barrier. */
module BarrierOrder {
  import opened Barrier

  /** The request in the sender's hand. */
  function Hand(s: State): seq<Client> {
    if s.sender.Holding? then [s.sender.client] else []
  }

  /** A request is launched in this step. */
  function Launched(s: State, t: State): seq<Client> {
    if s.sender.Holding? && t.sender.Idle? then [s.sender.client] else []
  }

  /** The handler builds a client's next request in this step: its round is counted and it has rounds to go. */
  function Built(w: Workload, s: State, t: State): seq<Client> {
    if s.handler.Counted? && t.handler.Queued? && s.handler.client < |s.round| == |w.total|
       && s.round[s.handler.client] < w.total[s.handler.client]
    then [s.handler.client] else []
  }

  /** A parked request is released in this step. */
  function Freed(s: State, t: State): seq<Client> {
    if s.handler.Releasing? && |t.parked| < |s.parked| then [s.parked[0]] else []
  }

  /** The requests launched, built and released in the first n steps, each in that order. */
  ghost function AllLaunched(trace: seq<State>, n: nat): seq<Client>
    requires n < |trace|
  {
    if n == 0 then [] else AllLaunched(trace, n - 1) + Launched(trace[n - 1], trace[n])
  }

  ghost function AllBuilt(w: Workload, trace: seq<State>, n: nat): seq<Client>
    requires n < |trace|
  {
    if n == 0 then [] else AllBuilt(w, trace, n - 1) + Built(w, trace[n - 1], trace[n])
  }

  ghost function AllFreed(trace: seq<State>, n: nat): seq<Client>
    requires n < |trace|
  {
    if n == 0 then [] else AllFreed(trace, n - 1) + Freed(trace[n - 1], trace[n])
  }

  /** One step, popping at the front: what leaves and stays in the queues is what was there and what came. */
  lemma StepOrder(w: Workload, s: State, t: State)
    requires w.fifo && Inv(w, s) && Inv(w, t) && Next(w, s, t)
    ensures Launched(s, t) + Hand(t) + t.ready
         == Hand(s) + s.ready + (if w.barrier then Freed(s, t) else Built(w, s, t))
    ensures Freed(s, t) + t.parked == s.parked + (if w.barrier then Built(w, s, t) else [])
  {
    hide Inv, Handles, Idles, Sends, Launched, Hand, Built, Freed;
    if Handles(w, s, t) {
      HandleOrder(w, s, t);
      assert [] + Hand(t) == Hand(s);
      Associates(Hand(s), s.ready, if w.barrier then Freed(s, t) else Built(w, s, t));
    } else {
      SendOrder(w, s, t);
      assert Hand(s) + s.ready + [] == Hand(s) + s.ready && [] + t.parked == s.parked == s.parked + [];
    }
  }

  lemma SendOrder(w: Workload, s: State, t: State)
    requires w.fifo && (Idles(w, s, t) || Sends(w, s, t))
    ensures Launched(s, t) + Hand(t) + t.ready == Hand(s) + s.ready && t.parked == s.parked
    ensures Built(w, s, t) == [] && Freed(s, t) == []
  {
    hide Launched, Hand, Built, Freed, Idles, Sends, Pop, Launch;
    SenderOnly(w, s, t);
    NothingBuilt(w, s, t);
    if i: nat :| CanPop(w, s, i) && t == Pop(s, i) {
      PopOrder(s);
    } else if s.sender.Holding? && t == Launch(s) {
      HandLaunched(s);
    } else {
      StillSender(w, s, t);
      NoLaunch(w, s, t);
      assert [] + Hand(t) == Hand(t);
    }
  }

  lemma StillSender(w: Workload, s: State, t: State)
    requires Idles(w, s, t) || Sends(w, s, t)
    requires (forall i: nat :: CanPop(w, s, i) ==> t != Pop(s, i)) && !(s.sender.Holding? && t == Launch(s))
    ensures Idles(w, s, t) || exists c :: CanRespond(s, c) && t == Respond(s, c)
  {
    hide Idles, CanPop, Pop, Launch, CanRespond, Respond;
  }

  lemma SenderOnly(w: Workload, s: State, t: State)
    requires Idles(w, s, t) || Sends(w, s, t)
    ensures t.handler == s.handler && t.parked == s.parked
  {}

  lemma NothingBuilt(w: Workload, s: State, t: State)
    requires t.handler == s.handler && t.parked == s.parked
    ensures Built(w, s, t) == [] && Freed(s, t) == []
  {}

  lemma PopOrder(s: State)
    requires s.sender.Permitted? && |s.ready| > 0
    ensures Launched(s, Pop(s, 0)) + Hand(Pop(s, 0)) + Pop(s, 0).ready == Hand(s) + s.ready
  {
    var t := Pop(s, 0);
    assert t.ready == s.ready[1..] && Hand(t) == [s.ready[0]] && Hand(s) == Launched(s, t) == [];
    assert [s.ready[0]] + s.ready[1..] == s.ready;
    assert [] + [s.ready[0]] == [s.ready[0]] && [] + s.ready == s.ready;
  }

  lemma HandLaunched(s: State)
    requires s.sender.Holding?
    ensures Launched(s, Launch(s)) + Hand(Launch(s)) + Launch(s).ready == Hand(s) + s.ready
  {
    assert Hand(s) + [] == Hand(s);
  }

  lemma NoLaunch(w: Workload, s: State, t: State)
    requires Idles(w, s, t) || exists c :: CanRespond(s, c) && t == Respond(s, c)
    ensures t.ready == s.ready && Hand(t) == Hand(s) && Launched(s, t) == []
  {}

  lemma HandleOrder(w: Workload, s: State, t: State)
    requires Inv(w, s) && Inv(w, t) && Handles(w, s, t)
    ensures Launched(s, t) == [] && Hand(t) == Hand(s)
    ensures t.ready == s.ready + (if w.barrier then Freed(s, t) else Built(w, s, t))
    ensures Freed(s, t) + t.parked == s.parked + (if w.barrier then Built(w, s, t) else [])
  {
    hide Places, Books, CountDone, CountAbove, Released;
    if s.handler.Releasing? && |s.parked| > 0 && t == ReleaseOne(s) {
      assert s.parked == [s.parked[0]] + s.parked[1..];
    }
  }

  /**
   With a first-in-first-out ready queue, requests are launched in the order in which they were queued: the first
   request of every client, then each next request in the order built, or with the barrier in the order released;
   and the barrier releases them in the order built.
   */
  lemma {:induction false} LaunchOrder(w: Workload, trace: seq<State>, n: nat)
    requires Ok(w) && Run(w, trace) && n < |trace| && w.fifo
    ensures AllLaunched(trace, n) + Hand(trace[n]) + trace[n].ready
         == Clients(|w.total|) + (if w.barrier then AllFreed(trace, n) else AllBuilt(w, trace, n))
    ensures w.barrier ==> AllFreed(trace, n) + trace[n].parked == AllBuilt(w, trace, n)
  {
    hide Inv, Next, Launched, Hand, Freed, Built;
    if n == 0 {
      assert Hand(trace[0]) == [] by { NoHand(w); }
    } else {
      var s, t := trace[n - 1], trace[n];
      LaunchOrder(w, trace, n - 1);
      RunInv(w, trace, n - 1);
      RunInv(w, trace, n);
      StepOrder(w, s, t);
      var out, came := AllLaunched(trace, n - 1), if w.barrier then Freed(s, t) else Built(w, s, t);
      Joins(out, Launched(s, t), Hand(t), t.ready, Hand(s), s.ready, came);
      Associates(AllFreed(trace, n - 1), Freed(s, t), t.parked);
      Associates(AllFreed(trace, n - 1), s.parked, Built(w, s, t));
      Associates(Clients(|w.total|), if w.barrier then AllFreed(trace, n - 1) else AllBuilt(w, trace, n - 1), came);
    }
  }

  lemma NoHand(w: Workload)
    ensures Hand(Init(w)) == []
  {}

  lemma Associates(a: seq<Client>, b: seq<Client>, c: seq<Client>)
    ensures (a + b) + c == a + (b + c)
  {}

  lemma Joins(out: seq<Client>, gone: seq<Client>, hand': seq<Client>, ready': seq<Client>, hand: seq<Client>,
              ready: seq<Client>, came: seq<Client>)
    requires gone + hand' + ready' == hand + ready + came
    ensures (out + gone) + hand' + ready' == (out + hand + ready) + came
  {
    calc {
      (out + gone) + hand' + ready';
      out + (gone + hand' + ready');
      out + (hand + ready + came);
      (out + hand + ready) + came;
    }
  }

  // ----- responses -----

  /** The client whose request is answered in this step. */
  ghost predicate IsAnswered(s: State, t: State, c: Client) {
    c in s.inFlight && t.inFlight == s.inFlight - multiset{c}
  }

  ghost function Answered(s: State, t: State): seq<Client> {
    if c :| IsAnswered(s, t, c) then [c] else []
  }

  /** The client whose response the handler takes in this step, a failure or not. */
  function Taken(s: State, t: State): seq<Client> {
    if s.handler.Waiting? && (t.handler.Took? || t.handler.Failed?) then [t.handler.client] else []
  }

  ghost function AllAnswered(trace: seq<State>, n: nat): seq<Client>
    requires n < |trace|
  {
    if n == 0 then [] else AllAnswered(trace, n - 1) + Answered(trace[n - 1], trace[n])
  }

  ghost function AllTaken(trace: seq<State>, n: nat): seq<Client>
    requires n < |trace|
  {
    if n == 0 then [] else AllTaken(trace, n - 1) + Taken(trace[n - 1], trace[n])
  }

  lemma NoAnswer(s: State, t: State)
    requires |t.inFlight| >= |s.inFlight|
    ensures Answered(s, t) == []
  {
    forall c ensures !IsAnswered(s, t, c) {
      if c in s.inFlight { assert |s.inFlight - multiset{c}| == |s.inFlight| - 1; }
    }
  }

  lemma OneAnswer(s: State, c: Client)
    requires CanRespond(s, c)
    ensures Answered(s, Respond(s, c)) == [c]
  {
    var t := Respond(s, c);
    assert IsAnswered(s, t, c);
    forall d | IsAnswered(s, t, d) ensures d == c {
      assert t.inFlight[c] == s.inFlight[c] - 1;
    }
  }

  lemma StepAnswers(w: Workload, s: State, t: State)
    requires Next(w, s, t)
    ensures Taken(s, t) + t.responses == s.responses + Answered(s, t)
  {
    hide Answered, Idles, Sends, Handles, Respond;
    if c :| CanRespond(s, c) && t == Respond(s, c) {
      OneAnswer(s, c);
      Responds(s, c);
    } else if CanTake(s) && (t == Take(s) || t == Fail(s)) {
      NoAnswer(s, t);
      assert s.responses == [s.responses[0]] + s.responses[1..];
    } else {
      OtherStep(w, s, t);
      NoAnswer(s, t);
    }
  }

  lemma Responds(s: State, c: Client)
    ensures Taken(s, Respond(s, c)) == [] && Respond(s, c).responses == s.responses + [c]
  {}

  lemma OtherStep(w: Workload, s: State, t: State)
    requires Next(w, s, t) && (forall c :: CanRespond(s, c) ==> t != Respond(s, c))
    requires !(CanTake(s) && (t == Take(s) || t == Fail(s)))
    ensures t.responses == s.responses && |t.inFlight| >= |s.inFlight| && Taken(s, t) == []
  {
    hide CountAbove;
  }

  /** Responses are handled in the order in which the requests were answered. */
  lemma {:induction false} AnswerOrder(w: Workload, trace: seq<State>, n: nat)
    requires Run(w, trace) && n < |trace|
    ensures AllTaken(trace, n) + trace[n].responses == AllAnswered(trace, n)
  {
    hide Next, Taken, Answered;
    if n > 0 {
      var s, t := trace[n - 1], trace[n];
      AnswerOrder(w, trace, n - 1);
      StepAnswers(w, s, t);
      Associates(AllTaken(trace, n - 1), Taken(s, t), t.responses);
      Associates(AllTaken(trace, n - 1), s.responses, Answered(s, t));
    }
  }
}
