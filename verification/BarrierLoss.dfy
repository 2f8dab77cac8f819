/** What a failed request does to a run with the round barrier: its round never ends. */
module BarrierLoss {
  import opened Barrier

  /** Every lost client is in the open round, which is not being released. */
  ghost predicate Blocked(w: Workload, s: State)
    requires |s.round| == |w.total|
  {
    && (s.lost != {} ==> !s.handler.Releasing?)
    && (forall c :: c in s.lost && c < |w.total| ==> s.round[c] == s.barrierRound)
  }

  /** From s to t no lost client moves on, and what is parked stays parked. */
  ghost predicate Stuck(w: Workload, s: State, t: State)
    requires |s.round| == |t.round| == |w.total|
  {
    && s.lost <= t.lost
    && (s.lost != {} ==> t.barrierRound == s.barrierRound && s.parked <= t.parked)
  }

  /** A lost client has not finished the open round, so no step can start releasing it. */
  lemma NoRelease(w: Workload, s: State, c: Client)
    requires Inv(w, s) && w.barrier && c in s.lost && c < |w.total| && s.round[c] == s.barrierRound
    ensures !s.handler.Releasing?
  {
    hide CountDone, CountAbove, Needed, Sum, Outstanding, Released, Books;
    DoneAll(w.total, s.round, s.barrierRound);
  }

  lemma SendBlocked(w: Workload, s: State, t: State)
    requires Inv(w, s) && Blocked(w, s) && (Idles(w, s, t) || Sends(w, s, t))
    ensures |t.round| == |w.total| && Blocked(w, t) && Stuck(w, s, t)
  {
    hide Places, Books, BarrierHolds;
  }

  lemma FailBlocked(w: Workload, s: State)
    requires Inv(w, s) && w.barrier && Blocked(w, s) && CanTake(s)
    ensures Blocked(w, Fail(s)) && Stuck(w, s, Fail(s))
  {
    hide CountDone, CountAbove, Needed, Sum, Outstanding, Released, Pending, Places, Books;
    FailQueues(w, s);
    InHand(w, s, s.responses[0]);
  }

  lemma RecordBlocked(w: Workload, s: State)
    requires Inv(w, s) && Blocked(w, s) && CanRecord(s)
    ensures Blocked(w, Record(s)) && Stuck(w, s, Record(s))
  {
    hide CountDone, CountAbove, Needed, Sum, Outstanding, Released, Pending, Places, Books, BarrierHolds;
    TookReleased(s);
    InHand(w, s, s.handler.client);
  }

  lemma HandleBlocked(w: Workload, s: State, t: State)
    requires Inv(w, s) && Inv(w, t) && w.barrier && Blocked(w, s) && Handles(w, s, t)
    ensures Blocked(w, t) && Stuck(w, s, t)
  {
    hide CountDone, CountAbove, Needed, Sum, Outstanding, Released, Pending, Books, BarrierHolds;
    if CanTake(s) && t == Fail(s) {
      FailBlocked(w, s);
    } else if CanRecord(s) && t == Record(s) {
      RecordBlocked(w, s);
    } else if c :| c in s.lost {
      assert t.lost == s.lost && t.round == s.round;
      if t.barrierRound == s.barrierRound { NoRelease(w, t, c); }
    }
  }

  lemma StepBlocked(w: Workload, s: State, t: State)
    requires Ok(w) && Inv(w, s) && w.barrier && Blocked(w, s) && Next(w, s, t)
    ensures Inv(w, t) && Blocked(w, t) && Stuck(w, s, t)
  {
    hide Places, Books, BarrierHolds, Idles, Sends, Handles, Blocked, Stuck;
    NextInv(w, s, t);
    if Handles(w, s, t) {
      HandleBlocked(w, s, t);
    } else {
      SendBlocked(w, s, t);
    }
  }

  lemma {:induction false} RunBlocked(w: Workload, trace: seq<State>, i: nat)
    requires Ok(w) && Run(w, trace) && w.barrier && i < |trace|
    ensures Inv(w, trace[i]) && Blocked(w, trace[i])
  {
    hide Next, Sane, Places, Books, BarrierHolds;
    RunInv(w, trace, i);
    assert |trace[i].round| == |w.total| by { Sized(w, trace[i]); }
    if i > 0 {
      RunBlocked(w, trace, i - 1);
      StepBlocked(w, trace[i - 1], trace[i]);
    }
  }

  lemma Sized(w: Workload, s: State)
    requires Inv(w, s)
    ensures |s.round| == |w.total|
  {
    hide Places, Books, BarrierHolds;
  }

  /**
   A client lost in round r holds the barrier at r for ever: at every later moment it is still lost and in
   round r, no round after r is released, and every request parked behind the barrier is still parked.
   */
  lemma {:induction false} LostBlocks(w: Workload, trace: seq<State>, i: nat, j: nat, c: Client)
    requires Ok(w) && Run(w, trace) && w.barrier && i <= j < |trace| && c in trace[i].lost
    ensures c < |w.total| == |trace[i].round| == |trace[j].round|
    ensures c in trace[j].lost && trace[j].round[c] == trace[i].round[c] == trace[j].barrierRound
    ensures !trace[j].handler.Releasing? && trace[i].parked <= trace[j].parked
    decreases j - i
  {
    hide Next, Books, BarrierHolds, Outstanding;
    RunBlocked(w, trace, i);
    RunBlocked(w, trace, j);
    if i < j {
      LostBlocks(w, trace, i, j - 1, c);
      RunBlocked(w, trace, j - 1);
      StepBlocked(w, trace[j - 1], trace[j]);
    }
  }

  /** So a client parked while another is lost never gets its next request sent. */
  lemma HeldBackForEver(w: Workload, trace: seq<State>, i: nat, j: nat, c: Client)
    requires Ok(w) && Run(w, trace) && w.barrier && i <= j < |trace| && HeldBack(trace[i], c)
    ensures HeldBack(trace[j], c) && c !in Released(trace[j])
    ensures c < |w.total| == |trace[i].round| == |trace[j].round| && trace[j].round[c] == trace[i].round[c]
  {
    hide Next, Books, Outstanding, Released, Pending;
    var d :| d in trace[i].lost;
    LostBlocks(w, trace, i, j, d);
    RunInv(w, trace, i);
    RunInv(w, trace, j);
    ParkedAt(w, trace[i], c);
    ParkedAt(w, trace[j], c);
    LostBlocks(w, trace, i, i, d);
  }

  lemma ParkedAt(w: Workload, s: State, c: Client)
    requires Inv(w, s) && w.barrier && c in s.parked
    ensures c < |w.total| && s.round[c] == s.barrierRound + 1 && c !in Released(s)
  {
    hide CountDone, CountAbove, Needed, Sum, Released, Pending, Books;
    assert multiset(s.parked)[c] >= 1;
    assert Outstanding(w, s)[c] == Released(s)[c] + multiset(s.parked)[c] + Pending(w, s)[c];
  }
}
