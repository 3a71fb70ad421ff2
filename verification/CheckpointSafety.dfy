/** The invariant holds after every action, whatever the interleaving. */
module CheckpointSafety {
  import opened Checkpointer
  import opened CheckpointRuns
  import opened CheckpointBatches

  // ----- histories of calls -----

  lemma HistoryGrows(calls: seq<Call>, c: Call)
    ensures Handed(calls + [c]) == Handed(calls) + Seqs(c.batch)
    ensures Held(calls + [c]) == Held(calls) + (if c.Took() then Seqs(c.batch) else {})
  {
    assert (calls + [c])[..|calls|] == calls;
  }

  lemma ResultRecorded(calls: seq<Call>, result: Result)
    requires calls != []
    ensures var last := calls[|calls| - 1]; var next := WithResult(calls, result);
            next == calls[..|calls| - 1] + [last.(result := result)] &&
            Handed(next) == Handed(calls) &&
            Held(next) == Held(calls[..|calls| - 1]) +
                          (if last.(result := result).Took() then Seqs(last.batch) else {})
  {
    var last := calls[|calls| - 1];
    HistoryGrows(calls[..|calls| - 1], last.(result := result));
    assert WithResult(calls, result) == calls[..|calls| - 1] + [last.(result := result)];
  }

  lemma {:induction false} AcceptedCallsHold(calls: seq<Call>)
    requires AllTaken(calls)
    ensures Held(calls) == Handed(calls)
  {
    if calls != [] {
      AcceptedCallsHold(calls[..|calls| - 1]);
    }
  }

  lemma ChainGrows(initial: string, calls: seq<Call>, c: Call)
    requires TokensChain(initial, calls) && c.token == TokenAfter(initial, calls)
    ensures TokensChain(initial, calls + [c])
  {
    assert forall i :: 0 <= i <= |calls| ==> (calls + [c])[..i] == calls[..i];
    assert calls[..|calls|] == calls;
  }

  lemma ChainAnswered(initial: string, calls: seq<Call>, result: Result)
    requires calls != [] && TokensChain(initial, calls)
    ensures TokensChain(initial, WithResult(calls, result))
    ensures TokenAfter(initial, WithResult(calls, result)) ==
            if result.Accepted? then result.token else TokenAfter(initial, calls[..|calls| - 1])
  {
    var next := WithResult(calls, result);
    assert forall i :: 0 <= i < |calls| ==> next[..i] == calls[..i];
  }

  // ----- the queue -----

  lemma TakingSorts(c: Core, lo: nat, ended: set<nat>)
    requires Consecutive(c.queue, lo)
    ensures var t := c.Take(ended); Sorted(c, c.queue, lo, t.batch, t, ended)
  {
    var t := c.TakeFrom(c.queue, [], 0, |c.token| + BATCH_OVERHEAD_BYTES, ended);
    TakeSorts(c, c.queue, lo, [], 0, |c.token| + BATCH_OVERHEAD_BYTES, ended);
    assert t.batch[0..] == t.batch;
  }

  lemma TakingFits(c: Core, ended: set<nat>)
    ensures var t := c.Take(ended); t.batch == [] || WithinLimits(t.batch, c.token)
  {
    TakeWithinLimits(c, c.queue, [], 0, |c.token| + BATCH_OVERHEAD_BYTES, ended);
  }

  /** The action changes no history: not the queue, the batch in flight, the calls or the outcomes sent. */
  predicate Quiet(a: Action) {
    !a.TakeBatch? && !a.DropOne? && !a.DeliverOne? && !a.AppendSubmit? && !a.AppendFinal? && !a.Respond? &&
    !a.IssueCall?
  }

  lemma QuietActions(s: State, a: Action)
    requires Quiet(a) && Enabled(s, a)
    ensures var t := Do(s, a);
            InFlight(t.flusher) == InFlight(s.flusher) && Drops(t.flusher) == Drops(s.flusher) && t.calls == s.calls &&
            t.submitted == s.submitted && t.core.queue == s.core.queue && t.core.settled == s.core.settled &&
            t.core.token == s.core.token && t.core.nextSeq == s.core.nextSeq && t.core.flushing == s.core.flushing &&
            s.ended <= t.ended && (t.flusher.Idle? <==> s.flusher.Idle?)
    ensures var t := Do(s, a);
            (s.core.terminated ==> t.core.terminated && t.core.cutoffSet == s.core.cutoffSet &&
                                   t.core.cutoff == s.core.cutoff) &&
            (s.core.haltErr.Some? ==> t.core.haltErr.Some?)
  {
  }

  lemma QuietKeepsQueue(s: State, a: Action)
    requires Quiet(a) && Enabled(s, a) && QueueInv(s)
    ensures QueueInv(Do(s, a))
  {
    QuietActions(s, a);
  }

  lemma QuietKeepsFlight(s: State, a: Action)
    requires Quiet(a) && Enabled(s, a) && FlightInv(s)
    ensures FlightInv(Do(s, a))
  {
    QuietActions(s, a);
    assert Head(Do(s, a)) == Head(s);
  }

  lemma QuietKeepsDrops(s: State, a: Action)
    requires Quiet(a) && Enabled(s, a) && DropsInv(s)
    ensures DropsInv(Do(s, a))
  {
    QuietActions(s, a);
    assert Head(Do(s, a)) == Head(s);
  }

  lemma QuietKeepsCount(s: State, a: Action)
    requires Quiet(a) && Enabled(s, a) && CountInv(s)
    ensures CountInv(Do(s, a))
  {
  }

  lemma QuietKeepsChain(s: State, a: Action, initial: string)
    requires Quiet(a) && Enabled(s, a) && ChainInv(s, initial)
    ensures ChainInv(Do(s, a), initial)
  {
    QuietActions(s, a);
  }

  lemma QuietKeepsCalls(s: State, a: Action)
    requires Quiet(a) && Enabled(s, a) && CallsInv(s) && UniformInv(s) && FlightInv(s)
    ensures CallsInv(Do(s, a))
  {
    QuietActions(s, a);
  }

  lemma QuietKeepsFinal(s: State, a: Action)
    requires Quiet(a) && Enabled(s, a) && QueueInv(s) && HandlerInv(s) && FinalInv(s)
    ensures FinalInv(Do(s, a))
  {
    QuietActions(s, a);
  }

  /** The flusher's own quiet steps. */
  predicate Flushes(a: Action) {
    a.Unlock? || a.CheckTermination? || a.AskHalt? || a.StoreTerminated? || a.Decide?
  }

  lemma FlusherKeepsUniform(s: State, a: Action)
    requires Flushes(a) && Enabled(s, a) && FlightInv(s) && FinalInv(s) && UniformInv(s)
    ensures UniformInv(Do(s, a))
  {
    var t := Do(s, a);
    assert t.calls == s.calls && t.submitted == s.submitted && InFlight(t.flusher) == InFlight(s.flusher);
  }

  lemma ReturnKeepsUniform(s: State)
    requires Enabled(s, HandlerReturns) && QueueInv(s) && HandlerInv(s) && FinalInv(s) && FlightInv(s) && UniformInv(s)
    ensures UniformInv(Do(s, HandlerReturns))
  {
  }

  lemma BystanderKeepsUniform(s: State, a: Action)
    requires Quiet(a) && !Flushes(a) && !a.HandlerReturns? && Enabled(s, a) && UniformInv(s)
    ensures UniformInv(Do(s, a))
  {
    var t := Do(s, a);
    assert t.calls == s.calls && t.submitted == s.submitted && t.flusher == s.flusher;
    assert t.core.cutoff == s.core.cutoff && t.core.cutoffSet == s.core.cutoffSet;
    assert forall r :: t.core.Sendable(r) == s.core.Sendable(r);
  }

  lemma QuietKeepsUniform(s: State, a: Action)
    requires Quiet(a) && Enabled(s, a) && QueueInv(s) && FlightInv(s) && HandlerInv(s) && FinalInv(s) && UniformInv(s)
    ensures UniformInv(Do(s, a))
  {
    if Flushes(a) {
      FlusherKeepsUniform(s, a);
    } else if a.HandlerReturns? {
      ReturnKeepsUniform(s);
    } else {
      BystanderKeepsUniform(s, a);
    }
  }

  lemma BystanderKeepsOrder(s: State, a: Action)
    requires Quiet(a) && !Flushes(a) && Enabled(s, a) && OrderInv(s)
    ensures OrderInv(Do(s, a))
  {
    var t := Do(s, a);
    assert t.flusher == s.flusher && t.calls == s.calls && Head(t) == Head(s);
    assert forall r :: Closed(s.core, r) ==> Closed(t.core, r);
  }

  lemma UnlockKeepsOrder(s: State)
    requires Enabled(s, Unlock) && OrderInv(s)
    ensures OrderInv(Do(s, Unlock))
  {
    assert Head(Do(s, Unlock)) == Head(s);
    assert Seqs([]) == {};
  }

  lemma CheckKeepsOrder(s: State, a: Action)
    requires (a.CheckTermination? || a.AskHalt?) && Enabled(s, a) && UniformInv(s) && OrderInv(s)
    ensures OrderInv(Do(s, a))
  {
    var t := Do(s, a);
    assert InFlight(t.flusher) == InFlight(s.flusher) && t.calls == s.calls && t.core == s.core && Head(t) == Head(s);
  }

  lemma DecideKeepsOrder(s: State, a: Action)
    requires (a.StoreTerminated? || a.Decide?) && Enabled(s, a) && CallsInv(s) && OrderInv(s)
    ensures OrderInv(Do(s, a))
  {
    var t := Do(s, a);
    assert InFlight(t.flusher) == InFlight(s.flusher) && t.calls == s.calls && Head(t) == Head(s);
    assert forall r :: Closed(s.core, r) ==> Closed(t.core, r);
  }

  lemma QuietKeepsOrder(s: State, a: Action)
    requires Quiet(a) && Enabled(s, a) && CallsInv(s) && UniformInv(s) && OrderInv(s)
    ensures OrderInv(Do(s, a))
  {
    if a.Unlock? {
      UnlockKeepsOrder(s);
    } else if a.CheckTermination? || a.AskHalt? {
      CheckKeepsOrder(s, a);
    } else if a.StoreTerminated? || a.Decide? {
      DecideKeepsOrder(s, a);
    } else {
      BystanderKeepsOrder(s, a);
    }
  }

  /** A batch about to be sent holds nothing that belongs after a gap. */
  lemma GapsAboveBatch(s: State)
    requires QueueInv(s) && FlightInv(s) && FinalInv(s) && UniformInv(s) && GapInv(s)
    requires (s.flusher.Batched? && !s.core.terminated) || (s.flusher.Asking? && s.core.haltErr.None?)
    ensures GapsAbove(s.core.settled, Bar(s.core), Handed(s.calls), s.flusher.batch)
  {
    forall k: nat, r | Gap(s.core.settled, Handed(s.calls), k) && r in s.flusher.batch && Owed(Bar(s.core), k, r)
      ensures r.pos < k
    {
      assert Closed(s.core, s.submitted[k]);
      assert s.core.Sendable(r);
    }
  }

  lemma QuietKeepsGaps(s: State, a: Action)
    requires Quiet(a) && Enabled(s, a)
    requires QueueInv(s) && FlightInv(s) && FinalInv(s) && UniformInv(s) && GapInv(s)
    ensures GapInv(Do(s, a))
  {
    QuietActions(s, a);
    assert forall k: nat :: Gap(s.core.settled, Handed(s.calls), k) ==> s.core.terminated;
    if (s.flusher.Batched? && !s.core.terminated) || (s.flusher.Asking? && s.core.haltErr.None?) {
      GapsAboveBatch(s);
    }
  }

  /** Without a halt cause, what was queued before the cutoff and is settled is in a call the service recorded. */
  lemma SettledIsRecorded(s: State, initial: string)
    requires Inv(s, initial) && s.core.terminated && s.core.cutoffSet && s.core.haltErr.None?
    requires AllSettled(s.core.cutoff, s.core.settled, s.ended)
    ensures AllRecorded(s.core.cutoff, s.calls, s.ended)
  {
    var handed := Handed(s.calls);
    forall k: nat | k < s.core.cutoff ensures k in Held(s.calls) || k in s.ended {
      if k !in s.ended {
        assert Gap(s.core.settled, handed, k) ==> Closed(s.core, s.submitted[k]);
        if k in handed {
          HandedIsHeld(s, initial, k);
        }
      }
    }
  }

  /** A request handed to the client is in a recorded call, is in the call that ended the invocation, or is in the
      call whose response is awaited. */
  lemma HandedIsHeld(s: State, initial: string, k: nat)
    requires ChainInv(s, initial) && CallsInv(s) && k in Handed(s.calls)
    ensures k in Held(s.calls) || s.core.haltErr.Some? || (s.flusher.Calling? && k in Seqs(InFlight(s.flusher)))
  {
    AcceptedCallsHold(s.calls[..|s.calls| - 1]);
  }

  lemma QuietKeepsHandler(s: State, a: Action, initial: string)
    requires Quiet(a) && Enabled(s, a) && Inv(s, initial)
    ensures HandlerInv(Do(s, a))
  {
    QuietActions(s, a);
    if a.ReadHalt? && s.handler.idle && !s.overtaken && s.core.haltErr.None? {
      SettledIsRecorded(s, initial);
    }
  }

  lemma NothingLeft(s: State)
    requires QueueInv(s) && FlightInv(s) && FinalInv(s) && s.core.cutoffSet
    requires InFlight(s.flusher) == [] && Drops(s.flusher) == []
    requires forall r :: r in s.core.queue && r.pos < s.core.cutoff ==> r.pos in s.ended
    ensures AllSettled(s.core.cutoff, s.core.settled, s.ended)
  {
    forall k: nat | k < s.core.cutoff ensures k in s.core.settled || k in s.ended {
      if k >= Head(s) {
        assert s.core.queue[k - Head(s)] == s.submitted[k];
        assert s.core.queue[k - Head(s)] in s.core.queue;
      }
    }
  }

  lemma CountKeepsIdle(s: State)
    requires Enabled(s, LowerCount) && QueueInv(s) && FlightInv(s) && CountInv(s) && FinalInv(s) && IdleInv(s)
    ensures IdleInv(Do(s, LowerCount))
  {
    if s.core.outstanding == 1 && s.core.cutoffSet {
      NothingLeft(s);
    }
  }

  lemma AwaitKeepsIdle(s: State)
    requires Enabled(s, AwaitIdle) && QueueInv(s) && FlightInv(s) && CountInv(s) && FinalInv(s)
    ensures IdleInv(Do(s, AwaitIdle))
  {
    if s.core.cutoffSet && (s.core.outstanding == 0 || (s.owing.Close? && !Overtaken(s))) {
      NothingLeft(s);
    }
  }

  lemma QuietKeepsIdle(s: State, a: Action)
    requires Quiet(a) && Enabled(s, a) && QueueInv(s) && FlightInv(s) && CountInv(s) && FinalInv(s) && HandlerInv(s) &&
             IdleInv(s)
    ensures IdleInv(Do(s, a))
  {
    if a.LowerCount? {
      CountKeepsIdle(s);
    } else if a.AwaitIdle? {
      AwaitKeepsIdle(s);
    } else {
      QuietActions(s, a);
    }
  }

  // ----- a call and its response -----

  lemma AllWereAccepted(s: State, initial: string)
    requires s.flusher.Cleared? && ChainInv(s, initial) && CallsInv(s)
    ensures AllTaken(s.calls)
  {
    forall i | 0 <= i < |s.calls| ensures s.calls[i].result.Accepted? {
      assert i < |s.calls| - 1 ==> s.calls[i] == s.calls[..|s.calls| - 1][i];
    }
  }

  lemma ChainTakesCall(initial: string, calls: seq<Call>, token: string, c: Call)
    requires TokensChain(initial, calls) && token == TokenAfter(initial, calls) && c.token == token && c.result.Awaited?
    ensures TokensChain(initial, calls + [c]) && token == TokenAfter(initial, calls + [c])
  {
    ChainGrows(initial, calls, c);
    assert (calls + [c])[..|calls|] == calls;
  }

  lemma IssueKeepsChain(s: State, initial: string)
    requires s.flusher.Cleared? && FlightInv(s) && ChainInv(s, initial) && AllTaken(s.calls)
    requires Above(Handed(s.calls), s.flusher.batch)
    ensures ChainInv(Do(s, IssueCall), initial)
  {
    var t := Do(s, IssueCall);
    var c := Call(s.flusher.batch, s.flusher.token, Awaited);
    ChainTakesCall(initial, s.calls, s.core.token, c);
    assert t.calls == s.calls + [c] && t.calls[..|t.calls| - 1] == s.calls;
    assert forall d :: d in t.calls ==> d == c || d in s.calls;
  }

  lemma IssueKeepsCalls(s: State)
    requires s.flusher.Cleared? && CallsInv(s)
    ensures CallsInv(Do(s, IssueCall))
  {
  }

  lemma IssueKeepsOrder(s: State)
    requires s.flusher.Cleared? && OrderInv(s) && forall r :: r in s.flusher.batch ==> r.pos < Head(s)
    ensures OrderInv(Do(s, IssueCall))
  {
    var b, t := s.flusher.batch, Do(s, IssueCall);
    var handed, held := Handed(s.calls), Held(s.calls);
    HistoryGrows(s.calls, Call(b, s.flusher.token, Awaited));
    assert Handed(t.calls) == handed + Seqs(b) && Held(t.calls) == held;
    assert forall k :: k in handed + Seqs(b) ==> k < Head(s);
    assert t.flusher == Calling(b) && Head(t) == Head(s);
  }

  lemma IssueKeepsGaps(s: State)
    requires s.flusher.Cleared? && FlightInv(s) && GapInv(s)
    ensures GapInv(Do(s, IssueCall))
  {
    var handed, more := Handed(s.calls), Handed(Do(s, IssueCall).calls);
    HistoryGrows(s.calls, Call(s.flusher.batch, s.flusher.token, Awaited));
    assert forall k: nat :: Gap(s.core.settled, more, k) ==> Gap(s.core.settled, handed, k);
    forall k: nat, j: nat
      | Gap(s.core.settled, more, k) && j in more && j < |s.submitted| && Owed(Bar(s.core), k, s.submitted[j])
      ensures j < k
    {
      assert Gap(s.core.settled, handed, k);
      if j in Seqs(s.flusher.batch) {
        assert s.submitted[j] in s.flusher.batch;
      }
    }
  }

  lemma IssueKeepsQueue(s: State)
    requires s.flusher.Cleared? && QueueInv(s) && FinalInv(s)
    ensures QueueInv(Do(s, IssueCall)) && FinalInv(Do(s, IssueCall))
  {
  }

  lemma IssueKeepsFlight(s: State)
    requires s.flusher.Cleared? && FlightInv(s)
    ensures FlightInv(Do(s, IssueCall))
  {
    assert InFlight(Do(s, IssueCall).flusher) == InFlight(s.flusher);
  }

  lemma IssueKeepsCount(s: State)
    requires s.flusher.Cleared? && DropsInv(s) && CountInv(s) && IdleInv(s)
    ensures DropsInv(Do(s, IssueCall)) && CountInv(Do(s, IssueCall)) && IdleInv(Do(s, IssueCall))
  {
  }

  lemma IssueKeepsHandler(s: State)
    requires s.flusher.Cleared? && HandlerInv(s)
    ensures HandlerInv(Do(s, IssueCall))
  {
    HistoryGrows(s.calls, Call(s.flusher.batch, s.flusher.token, Awaited));
  }

  lemma IssueKeepsUniform(s: State)
    requires s.flusher.Cleared? && UniformInv(s)
    ensures UniformInv(Do(s, IssueCall))
  {
    var c := Call(s.flusher.batch, s.flusher.token, Awaited);
    assert forall d :: d in s.calls + [c] ==> d == c || d in s.calls;
  }

  lemma IssueKeeps(s: State, initial: string)
    requires s.flusher.Cleared? && Inv(s, initial)
    ensures Inv(Do(s, IssueCall), initial)
  {
    AllWereAccepted(s, initial);
    IssueKeepsChain(s, initial);
    IssueKeepsCalls(s);
    IssueKeepsOrder(s);
    IssueKeepsGaps(s);
    IssueKeepsHandler(s);
    IssueKeepsUniform(s);
    IssueKeepsQueue(s);
    IssueKeepsFlight(s);
    IssueKeepsCount(s);
  }

  lemma ChainTakesResult(initial: string, calls: seq<Call>, token: string, result: Result)
    requires calls != [] && TokensChain(initial, calls) && token == TokenAfter(initial, calls)
    requires !calls[|calls| - 1].result.Accepted?
    ensures var next := WithResult(calls, result);
            TokensChain(initial, next) && TokenAfter(initial, next) == if result.Accepted? then result.token else token
  {
    ChainAnswered(initial, calls, result);
  }

  lemma LimitsAnswered(calls: seq<Call>, result: Result)
    requires calls != [] && forall c :: c in calls ==> WithinLimits(c.batch, c.token)
    ensures forall c :: c in WithResult(calls, result) ==> WithinLimits(c.batch, c.token)
  {
    assert forall c :: c in WithResult(calls, result) ==> c == calls[|calls| - 1].(result := result) || c in calls;
    assert calls[|calls| - 1] in calls;
  }

  lemma ResponseKeepsChain(s: State, result: Result, initial: string)
    requires Enabled(s, Respond(result)) && ChainInv(s, initial) && CallsInv(s)
    ensures ChainInv(Do(s, Respond(result)), initial)
  {
    var t := Do(s, Respond(result));
    ChainTakesResult(initial, s.calls, s.core.token, result);
    LimitsAnswered(s.calls, result);
    assert t.calls == WithResult(s.calls, result);
    assert t.calls[..|t.calls| - 1] == s.calls[..|s.calls| - 1];
  }

  lemma ResponseKeepsCalls(s: State, result: Result)
    requires Enabled(s, Respond(result)) && QueueInv(s) && FlightInv(s) && CallsInv(s) && FinalInv(s)
    ensures CallsInv(Do(s, Respond(result)))
  {
    ResultRecorded(s.calls, result);
    if result.NoToken? && HasFinal(s.flusher.batch) {
      FinalLeavesNothing(s);
    }
  }

  /** Behind the final write the queue holds only requests that termination refuses. */
  lemma FinalLeavesNothing(s: State)
    requires QueueInv(s) && FlightInv(s) && FinalInv(s) && HasFinal(InFlight(s.flusher))
    ensures s.finalWrite.Queued? && s.core.terminated && NothingSendable(s.core)
  {
    var f :| f in InFlight(s.flusher) && f.final;
    assert s.submitted[f.pos] == f;
    forall r | r in s.core.queue ensures !s.core.Sendable(r) {
      var i :| 0 <= i < |s.core.queue| && s.core.queue[i] == r;
      assert r == s.submitted[Head(s) + i];
    }
  }

  lemma ResponseHistory(s: State, result: Result)
    requires Enabled(s, Respond(result)) && CallsInv(s)
    ensures var t := Do(s, Respond(result));
            Handed(t.calls) == Handed(s.calls) && Held(s.calls) <= Held(t.calls) &&
            Held(t.calls) <= Handed(t.calls) + Held(s.calls) &&
            (t.flusher.outcome == Recorded ==> Seqs(s.flusher.batch) <= Held(t.calls))
  {
    ResultRecorded(s.calls, result);
  }

  lemma ResponseKeepsOrder(s: State, result: Result)
    requires Enabled(s, Respond(result)) && CallsInv(s) && OrderInv(s)
    ensures OrderInv(Do(s, Respond(result)))
  {
    ResponseHistory(s, result);
  }

  lemma ResponseKeepsGaps(s: State, result: Result)
    requires Enabled(s, Respond(result)) && CallsInv(s) && GapInv(s)
    ensures GapInv(Do(s, Respond(result)))
  {
    ResponseHistory(s, result);
  }

  lemma ResponseKeepsHandler(s: State, result: Result)
    requires Enabled(s, Respond(result)) && CallsInv(s) && HandlerInv(s)
    ensures HandlerInv(Do(s, Respond(result)))
  {
    ResponseHistory(s, result);
  }

  lemma ResponseKeepsQueue(s: State, result: Result)
    requires Enabled(s, Respond(result)) && QueueInv(s)
    ensures QueueInv(Do(s, Respond(result)))
  {
  }

  lemma ResponseLeaves(s: State, result: Result)
    requires Enabled(s, Respond(result))
    ensures var t := Do(s, Respond(result));
            (t.flusher.Halting? || t.flusher.Answered?) && t.flusher.batch == s.flusher.batch &&
            t.core.queue == s.core.queue && t.core.settled == s.core.settled && t.submitted == s.submitted
  {
  }

  /** What is in flight depends on what a response leaves as it was. */
  lemma SameFlight(s: State, t: State)
    requires FlightInv(s) && s.flusher.Calling? && (t.flusher.Halting? || t.flusher.Answered?)
    requires t.flusher.batch == s.flusher.batch && t.core.queue == s.core.queue && t.core.settled == s.core.settled
    requires t.submitted == s.submitted
    ensures FlightInv(t)
  {
    assert InFlight(t.flusher) == InFlight(s.flusher) && Head(t) == Head(s);
  }

  lemma ResponseKeepsFlight(s: State, result: Result)
    requires Enabled(s, Respond(result)) && FlightInv(s)
    ensures FlightInv(Do(s, Respond(result)))
  {
    ResponseLeaves(s, result);
    SameFlight(s, Do(s, Respond(result)));
  }

  lemma ResponseKeepsCount(s: State, result: Result)
    requires Enabled(s, Respond(result)) && DropsInv(s) && CountInv(s) && IdleInv(s)
    ensures var t := Do(s, Respond(result)); DropsInv(t) && CountInv(t) && IdleInv(t)
  {
  }

  lemma ResponseKeepsFinal(s: State, result: Result)
    requires Enabled(s, Respond(result)) && FinalInv(s)
    ensures FinalInv(Do(s, Respond(result)))
  {
  }

  lemma ResponseKeepsUniform(s: State, result: Result)
    requires Enabled(s, Respond(result)) && UniformInv(s)
    ensures UniformInv(Do(s, Respond(result)))
  {
    var t := Do(s, Respond(result));
    forall c | c in t.calls ensures Timely(t.core, t.submitted, c.batch) {
      var i :| 0 <= i < |t.calls| && t.calls[i] == c;
      assert Timely(s.core, s.submitted, s.calls[i].batch);
    }
  }

  lemma ResponseKeeps(s: State, result: Result, initial: string)
    requires Enabled(s, Respond(result)) && Inv(s, initial)
    ensures Inv(Do(s, Respond(result)), initial)
  {
    ResponseKeepsQueue(s, result);
    ResponseKeepsFlight(s, result);
    ResponseKeepsCount(s, result);
    ResponseKeepsFinal(s, result);
    ResponseKeepsUniform(s, result);
    ResponseKeepsChain(s, result, initial);
    ResponseKeepsCalls(s, result);
    ResponseKeepsOrder(s, result);
    ResponseKeepsGaps(s, result);
    ResponseKeepsHandler(s, result);
  }

  // ----- delivering, taking, appending -----

  lemma HeadPosition(b: seq<Request>)
    requires b != [] && Increasing(b)
    ensures Seqs(b) == {b[0].pos} + Seqs(b[1..]) && b[0].pos !in Seqs(b[1..])
  {
    assert forall r :: r in b <==> r == b[0] || r in b[1..];
    assert forall r :: r in b[1..] ==> b[0].pos < r.pos;
  }

  lemma DeliveryKeepsQueue(s: State)
    requires Enabled(s, DeliverOne) && QueueInv(s)
    ensures QueueInv(Do(s, DeliverOne))
  {
  }

  lemma DeliveryKeepsFlight(s: State)
    requires Enabled(s, DeliverOne) && FlightInv(s)
    ensures FlightInv(Do(s, DeliverOne))
  {
    assert Head(Do(s, DeliverOne)) == Head(s);
    HeadPosition(s.flusher.batch);
    assert InFlight(Do(s, DeliverOne).flusher) == s.flusher.batch[1..];
  }

  lemma DeliveryKeepsSettled(s: State)
    requires Enabled(s, DeliverOne) && OrderInv(s) && SettledInv(s.core.settled, s.calls, s.ended)
    ensures var t := Do(s, DeliverOne); SettledInv(t.core.settled, t.calls, t.ended)
  {
    assert s.flusher.batch[0].pos in Seqs(s.flusher.batch);
  }

  lemma DeliveryKeepsGaps(s: State)
    requires Enabled(s, DeliverOne) && QueueInv(s) && FlightInv(s) && OrderInv(s) && GapInv(s)
    ensures GapInv(Do(s, DeliverOne))
  {
    var t := Do(s, DeliverOne);
    var p := s.flusher.batch[0];
    var handed := Handed(s.calls);
    DeliveryKeepsSettled(s);
    assert p.pos in Seqs(s.flusher.batch);
    assert forall k: nat :: Gap(t.core.settled, handed, k) ==>
      Gap(s.core.settled, handed, k) || (k == p.pos && !s.flusher.sent);
  }

  lemma DeliveryKeepsOrder(s: State)
    requires Enabled(s, DeliverOne) && OrderInv(s)
    ensures OrderInv(Do(s, DeliverOne))
  {
    assert forall r :: r in s.flusher.batch[1..] ==> r in s.flusher.batch;
  }

  lemma DeliveryKeepsCalls(s: State, initial: string)
    requires Enabled(s, DeliverOne) && FlightInv(s) && ChainInv(s, initial) && CallsInv(s)
    ensures ChainInv(Do(s, DeliverOne), initial)
    ensures CallsInv(Do(s, DeliverOne))
  {
  }

  lemma DeliveryKeepsCount(s: State)
    requires Enabled(s, DeliverOne) && DropsInv(s) && CountInv(s)
    ensures DropsInv(Do(s, DeliverOne)) && CountInv(Do(s, DeliverOne))
  {
  }

  lemma DeliveryKeepsRest(s: State)
    requires Enabled(s, DeliverOne) && FlightInv(s) && FinalInv(s) && UniformInv(s) && HandlerInv(s) && IdleInv(s)
    ensures FinalInv(Do(s, DeliverOne)) && UniformInv(Do(s, DeliverOne))
    ensures HandlerInv(Do(s, DeliverOne)) && IdleInv(Do(s, DeliverOne))
  {
    assert s.flusher.batch[0].pos in Seqs(s.flusher.batch);
  }

  lemma DeliveryKeeps(s: State, initial: string)
    requires Enabled(s, DeliverOne) && Inv(s, initial)
    ensures Inv(Do(s, DeliverOne), initial)
  {
    DeliveryKeepsQueue(s);
    DeliveryKeepsFlight(s);
    DeliveryKeepsOrder(s);
    DeliveryKeepsGaps(s);
    DeliveryKeepsCalls(s, initial);
    DeliveryKeepsCount(s);
    DeliveryKeepsRest(s);
  }

  // ----- taking a batch -----

  ghost predicate TakenBatch(s: State, t: State, b: seq<Request>) {
    0 <= Head(s) <= Head(t) <= |s.submitted| && Increasing(b) &&
    (forall r :: r in b ==> Head(s) <= r.pos < Head(t) && r == s.submitted[r.pos] && MayTravel(s.core, r, s.ended))
  }

  /** What taking a batch changes. */
  ghost predicate TakenFrom(s: State, t: State) {
    t.core == s.core.(queue := t.core.queue, flushing := t.core.flushing) &&
    t == s.(core := t.core, flusher := t.flusher) && TakenBatch(s, t, InFlight(t.flusher)) &&
    DropsWithin(s, t, Drops(t.flusher))
  }

  /** The queue is a suffix of what was submitted; `taken` splits it. */
  ghost predicate TakesFrom(s: State, t: State, taken: Taken) {
    0 <= Head(s) && s.core.queue == s.submitted[Head(s)..] && t.submitted == s.submitted &&
    t.core.queue == taken.rest && Sorted(s.core, s.core.queue, Head(s), taken.batch, taken, s.ended)
  }

  lemma TakingStep(s: State, t: State, taken: Taken)
    requires Enabled(s, TakeBatch) && QueueInv(s) && s.core.queue != []
    requires t == Do(s, TakeBatch) && taken == s.core.Take(s.ended)
    ensures TakesFrom(s, t, taken)
    ensures t == s.(core := s.core.(queue := taken.rest), flusher := Dropping(taken.drops, taken.batch, s.core.token))
    ensures taken.batch == [] || WithinLimits(taken.batch, s.core.token)
  {
    TakingSorts(s.core, Head(s), s.ended);
    TakingFits(s.core, s.ended);
  }

  /** Every request to be dropped sits between the old and the new head, for a reason that justifies it. */
  ghost predicate DropsWithin(s: State, t: State, drops: seq<Drop>) {
    0 <= Head(s) <= Head(t) <= |s.submitted| && DropsRise(drops) &&
    forall d :: d in drops ==>
      Head(s) <= d.request.pos < Head(t) && d.request == s.submitted[d.request.pos] && Justified(s.core, d, s.ended)
  }

  lemma TakesFromHead(s: State, t: State, taken: Taken)
    requires TakesFrom(s, t, taken)
    ensures 0 <= Head(s) <= Head(t) <= |s.submitted| && t.core.queue == s.submitted[Head(t)..]
    ensures Head(t) == Head(s) + |taken.batch| + |taken.drops|
    ensures TakenBatch(s, t, taken.batch) && DropsWithin(s, t, taken.drops)
    ensures forall k: nat :: Head(s) <= k < Head(t) ==> (k in Seqs(taken.batch) <==> k !in DroppedSeqs(taken.drops))
  {
    var n := |s.core.queue| - |taken.rest|;
    assert taken.rest == s.core.queue[n..];
    assert s.core.queue[n..] == s.submitted[Head(s) + n..];
    assert forall k: nat :: Head(s) <= k < Head(s) + n ==> s.core.queue[k - Head(s)] == s.submitted[k];
  }

  lemma TakenApart(s: State, t: State, b: seq<Request>, drops: seq<Drop>)
    requires TakenBatch(s, t, b) && DropsWithin(s, t, drops)
    requires forall k: nat :: Head(s) <= k < Head(t) ==> (k in Seqs(b) <==> k !in DroppedSeqs(drops))
    ensures forall d :: d in drops ==> d.request.pos !in Seqs(b)
    ensures forall k: nat :: k < Head(s) <==> k < Head(t) && k !in Seqs(b) && k !in DroppedSeqs(drops)
  {
    forall d | d in drops ensures d.request.pos in DroppedSeqs(drops) {
    }
  }

  lemma FlusherExits(s: State, t: State)
    requires Enabled(s, TakeBatch) && QueueInv(s) && FlightInv(s) && CountInv(s) && t == Do(s, TakeBatch)
    requires s.core.queue == []
    ensures QueueInv(t) && TakenFrom(s, t) && FlightInv(t) && DropsInv(t) && CountInv(t)
  {
  }

  lemma TakingKeepsFlight(s: State, t: State, taken: Taken)
    requires s.flusher.AtTop? && FlightInv(s) && TakenBatch(s, t, taken.batch) && t.submitted == s.submitted
    requires t.core == s.core.(queue := t.core.queue) && t.flusher == Dropping(taken.drops, taken.batch, s.core.token)
    requires taken.batch == [] || WithinLimits(taken.batch, s.core.token)
    requires forall k: nat :: k < Head(s) <==> k < Head(t) && k !in Seqs(taken.batch) && k !in DroppedSeqs(taken.drops)
    ensures FlightInv(t)
  {
    assert Seqs([]) == {} && DroppedSeqs([]) == {};
  }

  lemma TakingMoves(s: State, t: State)
    requires Enabled(s, TakeBatch) && QueueInv(s) && FlightInv(s) && CountInv(s) && t == Do(s, TakeBatch)
    ensures QueueInv(t) && TakenFrom(s, t) && FlightInv(t) && DropsInv(t) && CountInv(t)
  {
    if s.core.queue == [] {
      FlusherExits(s, t);
    } else {
      var taken := s.core.Take(s.ended);
      TakingStep(s, t, taken);
      TakesFromHead(s, t, taken);
      TakenApart(s, t, taken.batch, taken.drops);
      TakingKeepsFlight(s, t, taken);
      TakingCounts(s, t, taken);
    }
  }

  lemma TakingCounts(s: State, t: State, taken: Taken)
    requires s.flusher.AtTop? && s.owing.Nothing? && CountInv(s) && Head(t) == Head(s) + |taken.batch| + |taken.drops|
    requires t == s.(core := s.core.(queue := taken.rest), flusher := Dropping(taken.drops, taken.batch, s.core.token))
    ensures CountInv(t)
  {
  }

  lemma TakenWereSendable(s: State, t: State)
    requires QueueInv(s) && TakenFrom(s, t) && s.core.terminated
    ensures var b := InFlight(t.flusher); b == [] || (b[0] in s.core.queue && s.core.Sendable(b[0]))
  {
    var b := InFlight(t.flusher);
    if b != [] {
      assert b[0] in b;
      assert b[0].pos < Head(t) <= |s.submitted| ==> b[0] == s.core.queue[b[0].pos - Head(s)];
    }
  }

  lemma TakingFindsNothing(s: State, t: State)
    requires QueueInv(s) && TakenFrom(s, t) && QueueInv(t) && s.core.terminated && NothingSendable(s.core)
    ensures InFlight(t.flusher) == []
    ensures NothingSendable(t.core)
  {
    TakenWereSendable(s, t);
    forall r | r in t.core.queue ensures !t.core.Sendable(r) {
      var i :| 0 <= i < |t.core.queue| && t.core.queue[i] == r;
      assert r == s.core.queue[Head(t) - Head(s) + i];
      assert !s.core.Sendable(r);
    }
  }

  /** The flusher read the queue: it exits, or holds what it took. */
  ghost predicate Takes(s: State, t: State) {
    s.flusher.AtTop? && (t.flusher.Idle? || t.flusher.Dropping?) && TakenFrom(s, t)
  }

  lemma TakingKeepsCalls(s: State, t: State, initial: string)
    requires Takes(s, t) && QueueInv(s) && QueueInv(t) && ChainInv(s, initial) && CallsInv(s)
    ensures ChainInv(t, initial) && CallsInv(t)
  {
    if s.core.terminated && NothingSendable(s.core) {
      TakingFindsNothing(s, t);
    }
  }

  lemma TakingKeepsUniform(s: State, t: State)
    requires Takes(s, t) && QueueInv(s) && FinalInv(s) && UniformInv(s)
    ensures UniformInv(t) && FinalInv(t)
  {
    assert forall r :: r in InFlight(t.flusher) ==> r in s.submitted;
  }

  lemma TakingKeepsOrder(s: State, t: State)
    requires Takes(s, t) && OrderInv(s) && GapInv(s)
    ensures OrderInv(t) && GapInv(t)
  {
  }

  lemma TakingKeepsHandler(s: State, t: State)
    requires Takes(s, t) && HandlerInv(s) && IdleInv(s)
    ensures HandlerInv(t) && IdleInv(t)
  {
  }

  lemma TakingKeeps(s: State, t: State, initial: string)
    requires Enabled(s, TakeBatch) && Inv(s, initial) && t == Do(s, TakeBatch)
    ensures Inv(t, initial)
  {
    TakingMoves(s, t);
    TakingKeepsCalls(s, t, initial);
    TakingKeepsUniform(s, t);
    TakingKeepsOrder(s, t);
    TakingKeepsHandler(s, t);
  }

  // ----- delivering while a batch is assembled -----

  lemma HeadDropped(drops: seq<Drop>)
    requires drops != [] && DropsRise(drops)
    ensures DroppedSeqs(drops) == {drops[0].request.pos} + DroppedSeqs(drops[1..])
    ensures drops[0].request.pos !in DroppedSeqs(drops[1..]) && DropsRise(drops[1..])
  {
    assert forall d :: d in drops <==> d == drops[0] || d in drops[1..];
    assert forall d :: d in drops[1..] ==> drops[0].request.pos < d.request.pos;
  }

  lemma DropKeepsFlight(s: State)
    requires Enabled(s, DropOne) && FlightInv(s) && DropsInv(s)
    ensures FlightInv(Do(s, DropOne))
  {
    HeadDropped(s.flusher.drops);
    assert s.flusher.drops[0] in s.flusher.drops;
    assert Head(Do(s, DropOne)) == Head(s);
  }

  lemma DropKeepsCount(s: State)
    requires Enabled(s, DropOne) && QueueInv(s) && DropsInv(s) && CountInv(s)
    ensures QueueInv(Do(s, DropOne)) && DropsInv(Do(s, DropOne)) && CountInv(Do(s, DropOne))
  {
    HeadDropped(s.flusher.drops);
    assert Head(Do(s, DropOne)) == Head(s);
  }

  lemma DropKeepsCalls(s: State, initial: string)
    requires Enabled(s, DropOne) && ChainInv(s, initial) && CallsInv(s) && UniformInv(s)
    ensures ChainInv(Do(s, DropOne), initial) && CallsInv(Do(s, DropOne)) && UniformInv(Do(s, DropOne))
  {
  }

  lemma DropKeepsHandler(s: State)
    requires Enabled(s, DropOne) && FlightInv(s) && DropsInv(s) && FinalInv(s) && HandlerInv(s) && IdleInv(s)
    ensures FinalInv(Do(s, DropOne)) && HandlerInv(Do(s, DropOne)) && IdleInv(Do(s, DropOne))
  {
    var d := s.flusher.drops[0];
    assert d in s.flusher.drops && d.request.pos in DroppedSeqs(s.flusher.drops);
  }

  lemma DropKeepsOrder(s: State)
    requires Enabled(s, DropOne) && OrderInv(s)
    ensures OrderInv(Do(s, DropOne))
  {
    assert forall d :: d in s.flusher.drops[1..] ==> d in s.flusher.drops;
  }

  lemma DropKeepsGaps(s: State)
    requires Enabled(s, DropOne) && DropsInv(s) && OrderInv(s) && GapInv(s)
    ensures GapInv(Do(s, DropOne))
  {
    var t := Do(s, DropOne);
    var d := s.flusher.drops[0];
    var handed := Handed(s.calls);
    assert d in s.flusher.drops;
    assert d.request.pos !in handed;
    assert forall k: nat :: Gap(t.core.settled, handed, k) ==>
      Gap(s.core.settled, handed, k) || (k == d.request.pos && d.outcome == Refused);
  }

  lemma DropKeeps(s: State, initial: string)
    requires Enabled(s, DropOne) && Inv(s, initial)
    ensures Inv(Do(s, DropOne), initial)
  {
    DropKeepsFlight(s);
    DropKeepsCount(s);
    DropKeepsCalls(s, initial);
    DropKeepsHandler(s);
    DropKeepsOrder(s);
    DropKeepsGaps(s);
  }

  // ----- appending -----

  predicate Appends(a: Action) {
    a.AppendSubmit? || a.AppendFinal?
  }

  lemma AppendMoves(s: State, a: Action)
    requires Enabled(s, a) && Appends(a) && QueueInv(s)
    ensures var t := Do(s, a);
            QueueInv(t) && Head(t) == Head(s) && InFlight(t.flusher) == InFlight(s.flusher) &&
            Drops(t.flusher) == Drops(s.flusher) &&
            (s.flusher.Idle? ==> t.flusher.AtTop?) && (!s.flusher.Idle? ==> t.flusher == s.flusher)
  {
    var t := Do(s, a);
    assert Head(t) == Head(s);
    assert t.core.queue == t.submitted[Head(t)..];
  }

  lemma AppendKeepsQueue(s: State, a: Action)
    requires Enabled(s, a) && Appends(a) && QueueInv(s) && FlightInv(s)
    ensures QueueInv(Do(s, a)) && FlightInv(Do(s, a))
  {
    AppendMoves(s, a);
    var t := Do(s, a);
    assert forall r :: r in InFlight(s.flusher) ==> t.submitted[r.pos] == r;
  }

  lemma AppendKeepsCount(s: State, a: Action)
    requires Enabled(s, a) && Appends(a) && QueueInv(s) && DropsInv(s) && CountInv(s) && IdleInv(s)
    ensures DropsInv(Do(s, a)) && CountInv(Do(s, a)) && IdleInv(Do(s, a))
  {
    AppendMoves(s, a);
  }

  lemma AppendKeepsFinal(s: State, a: Action)
    requires Enabled(s, a) && Appends(a) && QueueInv(s) && FinalInv(s) && HandlerInv(s)
    ensures FinalInv(Do(s, a)) && HandlerInv(Do(s, a))
  {
  }

  lemma AppendKeepsChain(s: State, a: Action, initial: string)
    requires Enabled(s, a) && Appends(a) && ChainInv(s, initial)
    ensures ChainInv(Do(s, a), initial)
  {
  }

  lemma AppendKeepsCalls(s: State, a: Action)
    requires Enabled(s, a) && Appends(a) && QueueInv(s) && CallsInv(s) && FinalInv(s)
    ensures CallsInv(Do(s, a))
  {
  }

  lemma AppendKeepsUniform(s: State, a: Action)
    requires Enabled(s, a) && Appends(a) && UniformInv(s)
    ensures UniformInv(Do(s, a))
  {
    var t := Do(s, a);
    forall c | c in t.calls ensures Timely(t.core, t.submitted, c.batch) {
      assert Timely(s.core, s.submitted, c.batch);
    }
  }

  lemma AppendKeepsOrder(s: State, a: Action)
    requires Enabled(s, a) && Appends(a) && QueueInv(s) && FlightInv(s) && OrderInv(s) && GapInv(s)
    ensures OrderInv(Do(s, a)) && GapInv(Do(s, a))
  {
  }

  lemma AppendKeeps(s: State, a: Action, initial: string)
    requires Enabled(s, a) && Appends(a) && Inv(s, initial)
    ensures Inv(Do(s, a), initial)
  {
    AppendKeepsQueue(s, a);
    AppendKeepsCount(s, a);
    AppendKeepsFinal(s, a);
    AppendKeepsChain(s, a, initial);
    AppendKeepsCalls(s, a);
    AppendKeepsUniform(s, a);
    AppendKeepsOrder(s, a);
  }

  lemma QuietKeeps(s: State, a: Action, initial: string)
    requires Enabled(s, a) && Quiet(a) && Inv(s, initial)
    ensures Inv(Do(s, a), initial)
  {
    QuietKeepsQueue(s, a);
    QuietKeepsFlight(s, a);
    QuietKeepsDrops(s, a);
    QuietKeepsCount(s, a);
    QuietKeepsIdle(s, a);
    QuietKeepsChain(s, a, initial);
    QuietKeepsCalls(s, a);
    QuietKeepsFinal(s, a);
    QuietKeepsUniform(s, a);
    QuietKeepsOrder(s, a);
    QuietKeepsGaps(s, a);
    QuietKeepsHandler(s, a, initial);
  }

  lemma FlusherActionKeeps(s: State, a: Action, initial: string)
    requires Inv(s, initial) && Enabled(s, a) && (a.TakeBatch? || a.DropOne? || a.DeliverOne?)
    ensures Inv(Do(s, a), initial)
  {
    if a.TakeBatch? {
      TakingKeeps(s, Do(s, a), initial);
    } else if a.DropOne? {
      DropKeeps(s, initial);
    } else {
      DeliveryKeeps(s, initial);
    }
  }

  /** Every action keeps the invariant. */
  lemma ActionKeeps(s: State, a: Action, initial: string)
    requires Inv(s, initial) && Enabled(s, a)
    ensures Inv(Do(s, a), initial)
  {
    if a.TakeBatch? || a.DropOne? || a.DeliverOne? {
      FlusherActionKeeps(s, a, initial);
    } else if a.Respond? {
      ResponseKeeps(s, a.result, initial);
    } else if a.IssueCall? {
      IssueKeeps(s, initial);
    } else if Appends(a) {
      AppendKeeps(s, a, initial);
    } else {
      QuietKeeps(s, a, initial);
    }
  }
}
