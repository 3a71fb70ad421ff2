/** What a request learns: the answer of the call that carried it, or why no call did. */
module CheckpointOutcomes {
  import opened Checkpointer
  import opened CheckpointRuns
  import opened CheckpointBatches
  import opened CheckpointSafety
  import opened CheckpointTheorems
  import opened CheckpointHalts

  // ----- one assembly -----

  /** A request that is not sent learns that its context ended, or else that it came too late. */
  ghost predicate RightlyDropped(c: Core, d: Drop, ended: set<nat>) {
    if d.request.pos in ended then d.outcome == ContextEnded
    else d.outcome == Refused && c.terminated && !d.request.final && (c.cutoffSet ==> d.request.pos >= c.cutoff)
  }

  lemma {:induction false} DropsAreRight(c: Core, pending: seq<Request>, batch: seq<Request>, updates: nat, size: nat,
                                         ended: set<nat>)
    ensures forall d :: d in c.TakeFrom(pending, batch, updates, size, ended).drops ==> RightlyDropped(c, d, ended)
    decreases |pending|
  {
    if pending != [] {
      var p := pending[0];
      if p.pos in ended || (c.terminated && !c.Sendable(p)) {
        DropsAreRight(c, pending[1..], batch, updates, size, ended);
      } else if !(batch != [] && Overflows(updates, size, p)) {
        DropsAreRight(c, pending[1..], batch + [p], updates + p.updates, size + p.size, ended);
      }
    }
  }

  /** A batch is full: the request it stops at would exceed 750 KiB or 250 updates. */
  ghost predicate FullBefore(c: Core, batch: seq<Request>, p: Request) {
    batch != [] &&
    (|c.token| + 100 + SizeOf(batch) + p.size > 768000 || UpdatesOf(batch) + p.updates > 250)
  }

  lemma {:induction false} BatchIsFull(c: Core, pending: seq<Request>, batch: seq<Request>, updates: nat, size: nat,
                                       ended: set<nat>)
    requires size == |c.token| + BATCH_OVERHEAD_BYTES + SizeOf(batch) && updates == UpdatesOf(batch)
    ensures var t := c.TakeFrom(pending, batch, updates, size, ended); t.rest == [] || FullBefore(c, t.batch, t.rest[0])
    decreases |pending|
  {
    if pending != [] {
      var p := pending[0];
      if p.pos in ended || (c.terminated && !c.Sendable(p)) {
        BatchIsFull(c, pending[1..], batch, updates, size, ended);
      } else if !(batch != [] && Overflows(updates, size, p)) {
        assert (batch + [p])[..|batch|] == batch;
        BatchIsFull(c, pending[1..], batch + [p], updates + p.updates, size + p.size, ended);
      }
    }
  }

  /** Settling the last outstanding request closes every idle channel, and settling any other closes none. */
  lemma {:induction false} DeliveriesClose(c: Core, drops: seq<Drop>)
    ensures var d := c.DeliverAll(drops);
            d.registered == c.registered &&
            d.closed == if 0 < c.outstanding <= |drops| then c.registered else c.closed
    decreases |drops|
  {
    if drops != [] {
      DeliveriesClose(c.Deliver(drops[0].request, drops[0].outcome), drops[1..]);
    }
  }

  /**
    One batch is taken: what is settled learns its reason, what stays queued did not fit, and the idle channels close
    exactly when nothing is outstanding any more.
   */
  lemma TakesRightly(c: Core, ended: set<nat>)
    ensures forall d :: d in c.Take(ended).drops ==> RightlyDropped(c, d, ended)
    ensures c.Take(ended).rest == [] || FullBefore(c, c.Take(ended).batch, c.Take(ended).rest[0])
    ensures c.AfterTake(ended).closed ==
            if 0 < c.outstanding <= |c.Take(ended).drops| then c.registered else c.closed
  {
    DropsAreRight(c, c.queue, [], 0, |c.token| + BATCH_OVERHEAD_BYTES, ended);
    BatchIsFull(c, c.queue, [], 0, |c.token| + BATCH_OVERHEAD_BYTES, ended);
    DeliveriesClose(c.(queue := c.Take(ended).rest), c.Take(ended).drops);
  }

  // ----- what a request may learn -----

  /** A recorded call's requests learn so; the branches' among them may be refused when the invocation is ending. */
  ghost predicate LearnsOf(c: Core, call: Call, r: Request, o: Outcome) {
    match call.result
    case Awaited => false
    case Accepted(_) => o == Recorded || (o == Refused && !r.final && c.terminated)
    case NoToken =>
      if OfBranches(call.batch) then o == Refused else o == Recorded || (o == Refused && !r.final && c.terminated)
    case Failed(cause) => o == CallFailed(cause)
  }

  /** The request was queued too late, or the service takes no more calls. */
  ghost predicate Late(c: Core, r: Request) {
    c.terminated && (c.haltErr == Some(TokenWithdrawn) || (!r.final && (c.cutoffSet ==> r.pos >= c.cutoff)))
  }

  /** What a request that no call carried may learn. */
  ghost predicate LearnsUnsent(c: Core, ended: set<nat>, r: Request, o: Outcome) {
    match o
    case Recorded => false
    case Refused => Late(c, r)
    case ContextEnded => r.pos in ended
    case CallFailed(cause) => c.terminated && c.haltErr == Some(Failure(cause))
  }

  // ----- the invariant -----

  ghost predicate Told(c: Core, call: Call) {
    forall r :: r in call.batch && r.pos in c.settled ==> LearnsOf(c, call, r, c.settled[r.pos])
  }

  ghost predicate AllTold(c: Core, calls: seq<Call>) {
    forall i :: 0 <= i < |calls| ==> Told(c, calls[i])
  }

  ghost predicate UnsentTold(s: State) {
    forall k: nat :: k in s.core.settled && k !in Handed(s.calls) && k < |s.submitted| ==>
      LearnsUnsent(s.core, s.ended, s.submitted[k], s.core.settled[k])
  }

  function OutcomeOf(call: Call): Outcome {
    match call.result
    case Failed(cause) => CallFailed(cause)
    case NoToken => if OfBranches(call.batch) then Refused else Recorded
    case _ => Recorded
  }

  /** The outcome the flusher holds is the one its call gave, or the reason it made none. */
  ghost predicate HoldsRightly(s: State) {
    var f := s.flusher;
    (f.Halting? || ((f.Answered? || f.Delivering?) && f.sent) ==>
       s.calls != [] && !s.calls[|s.calls| - 1].result.Awaited? && f.outcome == OutcomeOf(s.calls[|s.calls| - 1]) &&
       forall r :: r in f.batch ==> r in s.calls[|s.calls| - 1].batch) &&
    ((f.Answered? || f.Delivering?) && !f.sent ==>
       forall r :: r in f.batch ==> LearnsUnsent(s.core, s.ended, r, f.outcome)) &&
    (f.Delivering? && f.refuse ==> f.outcome == Recorded && s.core.terminated)
  }

  ghost predicate Tells(s: State) {
    AllTold(s.core, s.calls) && UnsentTold(s) && HoldsRightly(s)
  }

  /** Termination, the cutoff it fixed and the halt cause stay. */
  ghost predicate Later(c: Core, d: Core) {
    (c.terminated ==> d.terminated && d.cutoffSet == c.cutoffSet && d.cutoff == c.cutoff) &&
    (c.haltErr.Some? ==> d.haltErr == c.haltErr)
  }

  lemma LaterStep(s: State, a: Action)
    requires Enabled(s, a)
    ensures Later(s.core, Do(s, a).core) && s.ended <= Do(s, a).ended
  {
    HaltStep(s, a);
  }

  lemma LearntLater(c: Core, d: Core, calls: seq<Call>)
    requires Later(c, d) && c.settled == d.settled && AllTold(c, calls)
    ensures AllTold(d, calls)
  {
    forall i | 0 <= i < |calls| ensures Told(d, calls[i]) {
      assert Told(c, calls[i]);
    }
  }

  lemma {:induction false} CallIsHanded(calls: seq<Call>, i: nat)
    requires i < |calls|
    ensures Seqs(calls[i].batch) <= Handed(calls)
  {
    var n := |calls| - 1;
    if i < n {
      CallIsHanded(calls[..n], i);
    }
  }

  /** The steps that settle nothing and leave the calls alone. */
  predicate SettlesNothing(a: Action) {
    !a.IssueCall? && !a.Respond? && !a.DeliverOne? && !a.DropOne?
  }

  lemma UnsentLater(c: Core, d: Core, ended: set<nat>, more: set<nat>, r: Request, o: Outcome)
    requires Later(c, d) && ended <= more && LearnsUnsent(c, ended, r, o)
    ensures LearnsUnsent(d, more, r, o)
  {
  }

  /** Nothing changed that the flusher's outcome rests on. */
  lemma SameFlusherHolds(s: State, t: State)
    requires t.flusher == s.flusher && t.calls == s.calls && Later(s.core, t.core) && s.ended <= t.ended
    requires HoldsRightly(s)
    ensures HoldsRightly(t)
  {
    var f := s.flusher;
    if (f.Answered? || f.Delivering?) && !f.sent {
      forall r | r in f.batch ensures LearnsUnsent(t.core, t.ended, r, f.outcome) {
        UnsentLater(s.core, t.core, s.ended, t.ended, r, f.outcome);
      }
    }
  }

  lemma CheckHolds(s: State)
    requires Enabled(s, CheckTermination) && Uniform(s.core, s.flusher.batch)
    ensures HoldsRightly(Do(s, CheckTermination))
  {
  }

  lemma AskHolds(s: State)
    requires Enabled(s, AskHalt) && s.core.terminated
    ensures HoldsRightly(Do(s, AskHalt))
  {
  }

  predicate MovesFlusher(a: Action) {
    a.CheckTermination? || a.AskHalt? || a.StoreTerminated? || a.Decide? || a.TakeBatch? || a.Unlock? ||
    a.AppendSubmit? || a.AppendFinal?
  }

  lemma BystanderHolds(s: State, a: Action)
    requires Enabled(s, a) && SettlesNothing(a) && !MovesFlusher(a)
    ensures Do(s, a).flusher == s.flusher
  {
  }

  lemma AppendHolds(s: State, a: Action)
    requires Enabled(s, a) && (a.AppendSubmit? || a.AppendFinal?) && HoldsRightly(s)
    ensures HoldsRightly(Do(s, a))
  {
    if s.core.flushing {
      LaterStep(s, a);
      SameFlusherHolds(s, Do(s, a));
    }
  }

  lemma DecideHolds(s: State, a: Action)
    requires Enabled(s, a) && (a.StoreTerminated? || a.Decide?) && HoldsRightly(s)
    ensures HoldsRightly(Do(s, a))
  {
  }

  lemma QuietHolds(s: State, a: Action)
    requires Enabled(s, a) && SettlesNothing(a) && UniformInv(s) && HoldsRightly(s)
    ensures HoldsRightly(Do(s, a))
  {
    if a.CheckTermination? {
      CheckHolds(s);
    } else if a.AskHalt? {
      AskHolds(s);
    } else if a.AppendSubmit? || a.AppendFinal? {
      AppendHolds(s, a);
    } else if a.StoreTerminated? || a.Decide? {
      DecideHolds(s, a);
    } else if a.TakeBatch? || a.Unlock? {
    } else {
      BystanderHolds(s, a);
      SubmittedGrows(s, a);
      LaterStep(s, a);
      SameFlusherHolds(s, Do(s, a));
    }
  }

  lemma SubmittedGrows(s: State, a: Action)
    requires Enabled(s, a) && SettlesNothing(a)
    ensures s.submitted <= Do(s, a).submitted && Do(s, a).core.settled == s.core.settled && Do(s, a).calls == s.calls
  {
  }

  /** Requests that have settled were submitted. */
  ghost predicate SettledSubmitted(s: State) {
    forall k: nat :: k in s.core.settled ==> k < |s.submitted|
  }

  lemma UnsentStays(s: State, t: State)
    requires t.core.settled == s.core.settled && t.calls == s.calls && s.submitted <= t.submitted
    requires Later(s.core, t.core) && s.ended <= t.ended && SettledSubmitted(s) && UnsentTold(s)
    ensures UnsentTold(t)
  {
    forall k: nat | k in t.core.settled && k !in Handed(t.calls) && k < |t.submitted|
      ensures LearnsUnsent(t.core, t.ended, t.submitted[k], t.core.settled[k])
    {
      UnsentLater(s.core, t.core, s.ended, t.ended, s.submitted[k], s.core.settled[k]);
    }
  }

  lemma QuietTells(s: State, a: Action, initial: string)
    requires Enabled(s, a) && SettlesNothing(a) && Inv(s, initial) && Tells(s)
    ensures Tells(Do(s, a))
  {
    var t := Do(s, a);
    LaterStep(s, a);
    SubmittedGrows(s, a);
    QuietHolds(s, a);
    LearntLater(s.core, t.core, s.calls);
    assert SettledSubmitted(s) by {
      assert QueueInv(s) && FlightInv(s);
    }
    UnsentStays(s, t);
  }

  // ----- the steps that settle, send or answer -----

  lemma HandedOrNot(s: State, k: nat)
    requires k in Handed(s.calls)
    ensures exists i :: 0 <= i < |s.calls| && k in Seqs(s.calls[i].batch)
  {
    var i := HandedInSomeCall(s.calls, k);
  }

  /** A request that no call carried settles. */
  lemma UnsentSettles(s: State, t: State, p: Request, o: Outcome)
    requires t.core == s.core.Send(p, o) && t.calls == s.calls && t.submitted == s.submitted && t.ended == s.ended
    requires AllTold(s.core, s.calls) && UnsentTold(s)
    requires p.pos !in Handed(s.calls) && p.pos < |s.submitted| && s.submitted[p.pos] == p
    requires LearnsUnsent(s.core, s.ended, p, o)
    ensures AllTold(t.core, t.calls) && UnsentTold(t)
  {
    forall i | 0 <= i < |t.calls| ensures Told(t.core, t.calls[i]) {
      CallIsHanded(s.calls, i);
      assert Told(s.core, s.calls[i]);
      forall r | r in t.calls[i].batch && r.pos in t.core.settled
        ensures LearnsOf(t.core, t.calls[i], r, t.core.settled[r.pos])
      {
        assert r.pos in Seqs(s.calls[i].batch);
      }
    }
    forall k: nat | k in t.core.settled && k !in Handed(t.calls) && k < |t.submitted|
      ensures LearnsUnsent(t.core, t.ended, t.submitted[k], t.core.settled[k])
    {
      if k != p.pos {
        assert LearnsUnsent(s.core, s.ended, s.submitted[k], s.core.settled[k]);
      }
    }
  }

  /** A request of the last call settles. */
  lemma SentSettles(s: State, t: State, p: Request, o: Outcome)
    requires t.core == s.core.Send(p, o) && t.calls == s.calls && t.submitted == s.submitted && t.ended == s.ended
    requires AllTold(s.core, s.calls) && UnsentTold(s) && s.calls != [] && LastRises(s.calls)
    requires forall r :: r in s.calls[|s.calls| - 1].batch ==> r.pos < |s.submitted| && s.submitted[r.pos] == r
    requires p in s.calls[|s.calls| - 1].batch && LearnsOf(s.core, s.calls[|s.calls| - 1], p, o)
    ensures AllTold(t.core, t.calls) && UnsentTold(t)
  {
    var n := |s.calls| - 1;
    forall i | 0 <= i < |t.calls| ensures Told(t.core, t.calls[i]) {
      assert Told(s.core, s.calls[i]);
      if i < n {
        CallIsHanded(s.calls[..n], i);
        forall r | r in t.calls[i].batch && r.pos in t.core.settled
          ensures LearnsOf(t.core, t.calls[i], r, t.core.settled[r.pos])
        {
          assert r.pos in Seqs(s.calls[i].batch);
          assert r.pos < p.pos;
        }
      }
    }
    CallIsHanded(s.calls, n);
    assert p.pos in Seqs(s.calls[n].batch);
    forall k: nat | k in t.core.settled && k !in Handed(t.calls) && k < |t.submitted|
      ensures LearnsUnsent(t.core, t.ended, t.submitted[k], t.core.settled[k])
    {
      assert LearnsUnsent(s.core, s.ended, s.submitted[k], s.core.settled[k]);
    }
  }

  lemma RefusedLearns(c: Core, call: Call, r: Request)
    requires !call.result.Awaited? && r in call.batch && OutcomeOf(call) == Recorded && c.terminated && !r.final
    ensures LearnsOf(c, call, r, Refused)
  {
  }

  lemma OutcomeLearns(c: Core, call: Call, r: Request)
    requires !call.result.Awaited?
    ensures LearnsOf(c, call, r, OutcomeOf(call))
  {
  }

  lemma SentDeliveryTells(s: State)
    requires Enabled(s, DeliverOne) && s.flusher.sent && UniformInv(s) && LastRises(s.calls) && Tells(s)
    ensures AllTold(Do(s, DeliverOne).core, s.calls) && UnsentTold(Do(s, DeliverOne))
  {
    var t, f := Do(s, DeliverOne), s.flusher;
    var p, call := f.batch[0], s.calls[|s.calls| - 1];
    assert p in f.batch && call in s.calls && Timely(s.core, s.submitted, call.batch);
    OutcomeLearns(s.core, call, p);
    if f.refuse && !p.final {
      RefusedLearns(s.core, call, p);
    }
    SentSettles(s, t, p, if f.refuse && !p.final then Refused else f.outcome);
  }

  lemma UnsentDeliveryTells(s: State)
    requires Enabled(s, DeliverOne) && !s.flusher.sent && FlightInv(s) && OrderInv(s) && Tells(s)
    ensures AllTold(Do(s, DeliverOne).core, s.calls) && UnsentTold(Do(s, DeliverOne))
  {
    var p := s.flusher.batch[0];
    assert p in s.flusher.batch && LearnsUnsent(s.core, s.ended, p, s.flusher.outcome);
    UnsentSettles(s, Do(s, DeliverOne), p, s.flusher.outcome);
  }

  lemma DeliveryHolds(s: State)
    requires Enabled(s, DeliverOne) && HoldsRightly(s)
    ensures HoldsRightly(Do(s, DeliverOne))
  {
    var f, g := s.flusher, Do(s, DeliverOne).flusher;
    assert g.AtTop? || forall r :: r in g.batch ==> r in f.batch;
  }

  lemma DeliverTells(s: State, initial: string)
    requires Enabled(s, DeliverOne) && Inv(s, initial) && Tells(s)
    ensures Tells(Do(s, DeliverOne))
  {
    if s.flusher.sent {
      SentDeliveryTells(s);
    } else {
      UnsentDeliveryTells(s);
    }
    DeliveryHolds(s);
  }

  lemma DropTells(s: State, initial: string)
    requires Enabled(s, DropOne) && Inv(s, initial) && Tells(s)
    ensures Tells(Do(s, DropOne))
  {
    var d := s.flusher.drops[0];
    assert d in Drops(s.flusher);
    assert DropsInv(s) && OrderInv(s);
    assert d.request.pos !in Handed(s.calls);
    UnsentSettles(s, Do(s, DropOne), d.request, d.outcome);
  }

  /** The request a call carries is not settled yet. */
  ghost predicate NoneSettled(c: Core, batch: seq<Request>) {
    forall r :: r in batch ==> r.pos !in c.settled
  }

  lemma FlightUnsettled(s: State)
    requires FlightInv(s)
    ensures NoneSettled(s.core, InFlight(s.flusher))
  {
    forall r | r in InFlight(s.flusher) ensures r.pos !in s.core.settled {
      assert r.pos in Seqs(InFlight(s.flusher));
    }
  }

  lemma HandedMore(calls: seq<Call>, more: seq<Call>)
    requires |calls| <= |more| && forall i :: 0 <= i < |calls| ==> more[i].batch == calls[i].batch
    ensures Handed(calls) <= Handed(more)
  {
    forall k | k in Handed(calls) ensures k in Handed(more) {
      var i := HandedInSomeCall(calls, k);
      CallIsHanded(more, i);
    }
  }

  lemma IssueTells(s: State, initial: string)
    requires Enabled(s, IssueCall) && Inv(s, initial) && Tells(s)
    ensures Tells(Do(s, IssueCall))
  {
    var t := Do(s, IssueCall);
    FlightUnsettled(s);
    HandedMore(s.calls, t.calls);
    forall i | 0 <= i < |t.calls| ensures Told(t.core, t.calls[i]) {
      assert i < |s.calls| ==> Told(s.core, s.calls[i]);
    }
    UnsentCarries(s, t);
  }

  lemma UnsentCarries(s: State, t: State)
    requires t.core.settled == s.core.settled && t.submitted == s.submitted && Handed(s.calls) <= Handed(t.calls)
    requires Later(s.core, t.core) && s.ended <= t.ended && UnsentTold(s)
    ensures UnsentTold(t)
  {
    forall k: nat | k in t.core.settled && k !in Handed(t.calls) && k < |t.submitted|
      ensures LearnsUnsent(t.core, t.ended, t.submitted[k], t.core.settled[k])
    {
      UnsentLater(s.core, t.core, s.ended, t.ended, s.submitted[k], s.core.settled[k]);
    }
  }

  lemma ResponseHolds(s: State, result: Result)
    requires Enabled(s, Respond(result)) && s.calls[|s.calls| - 1].batch == s.flusher.batch
    ensures HoldsRightly(Do(s, Respond(result)))
  {
    FinalAmong(s.flusher.batch);
  }

  lemma ResponseTells(s: State, result: Result, initial: string)
    requires Enabled(s, Respond(result)) && Inv(s, initial) && Tells(s)
    ensures Tells(Do(s, Respond(result)))
  {
    var t, n := Do(s, Respond(result)), |s.calls| - 1;
    assert CallsInv(s) && FlightInv(s);
    LaterStep(s, Respond(result));
    FlightUnsettled(s);
    HandedMore(s.calls, t.calls);
    LearntLater(s.core, t.core, s.calls);
    forall i | 0 <= i < |t.calls| ensures Told(t.core, t.calls[i]) {
      assert i < n ==> Told(t.core, s.calls[i]);
    }
    UnsentCarries(s, t);
    ResponseHolds(s, result);
  }

  lemma StepTells(s: State, a: Action, initial: string)
    requires Enabled(s, a) && Inv(s, initial) && Tells(s)
    ensures Tells(Do(s, a))
  {
    if a.IssueCall? {
      IssueTells(s, initial);
    } else if a.Respond? {
      ResponseTells(s, a.result, initial);
    } else if a.DeliverOne? {
      DeliverTells(s, initial);
    } else if a.DropOne? {
      DropTells(s, initial);
    } else {
      QuietTells(s, a, initial);
    }
  }

  lemma {:induction false} RunTells(initial: string, states: seq<State>, actions: seq<Action>, n: nat)
    requires Run(initial, states, actions) && n < |states|
    ensures Tells(states[n])
  {
    if n > 0 {
      RunTells(initial, states, actions, n - 1);
      RunInv(initial, states, actions, n - 1);
      StepTells(states[n - 1], actions[n - 1], initial);
    }
  }

  // ----- the theorems -----

  /**
    A request learns what became of the call that carried it: a failure as the call failed, a recorded call as recorded,
    unless a branch must stop because the invocation is ending.
   */
  lemma CallsAreAnswered(initial: string, s: State, i: nat, r: Request)
    requires Reachable(initial, s) && i < |s.calls| && r in s.calls[i].batch && r.pos in s.core.settled
    ensures LearnsOf(s.core, s.calls[i], r, s.core.settled[r.pos])
  {
    var states, actions :| Run(initial, states, actions) && s in states;
    var n :| 0 <= n < |states| && states[n] == s;
    RunTells(initial, states, actions, n);
    assert Told(s.core, s.calls[i]);
  }

  /**
    A request that no call carried learns why: its context ended, it was queued after the cutoff or the token was
    withdrawn, or an earlier call failed. Nothing else is refused: not the final write, and nothing queued before.
   */
  lemma UnsentAreAnswered(initial: string, s: State, k: nat)
    requires Reachable(initial, s) && k in s.core.settled && k < |s.submitted|
    requires forall i :: 0 <= i < |s.calls| ==> k !in Seqs(s.calls[i].batch)
    ensures LearnsUnsent(s.core, s.ended, s.submitted[k], s.core.settled[k])
  {
    var states, actions :| Run(initial, states, actions) && s in states;
    var n :| 0 <= n < |states| && states[n] == s;
    RunTells(initial, states, actions, n);
    if k in Handed(s.calls) {
      HandedOrNot(s, k);
    }
  }

  // ----- no branch goes on after termination -----

  /** The branch request k has not been told that it is recorded, and will not be. */
  ghost predicate Spurned(s: State, k: nat) {
    s.core.terminated &&
    (k < |s.submitted| && !s.submitted[k].final ==>
       (k in s.core.settled ==> s.core.settled[k] != Recorded) && !BeingTold(s.flusher, k))
  }

  /** The flusher is telling the requests of its batch, k among them, that they are recorded. */
  ghost predicate BeingTold(f: Flusher, k: nat) {
    f.Delivering? && f.outcome == Recorded && !f.refuse && k in Seqs(f.batch)
  }

  lemma SpurnedSettles(s: State, a: Action, k: nat)
    requires Enabled(s, a) && (a.DeliverOne? || a.DropOne?) && FlightInv(s) && DropsInv(s) && Spurned(s, k)
    ensures Spurned(Do(s, a), k)
  {
    if a.DropOne? {
      assert s.flusher.drops[0] in Drops(s.flusher);
    } else {
      assert s.flusher.batch[0] in s.flusher.batch;
      assert s.flusher.batch[0].pos in Seqs(s.flusher.batch);
    }
  }

  lemma SpurnedAppends(s: State, a: Action, k: nat)
    requires Enabled(s, a) && (a.AppendSubmit? || a.AppendFinal?) && QueueInv(s) && FlightInv(s) && Spurned(s, k)
    ensures Spurned(Do(s, a), k)
  {
  }

  lemma NotToldYet(s: State, a: Action, k: nat)
    requires Enabled(s, a) && !a.DeliverOne? && s.core.terminated && !BeingTold(s.flusher, k)
    ensures !BeingTold(Do(s, a).flusher, k)
  {
  }

  lemma CallsSettleNothing(s: State, a: Action)
    requires Enabled(s, a) && (a.IssueCall? || a.Respond?)
    ensures Do(s, a).core.settled == s.core.settled && Do(s, a).submitted == s.submitted
  {
  }

  lemma QuietSubmits(s: State, a: Action)
    requires Enabled(s, a) && SettlesNothing(a) && !a.AppendSubmit? && !a.AppendFinal?
    ensures Do(s, a).submitted == s.submitted
  {
  }

  lemma NothingSettles(s: State, a: Action)
    requires Enabled(s, a) && !a.DeliverOne? && !a.DropOne? && !a.AppendSubmit? && !a.AppendFinal?
    ensures Do(s, a).core.settled == s.core.settled && Do(s, a).submitted == s.submitted
  {
    if a.IssueCall? || a.Respond? {
      CallsSettleNothing(s, a);
    } else {
      SubmittedGrows(s, a);
      QuietSubmits(s, a);
    }
  }

  lemma SpurnedStep(s: State, a: Action, initial: string, k: nat)
    requires Enabled(s, a) && Inv(s, initial) && Spurned(s, k)
    ensures Spurned(Do(s, a), k)
  {
    LaterStep(s, a);
    if a.DeliverOne? || a.DropOne? {
      SpurnedSettles(s, a, k);
    } else if a.AppendSubmit? || a.AppendFinal? {
      SpurnedAppends(s, a, k);
    } else {
      NothingSettles(s, a);
      if !BeingTold(s.flusher, k) {
        NotToldYet(s, a, k);
      }
    }
  }

  /** Once the invocation is ending, no branch learns that a request is recorded, unless it was being told already. */
  lemma {:induction false} NoBranchGoesOn(initial: string, states: seq<State>, actions: seq<Action>, m: nat, n: nat,
                                          k: nat)
    requires Run(initial, states, actions) && m <= n < |states|
    requires states[m].core.terminated && k !in states[m].core.settled && !BeingTold(states[m].flusher, k)
    ensures Spurned(states[n], k)
  {
    if m < n {
      NoBranchGoesOn(initial, states, actions, m, n - 1, k);
      RunInv(initial, states, actions, n - 1);
      SpurnedStep(states[n - 1], actions[n - 1], initial, k);
    }
  }

  // ----- no wait for nothing -----

  /** While an idle channel is open, something is outstanding or the channels are about to be closed. */
  ghost predicate Pending(s: State) {
    s.core.closed < s.core.registered ==> s.core.outstanding > 0 || s.owing.Close?
  }

  lemma PendingStep(s: State, a: Action)
    requires Enabled(s, a) && CountInv(s) && Pending(s)
    ensures Pending(Do(s, a))
  {
  }

  lemma {:induction false} RunPending(initial: string, states: seq<State>, actions: seq<Action>, n: nat)
    requires Run(initial, states, actions) && n < |states|
    ensures Pending(states[n])
  {
    if n > 0 {
      RunPending(initial, states, actions, n - 1);
      RunInv(initial, states, actions, n - 1);
      PendingStep(states[n - 1], actions[n - 1]);
    }
  }

  /** An invocation that waits for the queue to drain always has something to wait for. */
  lemma WaitIsForSomething(initial: string, s: State)
    requires Reachable(initial, s) && s.handler.Waiting? && s.handler.channel >= s.core.closed
    ensures s.core.outstanding > 0 || s.owing.Close?
  {
    var states, actions :| Run(initial, states, actions) && s in states;
    var n :| 0 <= n < |states| && states[n] == s;
    RunPending(initial, states, actions, n);
    RunInv(initial, states, actions, n);
  }
}
