/** What every run of the checkpointer guarantees, whatever the interleaving. */
module CheckpointTheorems {
  import opened Checkpointer
  import opened CheckpointRuns
  import opened CheckpointBatches
  import opened CheckpointSafety

  // ----- runs -----

  ghost predicate Continues(s: State, states: seq<State>, actions: seq<Action>) {
    |states| == |actions| + 1 && states[0] == s &&
    forall i :: 0 <= i < |actions| ==> Enabled(states[i], actions[i]) && states[i + 1] == Do(states[i], actions[i])
  }

  ghost predicate Run(initial: string, states: seq<State>, actions: seq<Action>) {
    Continues(Init(initial), states, actions)
  }

  ghost predicate Reachable(initial: string, s: State) {
    exists states, actions :: Run(initial, states, actions) && s in states
  }

  lemma {:induction false} RunInv(initial: string, states: seq<State>, actions: seq<Action>, n: nat)
    requires Run(initial, states, actions) && n < |states|
    ensures Inv(states[n], initial)
  {
    if n == 0 {
      InitInv(initial);
    } else {
      RunInv(initial, states, actions, n - 1);
      ActionKeeps(states[n - 1], actions[n - 1], initial);
    }
  }

  lemma ReachableInv(initial: string, s: State)
    requires Reachable(initial, s)
    ensures Inv(s, initial)
  {
    var states, actions :| Run(initial, states, actions) && s in states;
    var n :| 0 <= n < |states| && states[n] == s;
    RunInv(initial, states, actions, n);
  }

  // ----- order -----

  /** Request j depends on every earlier one, and the final write on those queued before the cutoff. */
  ghost predicate DependsOn(s: State, j: nat, k: nat) {
    k < j < |s.submitted| && (s.submitted[j].final ==> s.core.cutoffSet && k < s.core.cutoff)
  }

  /** The requests handed to the client are a prefix of the queue, ignoring those whose own context ended. */
  lemma HandedFormPrefix(initial: string, s: State, j: nat, k: nat)
    requires Reachable(initial, s) && j in Handed(s.calls) && DependsOn(s, j, k)
    ensures k in Handed(s.calls) || (k in s.core.settled && s.core.settled[k] == ContextEnded && k in s.ended)
  {
    ReachableInv(initial, s);
    PrefixFromInv(initial, s, j, k);
  }

  lemma PrefixFromInv(initial: string, s: State, j: nat, k: nat)
    requires Inv(s, initial) && j in Handed(s.calls) && DependsOn(s, j, k)
    ensures k in Handed(s.calls) || (k in s.core.settled && s.core.settled[k] == ContextEnded && k in s.ended)
  {
    var handed := Handed(s.calls);
    assert Gap(s.core.settled, handed, k) ==> !Owed(Bar(s.core), k, s.submitted[j]);
    assert k in s.core.settled || k in Seqs(InFlight(s.flusher)) || k in DroppedSeqs(Drops(s.flusher));
  }

  lemma {:induction false} HandedInSomeCall(calls: seq<Call>, k: nat) returns (i: nat)
    requires k in Handed(calls)
    ensures i < |calls| && k in Seqs(calls[i].batch)
  {
    if k in Seqs(calls[|calls| - 1].batch) {
      i := |calls| - 1;
    } else {
      i := HandedInSomeCall(calls[..|calls| - 1], k);
    }
  }

  /** The last call aside, the recorded calls are all the calls. */
  lemma EarlierIsHeld(calls: seq<Call>, j: nat, k: nat)
    requires calls != [] && AllTaken(calls[..|calls| - 1]) && LastRises(calls)
    requires k in Held(calls) && j in Handed(calls) && j < k
    ensures j in Held(calls)
  {
    AcceptedCallsHold(calls[..|calls| - 1]);
  }

  /**
    A request settles with nil only if the service recorded its call, and then every request queued before it
    is recorded too, unless it was settled because its context had ended.
   */
  lemma SettledImpliesRecorded(initial: string, s: State, j: nat, k: nat)
    requires Reachable(initial, s) && j in s.core.settled && s.core.settled[j] == Recorded
    ensures j in Held(s.calls)
    ensures DependsOn(s, j, k) ==>
              k in Held(s.calls) || (k in s.core.settled && s.core.settled[k] == ContextEnded && k in s.ended)
  {
    ReachableInv(initial, s);
    if DependsOn(s, j, k) {
      PrefixFromInv(initial, s, j, k);
      if k in Handed(s.calls) {
        EarlierIsHeld(s.calls, k, j);
      }
    }
  }

  // ----- calls -----

  /** Each call carries the token the previous call returned, and only the last can have failed. */
  lemma TokensRotate(initial: string, s: State, i: nat)
    requires Reachable(initial, s) && i < |s.calls|
    ensures i == 0 ==> s.calls[i].token == initial
    ensures i > 0 ==> s.calls[i - 1].result.Accepted? && s.calls[i].token == s.calls[i - 1].result.token
  {
    ReachableInv(initial, s);
    ChainRotates(initial, s.calls, i);
  }

  lemma ChainRotates(initial: string, calls: seq<Call>, i: nat)
    requires i < |calls| && TokensChain(initial, calls) && AllTaken(calls[..|calls| - 1])
    ensures i == 0 ==> calls[i].token == initial
    ensures i > 0 ==> calls[i - 1].result.Accepted? && calls[i].token == calls[i - 1].result.token
  {
    if i > 0 {
      assert calls[i - 1] == calls[..|calls| - 1][i - 1];
      assert calls[..i][i - 1] == calls[i - 1];
    }
  }

  lemma EndedCallsStay(s: State, a: Action)
    requires Enabled(s, a) && CallsInv(s) && Ended(s.calls)
    ensures Do(s, a).calls == s.calls
  {
  }

  lemma RunCalls(initial: string, states: seq<State>, actions: seq<Action>, n: nat)
    requires Run(initial, states, actions) && n < |states|
    ensures CallsInv(states[n])
  {
    RunInv(initial, states, actions, n);
  }

  /** After a call failed or came back without a token, no call is ever issued. */
  lemma {:induction false} NothingAfterFailure(initial: string, states: seq<State>, actions: seq<Action>, m: nat,
                                               n: nat)
    requires Run(initial, states, actions) && m <= n < |states| && Ended(states[m].calls)
    ensures states[n].calls == states[m].calls
  {
    if m < n {
      NothingAfterFailure(initial, states, actions, m, n - 1);
      RunCalls(initial, states, actions, n - 1);
      EndedCallsStay(states[n - 1], actions[n - 1]);
    }
  }

  /** In every call either each request may be sent after termination or none may. */
  lemma CallsAreUniform(initial: string, s: State, i: nat)
    requires Reachable(initial, s) && i < |s.calls|
    ensures Uniform(s.core, s.calls[i].batch)
    ensures WithinLimits(s.calls[i].batch, s.calls[i].token)
  {
    ReachableInv(initial, s);
    assert Timely(s.core, s.submitted, s.calls[i].batch);
  }

  // ----- the answer -----

  lemma CutoffStays(initial: string, states: seq<State>, actions: seq<Action>, m: nat, n: nat)
    requires Run(initial, states, actions) && m <= n < |states| && states[m].core.terminated
    ensures states[n].core.terminated && states[n].core.cutoffSet == states[m].core.cutoffSet
    ensures states[n].core.cutoff == states[m].core.cutoff
  {
    if m < n {
      CutoffStays(initial, states, actions, m, n - 1);
      TerminationStays(initial, states[n - 1], actions[n - 1]);
    }
  }

  lemma TerminationStays(initial: string, s: State, a: Action)
    requires Enabled(s, a) && s.core.terminated
    ensures var t := Do(s, a);
            t.core.terminated && t.core.cutoffSet == s.core.cutoffSet && t.core.cutoff == s.core.cutoff
  {
    if Quiet(a) {
      QuietActions(s, a);
    }
  }

  /** Nothing queued after the handler returned was handed to the client but the final write, which is recorded. */
  lemma NothingLaterSent(initial: string, states: seq<State>, actions: seq<Action>, m: nat, n: nat, k: nat)
    requires Run(initial, states, actions) && m < n < |states|
    requires actions[m] == HandlerReturns && !states[m].core.terminated && states[n].handler.Responded?
    ensures k in Handed(states[n].calls) && k >= |states[m].submitted| ==>
              states[n].finalWrite == Queued(k) && k in Held(states[n].calls)
    ensures states[n].finalWrite.Queued? ==> states[n].finalWrite.pos in Held(states[n].calls)
  {
    RunInv(initial, states, actions, m);
    RunInv(initial, states, actions, n);
    CutoffStays(initial, states, actions, m + 1, n);
    var s := states[n];
    if k in Handed(s.calls) && k >= |states[m].submitted| {
      var i := HandedInSomeCall(s.calls, k);
      var r :| r in s.calls[i].batch && r.pos == k;
      assert Timely(s.core, s.submitted, s.calls[i].batch);
      assert r.final;
    }
  }

  lemma AwaitedOnce(s: State, a: Action)
    requires Enabled(s, a) && !s.handler.Running? && !s.handler.QueueEnded?
    ensures var t := Do(s, a); t.overtaken == s.overtaken && !t.handler.Running? && !t.handler.QueueEnded?
  {
  }

  /** awaitIdle runs once, so what it remembered stays. */
  lemma {:induction false} OvertakenStays(initial: string, states: seq<State>, actions: seq<Action>, p: nat, n: nat)
    requires Run(initial, states, actions) && p < n < |states| && actions[p] == AwaitIdle
    ensures states[n].overtaken == Overtaken(states[p])
    ensures !states[n].handler.Running? && !states[n].handler.QueueEnded?
  {
    if p + 1 < n {
      OvertakenStays(initial, states, actions, p, n - 1);
      AwaitedOnce(states[n - 1], actions[n - 1]);
    }
  }

  /**
    When the invocation answers SUCCEEDED after an idle queue and its wait was not overtaken, every request queued
    before the handler returned is recorded or its context ended.
   */
  lemma AnswerIsDurable(initial: string, states: seq<State>, actions: seq<Action>, m: nat, p: nat, n: nat, k: nat)
    requires Run(initial, states, actions) && m < p < n < |states|
    requires actions[m] == HandlerReturns && !states[m].core.terminated && actions[p] == AwaitIdle
    requires !Overtaken(states[p]) && states[n].handler == Responded(true)
    ensures k < |states[m].submitted| ==> k in Held(states[n].calls) || k in states[n].ended
  {
    RunInv(initial, states, actions, m);
    RunInv(initial, states, actions, n);
    CutoffStays(initial, states, actions, m + 1, n);
    OvertakenStays(initial, states, actions, p, n);
  }

  // ----- when the answer is durable -----

  ghost predicate LossyAnswer(s: State, states: seq<State>, actions: seq<Action>) {
    Continues(s, states, actions) && actions != [] && actions[0] == AwaitIdle &&
    var t := states[|states| - 1]; t.handler == Responded(true) && !AllRecorded(t.core.cutoff, t.calls, t.ended)
  }

  lemma {:induction false} ContinuesInv(initial: string, s: State, states: seq<State>, actions: seq<Action>, n: nat)
    requires Continues(s, states, actions) && 0 < n < |states| && Inv(s, initial) && actions[0] == AwaitIdle
    ensures Inv(states[n], initial) && states[n].overtaken == Overtaken(s)
    ensures !states[n].handler.Running? && !states[n].handler.QueueEnded?
  {
    if n == 1 {
      ActionKeeps(s, AwaitIdle, initial);
    } else {
      ContinuesInv(initial, s, states, actions, n - 1);
      ActionKeeps(states[n - 1], actions[n - 1], initial);
      AwaitedOnce(states[n - 1], actions[n - 1]);
    }
  }

  /** The states after each action, one after the other. */
  ghost predicate Follows(states: seq<State>, a: Action, t: State)
    requires states != []
  {
    var s := states[|states| - 1]; Enabled(s, a) && t == Do(s, a)
  }

  lemma Extend(s: State, states: seq<State>, actions: seq<Action>, a: Action, t: State)
    requires Continues(s, states, actions) && Follows(states, a, t)
    ensures Continues(s, states + [t], actions + [a])
  {
    var all, done := states + [t], actions + [a];
    forall i | 0 <= i < |done| ensures Enabled(all[i], done[i]) && all[i + 1] == Do(all[i], done[i]) {
    }
  }

  lemma One(s: State, a: Action, t: State)
    requires Enabled(s, a) && t == Do(s, a)
    ensures Continues(s, [s, t], [a])
  {
  }

  /** The pending close reaches the channel registered after it was decided, and the answer follows. */
  lemma OvertakenAnswers(s: State) returns (states: seq<State>, actions: seq<Action>)
    requires s.handler.QueueEnded? && Overtaken(s) && s.core.haltErr.None? && s.finalWrite.NoFinal?
    requires s.core.outstanding != 0 && s.core.closed <= s.core.registered && !s.flusher.Dropping?
    ensures Continues(s, states, actions) && actions != [] && actions[0] == AwaitIdle
    ensures var t := states[|states| - 1];
            t.handler == Responded(true) && t.calls == s.calls && t.ended == s.ended && t.core.cutoff == s.core.cutoff
  {
    var a := s.(core := s.core.AwaitIdle().0, handler := Waiting(s.core.registered), overtaken := true);
    var b := a.(core := a.core.CloseIdle(), owing := Nothing);
    var c := b.(handler := Waited(true));
    var d := c.(handler := Succeeded(true));
    var e := d.(handler := Responded(true));
    One(s, AwaitIdle, a);
    Extend(s, [s, a], [AwaitIdle], CloseChannels, b);
    states, actions := [s, a] + [b], [AwaitIdle] + [CloseChannels];
    Extend(s, states, actions, Wake, c);
    states, actions := states + [c], actions + [Wake];
    Extend(s, states, actions, ReadHalt, d);
    states, actions := states + [d], actions + [ReadHalt];
    Extend(s, states, actions, Answer, e);
    states, actions := states + [e], actions + [Answer];
  }

  lemma OvertakenIsLossy(initial: string, s: State)
    requires Inv(s, initial) && s.handler.QueueEnded? && Overtaken(s) && s.core.haltErr.None?
    ensures exists states, actions :: LossyAnswer(s, states, actions)
  {
    var states, actions := OvertakenAnswers(s);
    var t := states[|states| - 1];
    var r :| r in s.core.queue && r.pos < s.core.cutoff && r.pos !in s.ended;
    var i :| 0 <= i < |s.core.queue| && s.core.queue[i] == r;
    assert r == s.submitted[Head(s) + i];
    assert r.pos !in Held(t.calls);
    assert LossyAnswer(s, states, actions);
  }

  /**
    Once the handler returned, every SUCCEEDED answer after an idle queue is durable exactly when the wait is not
    overtaken at the moment it begins, or the invocation must not succeed anyway.
   */
  lemma AnswerIsDurableIff(initial: string, s: State)
    requires Reachable(initial, s) && s.handler.QueueEnded?
    ensures (forall states, actions :: !LossyAnswer(s, states, actions)) <==> !Overtaken(s) || s.core.haltErr.Some?
  {
    ReachableInv(initial, s);
    if Overtaken(s) && s.core.haltErr.None? {
      OvertakenIsLossy(initial, s);
    } else {
      forall states, actions | Continues(s, states, actions) && actions != [] && actions[0] == AwaitIdle
        ensures !LossyAnswer(s, states, actions)
      {
        ContinuesInv(initial, s, states, actions, |states| - 1);
        if s.core.haltErr.Some? {
          HaltedNeverAnswers(s, states, actions, |states| - 1);
        }
      }
    }
  }

  /** The invocation has left the handler, and a halt cause keeps it from answering. */
  ghost predicate Doomed(s: State) {
    s.core.haltErr.Some? && !s.handler.Running? && !s.handler.Succeeded? && !s.handler.Responded?
  }

  lemma DoomedStays(s: State, a: Action)
    requires Enabled(s, a) && Doomed(s)
    ensures Doomed(Do(s, a))
  {
  }

  lemma {:induction false} HaltedNeverAnswers(s: State, states: seq<State>, actions: seq<Action>, n: nat)
    requires Continues(s, states, actions) && n < |states| && Doomed(s)
    ensures Doomed(states[n])
  {
    if n > 0 {
      HaltedNeverAnswers(s, states, actions, n - 1);
      DoomedStays(states[n - 1], actions[n - 1]);
    }
  }

  // ----- an answer that is not durable -----

  /** An awaited request is recorded; its deliver counts down to 0 and is preempted before it closes the channels. */
  function Preempted(initial: string): State {
    var p := Request(0, 1, 1, false);
    State(Core("next", [], true, 1, 0, false, false, None, 0, map[0 := Recorded], 0, 0), AtTop, Close, 0, {},
          [Call([p], initial, Accepted("next"))], [p], Running, NoFinal, false)
  }

  /** The handler, woken by its outcome, queued a START without waiting and returned. */
  function Returned(initial: string): State {
    var s := Preempted(initial);
    var p := Request(1, 1, 1, false);
    s.(core := s.core.(queue := [p], nextSeq := 2, outstanding := 1, cutoff := 2, cutoffSet := true,
                       terminated := true),
       submitted := s.submitted + [p], handler := QueueEnded)
  }

  lemma TakesOne(initial: string)
    ensures var p := Request(0, 1, 1, false);
            Core(initial, [p], true, 1, 0, false, false, None, 1, map[], 0, 0).Take({}) == Taken([p], [], [])
  {
    var p := Request(0, 1, 1, false);
    var c := Core(initial, [p], true, 1, 0, false, false, None, 1, map[], 0, 0);
    assert [p][1..] == [] && [] + [p] == [p];
    assert c.TakeFrom([], [p], 1, |c.token| + BATCH_OVERHEAD_BYTES + 1, {}) == Taken([p], [], []);
  }

  lemma StepReachable(initial: string, s: State, a: Action, t: State)
    requires Reachable(initial, s) && Enabled(s, a) && t == Do(s, a)
    ensures Reachable(initial, t)
  {
    var states, actions :| Run(initial, states, actions) && s in states;
    var n :| 0 <= n < |states| && states[n] == s;
    assert Continues(Init(initial), states[..n + 1], actions[..n]);
    Extend(Init(initial), states[..n + 1], actions[..n], a, t);
    assert Run(initial, states[..n + 1] + [t], actions[..n] + [a]) && t in states[..n + 1] + [t];
  }

  lemma InitReachable(initial: string)
    ensures Reachable(initial, Init(initial))
  {
    assert Run(initial, [Init(initial)], []) && Init(initial) in [Init(initial)];
  }

  /** The first request, taken and cleared to be sent. */
  function Sending(initial: string): State {
    var p := Request(0, 1, 1, false);
    State(Core(initial, [], true, 1, 0, false, false, None, 1, map[], 0, 0), Cleared([p], initial), Nothing, 0, {}, [],
          [p], Running, NoFinal, false)
  }

  lemma SendingIsReached(initial: string)
    ensures Reachable(initial, Sending(initial))
  {
    var p := Request(0, 1, 1, false);
    var s0 := Init(initial);
    var s1 := Do(s0, BeginSubmit);
    var s2 := Do(s1, AppendSubmit(1, 1));
    assert [] + [p] == [p];
    TakesOne(initial);
    var s3 := Do(s2, TakeBatch);
    var s4 := Do(s3, Unlock);
    var s5 := Do(s4, CheckTermination);
    assert s5 == Sending(initial);
    InitReachable(initial);
    StepReachable(initial, s0, BeginSubmit, s1);
    StepReachable(initial, s1, AppendSubmit(1, 1), s2);
    StepReachable(initial, s2, TakeBatch, s3);
    StepReachable(initial, s3, Unlock, s4);
    StepReachable(initial, s4, CheckTermination, s5);
  }

  /** Its call was answered. */
  function AnswerArrived(initial: string): State {
    var p := Request(0, 1, 1, false);
    State(Core("next", [], true, 1, 0, false, false, None, 1, map[], 0, 0), Answered([p], Recorded, true), Nothing, 0,
          {}, [Call([p], initial, Accepted("next"))], [p], Running, NoFinal, false)
  }

  lemma AnswerIsReached(initial: string)
    ensures Reachable(initial, AnswerArrived(initial))
  {
    var p := Request(0, 1, 1, false);
    var s0 := Sending(initial);
    var s1 := s0.(flusher := Calling([p]), calls := [Call([p], initial, Awaited)]);
    SendingIsReached(initial);
    StepReachable(initial, s0, IssueCall, s1);
    assert WithResult(s1.calls, Accepted("next")) == [Call([p], initial, Accepted("next"))];
    StepReachable(initial, s1, Respond(Accepted("next")), AnswerArrived(initial));
  }

  lemma PreemptedIsReached(initial: string)
    ensures Reachable(initial, Preempted(initial))
  {
    var p := Request(0, 1, 1, false);
    var s0 := AnswerArrived(initial);
    var s1 := s0.(flusher := Delivering([p], Recorded, false, true));
    var s2 := s1.(core := s1.core.(settled := map[0 := Recorded]), flusher := AtTop, owing := Count);
    AnswerIsReached(initial);
    StepReachable(initial, s0, Decide, s1);
    StepReachable(initial, s1, DeliverOne, s2);
    StepReachable(initial, s2, LowerCount, Preempted(initial));
  }

  lemma ReturnedIsReached(initial: string)
    ensures Reachable(initial, Returned(initial))
  {
    var s := Preempted(initial);
    var a := Do(s, BeginSubmit);
    var b := Do(a, AppendSubmit(1, 1));
    assert [] + [Request(1, 1, 1, false)] == [Request(1, 1, 1, false)];
    var c := Do(b, HandlerReturns);
    assert c == Returned(initial);
    PreemptedIsReached(initial);
    StepReachable(initial, s, BeginSubmit, a);
    StepReachable(initial, a, AppendSubmit(1, 1), b);
    StepReachable(initial, b, HandlerReturns, c);
  }

  /** The overtaken wait is real: a handler that awaits one request, queues one more and returns can meet it. */
  lemma AnswerMayPrecedeRecord(initial: string)
    ensures Reachable(initial, Returned(initial))
    ensures exists states, actions :: LossyAnswer(Returned(initial), states, actions)
  {
    var s := Returned(initial);
    ReturnedIsReached(initial);
    ReachableInv(initial, s);
    assert s.core.queue[0] in s.core.queue;
    OvertakenIsLossy(initial, s);
  }

  // ----- a handler that awaits what it queues -----

  lemma {:induction false} ReturnedHalted(initial: string, states: seq<State>, actions: seq<Action>, m: nat, n: nat)
    requires Run(initial, states, actions) && m < n < |states| && actions[m] == HandlerReturns
    requires states[m].core.haltErr.Some?
    ensures Doomed(states[n])
  {
    if m + 1 < n {
      ReturnedHalted(initial, states, actions, m, n - 1);
      DoomedStays(states[n - 1], actions[n - 1]);
    }
  }

  lemma {:induction false} HeldStays(initial: string, states: seq<State>, actions: seq<Action>, m: nat, n: nat, k: nat)
    requires Run(initial, states, actions) && m <= n < |states| && k in states[m].ended
    ensures k in states[n].ended
  {
    if m < n {
      HeldStays(initial, states, actions, m, n - 1, k);
    }
  }

  /** If every request was settled before the handler returned, no interleaving makes its answer lossy. */
  lemma AwaitingHandlerIsDurable(initial: string, states: seq<State>, actions: seq<Action>, m: nat, n: nat, k: nat)
    requires Run(initial, states, actions) && m < n < |states| && k < |states[m].submitted|
    requires actions[m] == HandlerReturns && !states[m].core.terminated && states[n].handler.Responded?
    requires k in states[m].core.settled
    ensures k in Held(states[n].calls) || k in states[n].ended
  {
    RunInv(initial, states, actions, m);
    RunInv(initial, states, actions, n);
    if states[m].core.haltErr.Some? {
      ReturnedHalted(initial, states, actions, m, n);
    } else if states[m].core.settled[k] == ContextEnded {
      HeldStays(initial, states, actions, m, n, k);
    } else {
      assert !Gap(states[m].core.settled, Handed(states[m].calls), k);
      HandedIsHeld(states[m], initial, k);
      HeldNeverShrinks(initial, states, actions, m, n, k);
    }
  }

  lemma {:induction false} HeldNeverShrinks(initial: string, states: seq<State>, actions: seq<Action>, m: nat, n: nat,
                                            k: nat)
    requires Run(initial, states, actions) && m <= n < |states| && k in Held(states[m].calls)
    ensures k in Held(states[n].calls)
  {
    if m < n {
      HeldNeverShrinks(initial, states, actions, m, n - 1, k);
      RunCalls(initial, states, actions, n - 1);
      HeldKept(states[n - 1], actions[n - 1], k);
    }
  }

  lemma HeldKept(s: State, a: Action, k: nat)
    requires Enabled(s, a) && CallsInv(s) && k in Held(s.calls)
    ensures k in Held(Do(s, a).calls)
  {
    if a.Respond? {
      ResponseHistory(s, a.result);
    } else if a.IssueCall? {
      HistoryGrows(s.calls, Call(s.flusher.batch, s.flusher.token, Awaited));
    } else {
      assert Do(s, a).calls == s.calls;
    }
  }

  // ----- conservation -----

  /**
    outstanding counts the requests being submitted, queued, in flight and being dropped, and the outcome that was
    sent and is not counted off yet; every other request is settled.
   */
  lemma OutstandingIsExact(initial: string, s: State, k: nat)
    requires Reachable(initial, s)
    ensures s.core.outstanding ==
            s.submitting + |s.core.queue| + |InFlight(s.flusher)| + |Drops(s.flusher)| + Uncounted(s.owing)
    ensures k in s.core.settled <==>
            k < |s.submitted| - |s.core.queue| && k !in Seqs(InFlight(s.flusher)) && k !in DroppedSeqs(Drops(s.flusher))
    ensures s.core.queue != [] ==> !s.flusher.Idle?
    ensures s.core.outstanding == 0 ==> (k < |s.submitted| <==> k in s.core.settled)
  {
    ReachableInv(initial, s);
  }

  /** An outcome once sent is never sent again. */
  lemma SettledOnce(s: State, a: Action, k: nat)
    requires FlightInv(s) && Enabled(s, a) && k in s.core.settled
    ensures k in Do(s, a).core.settled && Do(s, a).core.settled[k] == s.core.settled[k]
  {
    if a.DeliverOne? {
      assert s.flusher.batch[0].pos in Seqs(s.flusher.batch);
    } else if a.DropOne? {
      assert s.flusher.drops[0] in s.flusher.drops && s.flusher.drops[0].request.pos in DroppedSeqs(s.flusher.drops);
    } else if Quiet(a) {
      QuietActions(s, a);
    } else {
      assert Do(s, a).core.settled == s.core.settled;
    }
  }

  lemma RunFlight(initial: string, states: seq<State>, actions: seq<Action>, n: nat)
    requires Run(initial, states, actions) && n < |states|
    ensures QueueInv(states[n]) && FlightInv(states[n])
  {
    RunInv(initial, states, actions, n);
  }

  lemma {:induction false} OutcomeIsFinal(initial: string, states: seq<State>, actions: seq<Action>, m: nat, n: nat,
                                          k: nat)
    requires Run(initial, states, actions) && m <= n < |states| && k in states[m].core.settled
    ensures k in states[n].core.settled && states[n].core.settled[k] == states[m].core.settled[k]
  {
    if m < n {
      OutcomeIsFinal(initial, states, actions, m, n - 1, k);
      RunFlight(initial, states, actions, n - 1);
      SettledOnce(states[n - 1], actions[n - 1], k);
    }
  }

  // ----- progress -----

  /** The flusher's next step; result answers a call. */
  function FlusherStep(f: Flusher, owing: Owing, result: Result): Action
    requires !f.Idle?
  {
    if owing.Count? then LowerCount
    else if owing.Close? then CloseChannels
    else match f
      case AtTop => TakeBatch
      case Dropping(drops, _, _) => if drops == [] then Unlock else DropOne
      case Batched(_, _) => CheckTermination
      case Asking(_, _) => AskHalt
      case Cleared(_, _) => IssueCall
      case Calling(_) => Respond(result)
      case Halting(_, _) => StoreTerminated
      case Answered(_, _, _) => Decide
      case Delivering(_, _, _, _) => DeliverOne
  }

  /** Each delivery takes up to three steps. */
  function Phase(f: Flusher): nat {
    match f
    case Idle => 0
    case AtTop => 1
    case Delivering(b, _, _, _) => 1 + 3 * |b|
    case Answered(b, _, _) => 2 + 3 * |b|
    case Halting(b, _) => 3 + 3 * |b|
    case Calling(b) => 4 + 3 * |b|
    case Cleared(b, _) => 5 + 3 * |b|
    case Asking(b, _) => 6 + 3 * |b|
    case Batched(b, _) => 7 + 3 * |b|
    case Dropping(d, b, _) => 8 + 3 * |b| + 3 * |d|
  }

  function Left(o: Owing): nat {
    match o
    case Nothing => 0
    case Close => 1
    case Count => 2
  }

  function Rank(s: State): nat {
    12 * |s.core.queue| + Phase(s.flusher) + Left(s.owing)
  }

  lemma TakingShrinks(c: Core, ended: set<nat>)
    requires c.queue != []
    ensures var t := c.Take(ended); |t.rest| + |t.batch| + |t.drops| == |c.queue| && |t.rest| < |c.queue|
  {
    TakeCounts(c, c.queue, [], 0, |c.token| + BATCH_OVERHEAD_BYTES, ended);
  }

  lemma FlusherAdvances(initial: string, s: State, result: Result)
    requires Inv(s, initial) && !s.flusher.Idle? && !result.Awaited?
    ensures Enabled(s, FlusherStep(s.flusher, s.owing, result))
    ensures Rank(Do(s, FlusherStep(s.flusher, s.owing, result))) < Rank(s)
  {
    if !s.owing.Nothing? {
      CountAdvances(s, result);
    } else if s.flusher.AtTop? {
      TakingAdvances(s);
    } else {
      StepAdvances(s, result);
    }
  }

  lemma CountAdvances(s: State, result: Result)
    requires CountInv(s) && !s.flusher.Idle? && !s.owing.Nothing?
    ensures Enabled(s, FlusherStep(s.flusher, s.owing, result))
    ensures Rank(Do(s, FlusherStep(s.flusher, s.owing, result))) < Rank(s)
  {
  }

  lemma StepAdvances(s: State, result: Result)
    requires FlightInv(s) && CallsInv(s) && !s.flusher.Idle? && !s.flusher.AtTop? && !result.Awaited? &&
             s.owing.Nothing?
    ensures Enabled(s, FlusherStep(s.flusher, s.owing, result))
    ensures Rank(Do(s, FlusherStep(s.flusher, s.owing, result))) < Rank(s)
  {
  }

  lemma TakingAdvances(s: State)
    requires QueueInv(s) && s.flusher.AtTop? && s.owing.Nothing?
    ensures Rank(Do(s, TakeBatch)) < Rank(s)
  {
    if s.core.queue != [] {
      TakingShrinks(s.core, s.ended);
    }
  }

  lemma StepSubmits(s: State, result: Result)
    requires !s.flusher.Idle? && Enabled(s, FlusherStep(s.flusher, s.owing, result))
    ensures Do(s, FlusherStep(s.flusher, s.owing, result)).submitted == s.submitted
  {
  }

  /** The flusher alone, every call answered with result, until it exits. */
  ghost function Drain(initial: string, s: State, result: Result): State
    requires Inv(s, initial) && !result.Awaited?
    decreases Rank(s)
  {
    if s.flusher.Idle? then s
    else
      FlusherAdvances(initial, s, result);
      ActionKeeps(s, FlusherStep(s.flusher, s.owing, result), initial);
      Drain(initial, Do(s, FlusherStep(s.flusher, s.owing, result)), result)
  }

  /** Left alone, the flusher settles every request submitted so far: none is stranded. */
  lemma {:induction false} NothingStranded(initial: string, s: State, result: Result, k: nat)
    requires Inv(s, initial) && !result.Awaited? && k < |s.submitted|
    ensures k in Drain(initial, s, result).core.settled
    decreases Rank(s)
  {
    if !s.flusher.Idle? {
      var a := FlusherStep(s.flusher, s.owing, result);
      FlusherAdvances(initial, s, result);
      ActionKeeps(s, a, initial);
      StepSubmits(s, result);
      NothingStranded(initial, Do(s, a), result, k);
    }
  }
}
