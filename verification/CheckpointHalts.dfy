/** Why an invocation halts: the first cause of a run is its cause, and requests learn of no other failure. */
module CheckpointHalts {
  import opened Checkpointer
  import opened CheckpointRuns
  import opened CheckpointTheorems

  predicate OfBranches(batch: seq<Request>) {
    forall i :: 0 <= i < |batch| ==> !batch[i].final
  }

  /** The halt an action brings: a failed call's, a branch call's missing token, or one raised elsewhere. */
  function Brings(s: State, a: Action): Option<Halt> {
    match a
    case Respond(Failed(cause)) => Some(Failure(cause))
    case Respond(NoToken) =>
      if OfBranches(InFlight(s.flusher)) then Some(TokenWithdrawn) else None
    case ForeignHalt(end) => Some(end)
    case _ => None
  }

  lemma FinalAmong(b: seq<Request>)
    ensures HasFinal(b) <==> !OfBranches(b)
  {
    if HasFinal(b) {
      var r :| r in b && r.final;
      var i :| 0 <= i < |b| && b[i] == r;
    }
  }

  lemma HaltStep(s: State, a: Action)
    requires Enabled(s, a)
    ensures Do(s, a).core.haltErr == if s.core.haltErr.Some? then s.core.haltErr else Brings(s, a)
  {
    if a.Respond? && a.result.NoToken? {
      FinalAmong(s.flusher.batch);
    }
  }

  /** A halt is recorded when an action brings one and none is recorded yet. */
  ghost predicate Latches(states: seq<State>, actions: seq<Action>) {
    |states| == |actions| + 1 && states[0].core.haltErr.None? &&
    forall n :: 0 <= n < |actions| ==>
      states[n + 1].core.haltErr ==
      if states[n].core.haltErr.Some? then states[n].core.haltErr else Brings(states[n], actions[n])
  }

  lemma RunLatches(initial: string, states: seq<State>, actions: seq<Action>)
    requires Run(initial, states, actions)
    ensures Latches(states, actions)
  {
    forall n | 0 <= n < |actions|
      ensures states[n + 1].core.haltErr ==
              if states[n].core.haltErr.Some? then states[n].core.haltErr else Brings(states[n], actions[n])
    {
      HaltStep(states[n], actions[n]);
    }
  }

  // ----- the first cause -----

  /** No action before the n-th brought a halt. */
  ghost predicate NoneBefore(states: seq<State>, actions: seq<Action>, n: nat)
    requires n <= |actions| < |states|
  {
    forall i :: 0 <= i < n ==> Brings(states[i], actions[i]).None?
  }

  lemma {:induction false} NoHaltBefore(states: seq<State>, actions: seq<Action>, n: nat)
    requires Latches(states, actions) && n <= |actions| && NoneBefore(states, actions, n)
    ensures states[n].core.haltErr.None?
  {
    if n > 0 {
      NoHaltBefore(states, actions, n - 1);
    }
  }

  lemma {:induction false} LatchStays(states: seq<State>, actions: seq<Action>, m: nat, n: nat)
    requires Latches(states, actions) && m <= n <= |actions| && states[m].core.haltErr.Some?
    ensures states[n].core.haltErr == states[m].core.haltErr
  {
    if m < n {
      LatchStays(states, actions, m, n - 1);
    }
  }

  /** Once there is a halt cause, it stays. */
  lemma HaltIsFinal(initial: string, states: seq<State>, actions: seq<Action>, m: nat, n: nat)
    requires Run(initial, states, actions) && m <= n < |states| && states[m].core.haltErr.Some?
    ensures states[n].core.haltErr == states[m].core.haltErr
  {
    RunLatches(initial, states, actions);
    LatchStays(states, actions, m, n);
  }

  /** The recorded halt is the one that the first action to bring any carried, and none is recorded before it. */
  lemma FirstHaltWins(initial: string, states: seq<State>, actions: seq<Action>, i: nat, n: nat)
    requires Run(initial, states, actions) && i < |actions| && n < |states|
    requires NoneBefore(states, actions, i) && Brings(states[i], actions[i]).Some?
    ensures states[n].core.haltErr == if n <= i then None else Brings(states[i], actions[i])
  {
    RunLatches(initial, states, actions);
    if n <= i {
      NoHaltBefore(states, actions, n);
    } else {
      NoHaltBefore(states, actions, i);
      LatchStays(states, actions, i + 1, n);
    }
  }

  // ----- what requests learn -----

  ghost predicate Brought(states: seq<State>, actions: seq<Action>, n: nat, cause: nat)
    requires n <= |actions| < |states|
  {
    exists i :: 0 <= i < n && Brings(states[i], actions[i]) == Some(Failure(cause))
  }

  /** The failure the flusher will tell the requests of its batch. */
  function Telling(f: Flusher): Option<nat> {
    if (f.Halting? || f.Answered? || f.Delivering?) && f.outcome.CallFailed? then Some(f.outcome.cause) else None
  }

  /** The failures a state knows of. */
  ghost predicate Knows(s: State, cause: nat) {
    s.core.haltErr == Some(Failure(cause)) || Telling(s.flusher) == Some(cause) ||
    exists k :: k in s.core.settled && s.core.settled[k] == CallFailed(cause)
  }

  /** An action makes no failure up. */
  lemma NothingInvented(s: State, a: Action, cause: nat)
    requires Enabled(s, a) && DropsInv(s) && Knows(Do(s, a), cause)
    ensures Knows(s, cause) || Brings(s, a) == Some(Failure(cause))
  {
    HaltStep(s, a);
    var t := Do(s, a);
    if t.core.haltErr == Some(Failure(cause)) || Telling(t.flusher) == Some(cause) {
    } else {
      var k :| k in t.core.settled && t.core.settled[k] == CallFailed(cause);
      SettledStep(s, a, k);
    }
  }

  lemma SettledStep(s: State, a: Action, k: nat)
    requires Enabled(s, a) && DropsInv(s)
    requires k in Do(s, a).core.settled && Do(s, a).core.settled[k].CallFailed?
    ensures Telling(s.flusher) == Some(Do(s, a).core.settled[k].cause) ||
            (k in s.core.settled && s.core.settled[k] == Do(s, a).core.settled[k])
  {
    if a.DropOne? {
      assert s.flusher.drops[0] in s.flusher.drops;
    }
  }

  /** Each failure a state knows of was known before, or brought by the action between. */
  ghost predicate Grounded(states: seq<State>, actions: seq<Action>, cause: nat) {
    |states| == |actions| + 1 && !Knows(states[0], cause) &&
    forall n :: 0 <= n < |actions| && Knows(states[n + 1], cause) ==>
      Knows(states[n], cause) || Brings(states[n], actions[n]) == Some(Failure(cause))
  }

  lemma RunIsGrounded(initial: string, states: seq<State>, actions: seq<Action>, cause: nat)
    requires Run(initial, states, actions)
    ensures Grounded(states, actions, cause)
  {
    forall n | 0 <= n < |actions| && Knows(states[n + 1], cause)
      ensures Knows(states[n], cause) || Brings(states[n], actions[n]) == Some(Failure(cause))
    {
      RunInv(initial, states, actions, n);
      NothingInvented(states[n], actions[n], cause);
    }
  }

  lemma {:induction false} GroundedIsBrought(states: seq<State>, actions: seq<Action>, n: nat, cause: nat)
    requires Grounded(states, actions, cause) && n <= |actions| && Knows(states[n], cause)
    ensures Brought(states, actions, n, cause)
  {
    if n > 0 && Knows(states[n - 1], cause) {
      GroundedIsBrought(states, actions, n - 1, cause);
    }
  }

  /** Whatever failure a request settles with, a call ended with it or it was raised as a halt before. */
  lemma FailuresAreReal(initial: string, states: seq<State>, actions: seq<Action>, n: nat, k: nat)
    requires Run(initial, states, actions) && n < |states|
    requires k in states[n].core.settled && states[n].core.settled[k].CallFailed?
    ensures Brought(states, actions, n, states[n].core.settled[k].cause)
  {
    RunIsGrounded(initial, states, actions, states[n].core.settled[k].cause);
    GroundedIsBrought(states, actions, n, states[n].core.settled[k].cause);
  }
}
