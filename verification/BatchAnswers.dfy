/** Which of its four answers a concurrent batch gives, read off the arrivals, the policy and the refused STARTs. */
module BatchAnswers {
  import opened BatchPolicy
  import opened BatchCoordinator
  import opened BatchTheorems
  import opened BatchSequential

  // ----- runs, prefix by prefix -----

  lemma {:induction false} PrefixIsValid(u: Setup, arrivals: seq<Arrival>, n: nat)
    requires Valid(u, arrivals) && n <= |arrivals|
    ensures Valid(u, arrivals[..n])
    decreases |arrivals|
  {
    if n == |arrivals| {
      assert arrivals[..n] == arrivals;
    } else {
      PrefixIsValid(u, arrivals[..|arrivals| - 1], n);
      assert arrivals[..|arrivals| - 1][..n] == arrivals[..n];
    }
  }

  lemma NextStep(u: Setup, arrivals: seq<Arrival>, n: nat)
    requires Valid(u, arrivals) && n < |arrivals|
    ensures Valid(u, arrivals[..n]) && Inv(u, Run(u, arrivals[..n]))
    ensures arrivals[n].index < u.total && arrivals[n].index in Run(u, arrivals[..n]).inFlight
    ensures Inv(u, Receive(u, Run(u, arrivals[..n]), arrivals[n]))
    ensures Run(u, arrivals[..n + 1]) == Step(u, Run(u, arrivals[..n]), arrivals[n])
  {
    PrefixIsValid(u, arrivals, n + 1);
    PrefixIsValid(u, arrivals, n);
    assert arrivals[..n + 1][..n] == arrivals[..n];
    RunKeeps(u, arrivals[..n]);
    ReceiveKeeps(u, Run(u, arrivals[..n]), arrivals[n]);
  }

  // ----- what the policy is asked, and what it says -----

  /** The status vector the policy is shown when the k-th outcome arrives. */
  function Shown(u: Setup, arrivals: seq<Arrival>, k: nat): seq<ItemStatus>
    requires k < |arrivals| && arrivals[k].work.Item? && arrivals[k].index < u.total
  {
    Run(u, arrivals[..k]).status[arrivals[k].index := if arrivals[k].work.ok then Succeeded else Failed]
  }

  /** The k-th arrival is an outcome on which the policy decides the batch. */
  ghost predicate Stops(u: Setup, arrivals: seq<Arrival>, k: nat)
    requires k < |arrivals|
  {
    arrivals[k].work.Item? && arrivals[k].index < u.total && Judge(u.policy, Shown(u, arrivals, k)).Stop?
  }

  ghost predicate Undecided(u: Setup, arrivals: seq<Arrival>, n: nat)
    requires n <= |arrivals|
  {
    forall k :: 0 <= k < n ==> !Stops(u, arrivals, k)
  }

  /** The k-th arrival fails the batch: the worker broke, or the policy itself did. */
  ghost predicate Fails(u: Setup, arrivals: seq<Arrival>, k: nat, error: Fatal)
    requires k < |arrivals|
  {
    match arrivals[k].work
    case Suspends => false
    case Breaks(e) => error == WorkerError(e)
    case Item(_) =>
      error == PolicyError && arrivals[k].index < u.total && Undecided(u, arrivals, k) &&
      Judge(u.policy, Shown(u, arrivals, k)).Broken?
  }

  ghost predicate Unfailed(u: Setup, arrivals: seq<Arrival>, n: nat)
    requires n <= |arrivals|
  {
    forall k, e :: 0 <= k < n ==> !Fails(u, arrivals, k, e)
  }

  ghost predicate SomeSuspended(arrivals: seq<Arrival>, n: nat)
    requires n <= |arrivals|
  {
    exists k :: 0 <= k < n && arrivals[k].work.Suspends?
  }

  // ----- decision and failure -----

  ghost predicate DecidedAt(u: Setup, arrivals: seq<Arrival>, n: nat, k: nat)
    requires n <= |arrivals|
  {
    k < n && Stops(u, arrivals, k) && Undecided(u, arrivals, k)
  }

  ghost predicate FailedAt(u: Setup, arrivals: seq<Arrival>, n: nat, k: nat, e: Fatal)
    requires n <= |arrivals|
  {
    k < n && Fails(u, arrivals, k, e) && Unfailed(u, arrivals, k)
  }

  /** The first n arrivals decided the batch for this reason. */
  ghost predicate DecidedFor(u: Setup, arrivals: seq<Arrival>, n: nat, reason: Reason)
    requires n <= |arrivals|
  {
    exists k :: DecidedAt(u, arrivals, n, k) && Judge(u.policy, Shown(u, arrivals, k)) == Stop(reason)
  }

  ghost predicate FailedWith(u: Setup, arrivals: seq<Arrival>, n: nat, e: Fatal)
    requires n <= |arrivals|
  {
    exists k :: FailedAt(u, arrivals, n, k, e)
  }

  /** What the coordinator remembers of the first n arrivals. */
  ghost predicate RightDecision(u: Setup, arrivals: seq<Arrival>, n: nat, locked: bool, reason: Reason)
    requires n <= |arrivals|
  {
    if locked then DecidedFor(u, arrivals, n, reason) else Undecided(u, arrivals, n) && reason == AllCompleted
  }

  ghost predicate RightFailure(u: Setup, arrivals: seq<Arrival>, n: nat, fatal: Option<Fatal>)
    requires n <= |arrivals|
  {
    if fatal.None? then Unfailed(u, arrivals, n) else FailedWith(u, arrivals, n, fatal.value)
  }

  ghost predicate Remembers(u: Setup, arrivals: seq<Arrival>, n: nat, c: Coordinator)
    requires n <= |arrivals|
  {
    RightDecision(u, arrivals, n, c.locked, c.reason) && RightFailure(u, arrivals, n, c.fatal) &&
    (c.suspended != {} <==> SomeSuspended(arrivals, n))
  }

  lemma DecisionRemembered(u: Setup, arrivals: seq<Arrival>, n: nat, c: Coordinator)
    requires n < |arrivals| && arrivals[n].index < u.total == |c.status| && c == Run(u, arrivals[..n])
    requires RightDecision(u, arrivals, n, c.locked, c.reason)
    ensures var d := Receive(u, c, arrivals[n]); RightDecision(u, arrivals, n + 1, d.locked, d.reason)
  {
    var d := Receive(u, c, arrivals[n]);
    if c.locked {
      var k :| DecidedAt(u, arrivals, n, k) && Judge(u.policy, Shown(u, arrivals, k)) == Stop(c.reason);
      assert DecidedAt(u, arrivals, n + 1, k);
    } else if d.locked {
      assert DecidedAt(u, arrivals, n + 1, n);
    }
  }

  lemma DecisionKnown(u: Setup, arrivals: seq<Arrival>, n: nat, locked: bool, reason: Reason)
    requires n <= |arrivals| && RightDecision(u, arrivals, n, locked, reason)
    ensures locked <==> !Undecided(u, arrivals, n)
  {
  }

  lemma FailureRemembered(u: Setup, arrivals: seq<Arrival>, n: nat, c: Coordinator)
    requires n < |arrivals| && arrivals[n].index < u.total == |c.status| && c == Run(u, arrivals[..n])
    requires RightDecision(u, arrivals, n, c.locked, c.reason) && RightFailure(u, arrivals, n, c.fatal)
    ensures RightFailure(u, arrivals, n + 1, Receive(u, c, arrivals[n]).fatal)
  {
    var d := Receive(u, c, arrivals[n]);
    if c.fatal.Some? {
      var k :| FailedAt(u, arrivals, n, k, c.fatal.value);
      assert FailedAt(u, arrivals, n + 1, k, c.fatal.value);
    } else {
      DecisionKnown(u, arrivals, n, c.locked, c.reason);
      if d.fatal.Some? {
        assert FailedAt(u, arrivals, n + 1, n, d.fatal.value);
      } else {
        assert forall e :: !Fails(u, arrivals, n, e);
      }
    }
  }

  lemma SuspensionRemembered(u: Setup, arrivals: seq<Arrival>, n: nat, c: Coordinator)
    requires n < |arrivals| && arrivals[n].index < |c.status| && (c.suspended != {} <==> SomeSuspended(arrivals, n))
    ensures Receive(u, c, arrivals[n]).suspended != {} <==> SomeSuspended(arrivals, n + 1)
  {
    if c.suspended != {} {
      var k :| 0 <= k < n && arrivals[k].work.Suspends?;
      assert 0 <= k < n + 1 && arrivals[k].work.Suspends?;
    }
  }

  lemma RecallsNext(u: Setup, arrivals: seq<Arrival>, n: nat, c: Coordinator)
    requires n < |arrivals| && arrivals[n].index < u.total && c == Run(u, arrivals[..n])
    requires Remembers(u, arrivals, n, c) && Inv(u, Receive(u, c, arrivals[n]))
    ensures Remembers(u, arrivals, n + 1, Step(u, c, arrivals[n]))
  {
    DecisionRemembered(u, arrivals, n, c);
    FailureRemembered(u, arrivals, n, c);
    SuspensionRemembered(u, arrivals, n, c);
    AdmitKeeps(u, Receive(u, c, arrivals[n]));
  }

  lemma {:induction false} Recalls(u: Setup, arrivals: seq<Arrival>, n: nat)
    requires Valid(u, arrivals) && n <= |arrivals|
    ensures Remembers(u, arrivals, n, Run(u, arrivals[..n]))
  {
    if n == 0 {
      AdmitKeeps(u, Fresh(u));
    } else {
      Recalls(u, arrivals, n - 1);
      NextStep(u, arrivals, n - 1);
      RecallsNext(u, arrivals, n - 1, Run(u, arrivals[..n - 1]));
    }
  }

  // ----- refused STARTs -----

  /** How many slots the first n arrivals gave back. */
  function Released(arrivals: seq<Arrival>, n: nat): nat
    requires n <= |arrivals|
  {
    if n == 0 then 0 else Released(arrivals, n - 1) + (if arrivals[n - 1].work.Suspends? then 0 else 1)
  }

  /** Item r is the first whose START is refused, and a slot came free for it before the batch was decided or failed. */
  ghost predicate RefusedAt(u: Setup, arrivals: seq<Arrival>, r: nat, n: nat)
    requires n <= |arrivals|
  {
    r < u.total && u.startRefused(r) && (forall i :: 0 <= i < r ==> !u.startRefused(i)) &&
    Undecided(u, arrivals, n) && Unfailed(u, arrivals, n) && r < u.concurrency + Released(arrivals, n)
  }

  ghost predicate Refusal(u: Setup, arrivals: seq<Arrival>) {
    exists r, n :: 0 <= n <= |arrivals| && RefusedAt(u, arrivals, r, n)
  }

  lemma {:induction false} AdmitSlots(u: Setup, c: Coordinator)
    requires Inv(u, c)
    ensures Admit(u, c).slots - Admit(u, c).started == c.slots - c.started
    ensures c.admitErr ==> Admit(u, c) == c
    ensures Admit(u, c).admitErr && !c.admitErr ==>
              !c.locked && Admit(u, c).started < u.total && u.startRefused(Admit(u, c).started) &&
              Admit(u, c).slots < u.concurrency
    decreases u.total - c.next
  {
    if MayAdmit(u, c) {
      AdmitOneKeeps(u, c);
      AdmitSlots(u, AdmitOne(u, c));
    }
  }

  /** A refused item took the next slot that came free. */
  ghost predicate TurnCame(u: Setup, arrivals: seq<Arrival>, r: nat, n: nat)
    requires n <= |arrivals|
  {
    exists m :: 0 <= m <= n && RefusedAt(u, arrivals, r, m)
  }

  ghost predicate Traced(u: Setup, arrivals: seq<Arrival>, n: nat, c: Coordinator)
    requires n <= |arrivals|
  {
    c.slots == c.started - Released(arrivals, n) && (c.admitErr ==> TurnCame(u, arrivals, c.started, n))
  }

  lemma NoneRefused(u: Setup, arrivals: seq<Arrival>, n: nat)
    requires Valid(u, arrivals) && n <= |arrivals|
    ensures forall i :: 0 <= i < Run(u, arrivals[..n]).started ==> !u.startRefused(i)
  {
    PrefixIsValid(u, arrivals, n);
    forall i | 0 <= i < Run(u, arrivals[..n]).started ensures !u.startRefused(i) {
      RefusedNeverStarts(u, arrivals[..n], i);
    }
  }

  lemma TurnStays(u: Setup, arrivals: seq<Arrival>, r: nat, n: nat)
    requires n < |arrivals| && TurnCame(u, arrivals, r, n)
    ensures TurnCame(u, arrivals, r, n + 1)
  {
  }

  /** The admission after n arrivals: d before it, t after. */
  lemma TraceAdmission(u: Setup, arrivals: seq<Arrival>, n: nat, d: Coordinator, t: Coordinator)
    requires n <= |arrivals| && Inv(u, d) && Remembers(u, arrivals, n, t)
    requires t == if d.fatal.None? then Admit(u, d) else d
    requires forall i :: 0 <= i < t.started ==> !u.startRefused(i)
    requires d.slots == d.started - Released(arrivals, n) && (d.admitErr ==> TurnCame(u, arrivals, d.started, n))
    ensures Traced(u, arrivals, n, t)
  {
    AdmitSlots(u, d);
    AdmitKeeps(u, d);
    if t.admitErr && !d.admitErr {
      assert RefusedAt(u, arrivals, t.started, n);
    }
  }

  lemma {:induction false} Traces(u: Setup, arrivals: seq<Arrival>, n: nat)
    requires Valid(u, arrivals) && n <= |arrivals|
    ensures Traced(u, arrivals, n, Run(u, arrivals[..n]))
  {
    Recalls(u, arrivals, n);
    NoneRefused(u, arrivals, n);
    if n == 0 {
      AdmitKeeps(u, Fresh(u));
      TraceAdmission(u, arrivals, 0, Fresh(u), Opened(u));
    } else {
      Traces(u, arrivals, n - 1);
      NextStep(u, arrivals, n - 1);
      TracesNext(u, arrivals, n - 1, Run(u, arrivals[..n - 1]));
    }
  }

  lemma TracesNext(u: Setup, arrivals: seq<Arrival>, n: nat, c: Coordinator)
    requires n < |arrivals| && arrivals[n].index < u.total && Shaped(u, c) && Traced(u, arrivals, n, c)
    requires Inv(u, Receive(u, c, arrivals[n]))
    requires var t := Step(u, c, arrivals[n]);
             Remembers(u, arrivals, n + 1, t) && forall i :: 0 <= i < t.started ==> !u.startRefused(i)
    ensures Traced(u, arrivals, n + 1, Step(u, c, arrivals[n]))
  {
    if c.admitErr {
      TurnStays(u, arrivals, c.started, n);
    }
    ReceiveTrace(u, c, arrivals[n]);
    TraceAdmission(u, arrivals, n + 1, Receive(u, c, arrivals[n]), Step(u, c, arrivals[n]));
  }

  lemma ReceiveTrace(u: Setup, c: Coordinator, a: Arrival)
    requires a.index < |c.status|
    ensures var d := Receive(u, c, a);
            d.started == c.started && d.admitErr == c.admitErr &&
            d.slots == c.slots - (if a.work.Suspends? then 0 else 1)
  {
  }

  /** A START was refused exactly when the first refused item got its turn. */
  lemma RefusalIff(u: Setup, arrivals: seq<Arrival>)
    requires Valid(u, arrivals)
    ensures Run(u, arrivals).admitErr <==> Refusal(u, arrivals)
  {
    assert arrivals[..|arrivals|] == arrivals;
    Traces(u, arrivals, |arrivals|);
    forall r, n | 0 <= n <= |arrivals| && RefusedAt(u, arrivals, r, n) ensures Run(u, arrivals).admitErr {
      RefusalIsMet(u, arrivals, r, n);
      RefusalStays(u, arrivals, n, |arrivals|);
    }
  }

  lemma RefusalIsMet(u: Setup, arrivals: seq<Arrival>, r: nat, n: nat)
    requires Valid(u, arrivals) && n <= |arrivals| && RefusedAt(u, arrivals, r, n)
    ensures Run(u, arrivals[..n]).admitErr
  {
    PrefixIsValid(u, arrivals, n);
    RunKeeps(u, arrivals[..n]);
    Recalls(u, arrivals, n);
    Traces(u, arrivals, n);
    NoneRefused(u, arrivals, n);
    NothingFailed(u, arrivals, n, Run(u, arrivals[..n]));
  }

  lemma NothingFailed(u: Setup, arrivals: seq<Arrival>, n: nat, c: Coordinator)
    requires n <= |arrivals| && Remembers(u, arrivals, n, c) && Undecided(u, arrivals, n) && Unfailed(u, arrivals, n)
    ensures !c.locked && c.fatal.None?
  {
  }

  lemma {:induction false} RefusalStays(u: Setup, arrivals: seq<Arrival>, m: nat, n: nat)
    requires Valid(u, arrivals) && m <= n <= |arrivals| && Run(u, arrivals[..m]).admitErr
    ensures Run(u, arrivals[..n]).admitErr
  {
    if m < n {
      RefusalStays(u, arrivals, m, n - 1);
      NextStep(u, arrivals, n - 1);
      RefusalKept(u, Run(u, arrivals[..n - 1]), arrivals[n - 1]);
    }
  }

  lemma RefusalKept(u: Setup, c: Coordinator, a: Arrival)
    requires Shaped(u, c) && a.index < u.total && Inv(u, Receive(u, c, a)) && c.admitErr
    ensures Step(u, c, a).admitErr
  {
    ReceiveTrace(u, c, a);
    AdmitSlots(u, Receive(u, c, a));
  }

  // ----- the four answers -----

  /**
    A refused START comes first, then the first failure; an undecided batch suspends if a worker did; otherwise the
    batch completes, with the verdict that decided it as its reason, or ALL_COMPLETED.
   */
  lemma AnswersIff(u: Setup, arrivals: seq<Arrival>)
    requires Valid(u, arrivals)
    ensures var out, all := Finish(Run(u, arrivals)), |arrivals|;
            (out.StartRefused? <==> Refusal(u, arrivals)) &&
            (out.BatchFailed? <==> !Refusal(u, arrivals) && !Unfailed(u, arrivals, all)) &&
            (out.Suspended? <==> !Refusal(u, arrivals) && Unfailed(u, arrivals, all) && Undecided(u, arrivals, all) &&
                                 SomeSuspended(arrivals, all)) &&
            (out.BatchFailed? ==> FailedWith(u, arrivals, all, out.error)) &&
            (out.Completed? ==> if Undecided(u, arrivals, all) then out.reason == AllCompleted
                                else DecidedFor(u, arrivals, all, out.reason))
  {
    assert arrivals[..|arrivals|] == arrivals;
    Recalls(u, arrivals, |arrivals|);
    RefusalIff(u, arrivals);
  }

  // ----- threshold policies -----

  /** The policy decides the batch at the a-th outcome, in arrival order, and at none before. */
  ghost predicate FiresFirst(u: Setup, terms: seq<Arrival>, a: int)
    requires u.policy.Threshold?
  {
    0 < a <= |terms| && Verdicts(u.policy, terms[..a], u.total).Stop? &&
    forall k :: 0 < k < a ==> Verdicts(u.policy, terms[..k], u.total).GoOn?
  }

  ghost predicate NeverFires(u: Setup, terms: seq<Arrival>)
    requires u.policy.Threshold?
  {
    forall a :: 0 < a <= |terms| ==> Verdicts(u.policy, terms[..a], u.total).GoOn?
  }

  ghost predicate FirstBreak(arrivals: seq<Arrival>, k: int) {
    0 <= k < |arrivals| && arrivals[k].work.Breaks? && forall j :: 0 <= j < k ==> !arrivals[j].work.Breaks?
  }

  lemma ThresholdNeverBreaks(u: Setup, arrivals: seq<Arrival>, k: nat, e: Fatal)
    requires u.policy.Threshold? && k < |arrivals|
    ensures Fails(u, arrivals, k, e) <==> arrivals[k].work.Breaks? && e == WorkerError(arrivals[k].work.error)
  {
  }

  lemma DecidedIffFires(u: Setup, arrivals: seq<Arrival>)
    requires u.policy.Threshold? && Valid(u, arrivals)
    ensures Undecided(u, arrivals, |arrivals|) <==> NeverFires(u, Terminals(arrivals))
    ensures forall reason :: DecidedFor(u, arrivals, |arrivals|, reason) ==>
              exists a :: FiresFirst(u, Terminals(arrivals), a) &&
                          Verdicts(u.policy, Terminals(arrivals)[..a], u.total) == Stop(reason)
  {
    var c, terms := Run(u, arrivals), Terminals(arrivals);
    assert arrivals[..|arrivals|] == arrivals && terms[..|terms|] == terms;
    Recalls(u, arrivals, |arrivals|);
    DecisionKnown(u, arrivals, |arrivals|, c.locked, c.reason);
    ReasonIsFold(u, arrivals);
    var a := |c.accepted|;
    if c.locked {
      assert FiresFirst(u, terms, a) && Verdicts(u.policy, terms[..a], u.total) == Stop(c.reason);
      forall reason | DecidedFor(u, arrivals, |arrivals|, reason) ensures reason == c.reason {
        OneDecision(u, arrivals, |arrivals|, reason, c.reason);
      }
    } else {
      forall k | 0 < k <= |terms| ensures Verdicts(u.policy, terms[..k], u.total).GoOn? {
      }
    }
  }

  lemma OneDecision(u: Setup, arrivals: seq<Arrival>, n: nat, r: Reason, q: Reason)
    requires n <= |arrivals| && DecidedFor(u, arrivals, n, r) && DecidedFor(u, arrivals, n, q)
    ensures r == q
  {
    var j :| DecidedAt(u, arrivals, n, j) && Judge(u.policy, Shown(u, arrivals, j)) == Stop(r);
    var k :| DecidedAt(u, arrivals, n, k) && Judge(u.policy, Shown(u, arrivals, k)) == Stop(q);
    assert j == k;
  }

  /**
    Under a threshold policy the answer follows from the outcomes in arrival order: a batch without a refused START
    fails with the first worker that broke; else it suspends if the policy fires on no prefix and a worker suspended;
    else it completes, with the verdict of the shortest prefix on which the policy fires, or ALL_COMPLETED.
   */
  lemma ThresholdAnswersIff(u: Setup, arrivals: seq<Arrival>)
    requires u.policy.Threshold? && Valid(u, arrivals)
    ensures var out, terms := Finish(Run(u, arrivals)), Terminals(arrivals);
            (out.StartRefused? <==> Refusal(u, arrivals)) &&
            (out.BatchFailed? <==> !Refusal(u, arrivals) && exists k :: FirstBreak(arrivals, k)) &&
            (out.Suspended? <==> !Refusal(u, arrivals) && (forall k :: !FirstBreak(arrivals, k)) &&
                                 NeverFires(u, terms) && SomeSuspended(arrivals, |arrivals|)) &&
            (out.BatchFailed? ==>
               exists k :: FirstBreak(arrivals, k) && out.error == WorkerError(arrivals[k].work.error)) &&
            (out.Completed? ==> if NeverFires(u, terms) then out.reason == AllCompleted
                                else exists a :: FiresFirst(u, terms, a) &&
                                                 Verdicts(u.policy, terms[..a], u.total) == Stop(out.reason))
  {
    AnswersIff(u, arrivals);
    DecidedIffFires(u, arrivals);
    BreaksIffFails(u, arrivals);
  }

  lemma BreaksIffFails(u: Setup, arrivals: seq<Arrival>)
    requires u.policy.Threshold?
    ensures Unfailed(u, arrivals, |arrivals|) <==> forall k :: !FirstBreak(arrivals, k)
    ensures forall e :: FailedWith(u, arrivals, |arrivals|, e) ==>
              exists k :: FirstBreak(arrivals, k) && e == WorkerError(arrivals[k].work.error)
  {
    forall k, e | 0 <= k < |arrivals|
      ensures Fails(u, arrivals, k, e) <==> arrivals[k].work.Breaks? && e == WorkerError(arrivals[k].work.error)
    {
      ThresholdNeverBreaks(u, arrivals, k, e);
    }
    FirstOfBreaks(arrivals, |arrivals|);
    forall e | FailedWith(u, arrivals, |arrivals|, e)
      ensures exists k :: FirstBreak(arrivals, k) && e == WorkerError(arrivals[k].work.error)
    {
      var k: nat :| FailedAt(u, arrivals, |arrivals|, k, e);
      forall j | 0 <= j < k ensures !arrivals[j].work.Breaks? {
        var f := if arrivals[j].work.Breaks? then WorkerError(arrivals[j].work.error) else e;
        assert !Fails(u, arrivals, j, f);
      }
      assert FirstBreak(arrivals, k);
    }
    forall k | FirstBreak(arrivals, k) ensures !Unfailed(u, arrivals, |arrivals|) {
      assert Fails(u, arrivals, k, WorkerError(arrivals[k].work.error));
    }
  }

  lemma {:induction false} FirstOfBreaks(arrivals: seq<Arrival>, n: nat)
    requires n <= |arrivals|
    ensures (exists k :: 0 <= k < n && FirstBreak(arrivals, k)) || forall k :: 0 <= k < n ==> !arrivals[k].work.Breaks?
  {
    if n > 0 {
      FirstOfBreaks(arrivals, n - 1);
      if arrivals[n - 1].work.Breaks? && forall k :: 0 <= k < n - 1 ==> !arrivals[k].work.Breaks? {
        assert FirstBreak(arrivals, n - 1);
      }
    }
  }

  // ----- what the policy is shown -----

  /** Item i's outcome among the first n arrivals. */
  ghost predicate Reported(arrivals: seq<Arrival>, n: nat, i: nat, ok: bool)
    requires n <= |arrivals|
  {
    exists k :: 0 <= k < n && arrivals[k] == Arrival(i, Item(ok))
  }

  function Ended(ok: bool): ItemStatus {
    if ok then Succeeded else Failed
  }

  lemma {:induction false} AdmitKeepsOutcomes(u: Setup, c: Coordinator)
    requires Inv(u, c)
    ensures |Admit(u, c).status| == |c.status|
    ensures forall i, ok :: 0 <= i < |c.status| ==> (Admit(u, c).status[i] == Ended(ok) <==> c.status[i] == Ended(ok))
    decreases u.total - c.next
  {
    if MayAdmit(u, c) {
      AdmitOneOutcomes(u, c);
      AdmitOneKeeps(u, c);
      AdmitKeepsOutcomes(u, AdmitOne(u, c));
    }
  }

  lemma AdmitOneOutcomes(u: Setup, c: Coordinator)
    requires Inv(u, c) && MayAdmit(u, c)
    ensures |AdmitOne(u, c).status| == |c.status|
    ensures forall i, ok :: 0 <= i < |c.status| ==> (AdmitOne(u, c).status[i] == Ended(ok) <==>
                                                     c.status[i] == Ended(ok))
  {
    assert ItemInv(c, c.next);
  }

  /** Until the batch is decided, an item is shown as ended exactly when its outcome has arrived. */
  ghost predicate Shows(arrivals: seq<Arrival>, n: nat, status: seq<ItemStatus>)
    requires n <= |arrivals|
  {
    forall i, ok :: 0 <= i < |status| ==> ShowsItem(arrivals, n, status, i, ok)
  }

  ghost predicate ShowsItem(arrivals: seq<Arrival>, n: nat, status: seq<ItemStatus>, i: nat, ok: bool)
    requires n <= |arrivals| && i < |status|
  {
    status[i] == Ended(ok) <==> Reported(arrivals, n, i, ok)
  }

  lemma ReportedNext(arrivals: seq<Arrival>, n: nat, i: nat, ok: bool)
    requires n < |arrivals|
    ensures Reported(arrivals, n + 1, i, ok) <==> Reported(arrivals, n, i, ok) || arrivals[n] == Arrival(i, Item(ok))
  {
  }

  lemma OutcomeShown(arrivals: seq<Arrival>, n: nat, status: seq<ItemStatus>)
    requires n < |arrivals| && Shows(arrivals, n, status) && arrivals[n].work.Item?
    requires arrivals[n].index < |status| && status[arrivals[n].index].Started?
    ensures Shows(arrivals, n + 1, status[arrivals[n].index := Ended(arrivals[n].work.ok)])
  {
    var a, m := arrivals[n], n + 1;
    var after := status[a.index := Ended(a.work.ok)];
    forall i, ok | 0 <= i < |after| ensures ShowsItem(arrivals, m, after, i, ok) {
      ReportedNext(arrivals, n, i, ok);
      assert ShowsItem(arrivals, n, status, i, ok);
    }
  }

  lemma NoOutcomeShown(arrivals: seq<Arrival>, n: nat, status: seq<ItemStatus>)
    requires n < |arrivals| && Shows(arrivals, n, status) && !arrivals[n].work.Item?
    ensures Shows(arrivals, n + 1, status)
  {
    var m := n + 1;
    forall i, ok | 0 <= i < |status| ensures ShowsItem(arrivals, m, status, i, ok) {
      ReportedNext(arrivals, n, i, ok);
      assert ShowsItem(arrivals, n, status, i, ok);
    }
  }

  lemma SameOutcomes(arrivals: seq<Arrival>, n: nat, s: seq<ItemStatus>, t: seq<ItemStatus>)
    requires n <= |arrivals| && Shows(arrivals, n, s) && |s| == |t|
    requires forall i, ok :: 0 <= i < |s| ==> (t[i] == Ended(ok) <==> s[i] == Ended(ok))
    ensures Shows(arrivals, n, t)
  {
    forall i, ok | 0 <= i < |t| ensures ShowsItem(arrivals, n, t, i, ok) {
      assert ShowsItem(arrivals, n, s, i, ok);
    }
  }

  lemma {:induction false} StatusIsShown(u: Setup, arrivals: seq<Arrival>, n: nat)
    requires Valid(u, arrivals) && n <= |arrivals| && Undecided(u, arrivals, n)
    ensures Shows(arrivals, n, Run(u, arrivals[..n]).status)
  {
    if n == 0 {
      AdmitKeepsOutcomes(u, Fresh(u));
    } else {
      StatusIsShown(u, arrivals, n - 1);
      NextStep(u, arrivals, n - 1);
      Recalls(u, arrivals, n - 1);
      var c := Run(u, arrivals[..n - 1]);
      DecisionKnown(u, arrivals, n - 1, c.locked, c.reason);
      StatusNext(u, arrivals, n - 1, c);
    }
  }

  lemma StatusNext(u: Setup, arrivals: seq<Arrival>, n: nat, c: Coordinator)
    requires n < |arrivals| && Inv(u, c) && !c.locked && Shows(arrivals, n, c.status)
    requires arrivals[n].index < u.total && arrivals[n].index in c.inFlight && Inv(u, Receive(u, c, arrivals[n]))
    ensures Shows(arrivals, n + 1, Step(u, c, arrivals[n]).status)
  {
    InFlightIsStarted(u, c, arrivals[n].index);
    var d := Receive(u, c, arrivals[n]);
    if arrivals[n].work.Item? {
      OutcomeShown(arrivals, n, c.status);
    } else {
      NoOutcomeShown(arrivals, n, c.status);
    }
    AdmitKeepsOutcomes(u, d);
    SameOutcomes(arrivals, n + 1, d.status, Step(u, c, arrivals[n]).status);
  }

  /** As many items are started as there are slots, until a START is refused. */
  ghost predicate Started(u: Setup, arrivals: seq<Arrival>, n: nat, m: nat)
    requires n <= |arrivals|
  {
    m <= u.total && m <= u.concurrency + Released(arrivals, n) && (forall i :: 0 <= i < m ==> !u.startRefused(i)) &&
    (m == u.total || m == u.concurrency + Released(arrivals, n) || u.startRefused(m))
  }

  lemma StartedIs(u: Setup, arrivals: seq<Arrival>, n: nat)
    requires Valid(u, arrivals) && n <= |arrivals| && Undecided(u, arrivals, n) && Unfailed(u, arrivals, n)
    ensures Started(u, arrivals, n, Run(u, arrivals[..n]).started)
  {
    var c := Run(u, arrivals[..n]);
    PrefixIsValid(u, arrivals, n);
    RunKeeps(u, arrivals[..n]);
    Recalls(u, arrivals, n);
    Traces(u, arrivals, n);
    NoneRefused(u, arrivals, n);
    NothingFailed(u, arrivals, n, c);
  }

  /**
    Before anything decided or failed the batch, the policy is shown every outcome that arrived, the one just received
    included, as STARTED the other items that have had a slot, and the rest as not started.
   */
  lemma ShownIs(u: Setup, arrivals: seq<Arrival>, k: nat, i: nat, m: nat, ok: bool)
    requires Valid(u, arrivals) && k < |arrivals| && arrivals[k].work.Item? && i < u.total
    requires Undecided(u, arrivals, k) && Unfailed(u, arrivals, k) && Started(u, arrivals, k, m)
    ensures arrivals[k].index < u.total && |Shown(u, arrivals, k)| == u.total
    ensures Shown(u, arrivals, k)[i] == Ended(ok) <==> Reported(arrivals, k + 1, i, ok)
    ensures Shown(u, arrivals, k)[i].NotStarted? <==> i >= m
  {
    NextStep(u, arrivals, k);
    var c := Run(u, arrivals[..k]);
    StartedIs(u, arrivals, k);
    assert c.started == m;
    StatusIsShown(u, arrivals, k);
    InFlightIsStarted(u, c, arrivals[k].index);
    OutcomeShown(arrivals, k, c.status);
    assert ShowsItem(arrivals, k + 1, Shown(u, arrivals, k), i, ok);
    assert ItemInv(c, i) && ItemInv(c, arrivals[k].index);
  }
}
