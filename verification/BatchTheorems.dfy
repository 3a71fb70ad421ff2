/** What a batch's coordinator guarantees for every policy, concurrency and arrival order. */
module BatchTheorems {
  import opened BatchPolicy
  import opened BatchCoordinator

  // ----- admission and termination -----

  lemma {:induction false} AdmitCounts(u: Setup, c: Coordinator)
    requires Inv(u, c)
    ensures Admit(u, c).started - |Admit(u, c).inFlight| == c.started - |c.inFlight|
    decreases u.total - c.next
  {
    if MayAdmit(u, c) {
      AdmitOneKeeps(u, c);
      AdmitCounts(u, AdmitOne(u, c));
    }
  }

  lemma ReceiveCounts(u: Setup, c: Coordinator, a: Arrival)
    requires a.index in c.inFlight && a.index < |c.status|
    ensures |Receive(u, c, a).inFlight| == |c.inFlight| - 1 && Receive(u, c, a).started == c.started
  {
  }

  lemma {:induction false} ReportsOnce(u: Setup, arrivals: seq<Arrival>)
    requires Valid(u, arrivals)
    ensures |arrivals| + |Run(u, arrivals).inFlight| == Run(u, arrivals).started
    decreases |arrivals|
  {
    RunKeeps(u, arrivals);
    if arrivals == [] {
      AdmitCounts(u, Fresh(u));
    } else {
      var n := |arrivals| - 1;
      ReportsOnce(u, arrivals[..n]);
      RunKeeps(u, arrivals[..n]);
      ReceiveKeeps(u, Run(u, arrivals[..n]), arrivals[n]);
      ReceiveCounts(u, Run(u, arrivals[..n]), arrivals[n]);
      AdmitCounts(u, Receive(u, Run(u, arrivals[..n]), arrivals[n]));
    }
  }

  /** Started items are a prefix of index order, slots never exceed the concurrency, and each worker reports once. */
  lemma AdmissionIsBounded(u: Setup, arrivals: seq<Arrival>, i: nat)
    requires Valid(u, arrivals)
    ensures var c := Run(u, arrivals);
            c.slots == |c.inFlight| + |c.suspended| && c.slots <= u.concurrency &&
            |arrivals| + |c.inFlight| == c.started <= u.total &&
            (i < u.total ==> (i < c.started <==> !c.status[i].NotStarted?))
  {
    RunKeeps(u, arrivals);
    ReportsOnce(u, arrivals);
    assert i < u.total ==> ItemInv(Run(u, arrivals), i);
  }

  /** The loop ends with every item accepted unless something stopped it. */
  lemma EveryItemAccepted(u: Setup, arrivals: seq<Arrival>, i: nat)
    requires Valid(u, arrivals) && Run(u, arrivals).inFlight == {} && i < u.total && u.concurrency > 0
    ensures var c := Run(u, arrivals);
            c.locked || c.fatal.Some? || c.suspended != {} || c.admitErr || i in c.accepted
  {
    RunKeeps(u, arrivals);
    assert ItemInv(Run(u, arrivals), i);
  }

  // ----- the reason is a fold of the policy over the arrivals -----

  /** The terminal outcomes, in arrival order. */
  function Terminals(arrivals: seq<Arrival>): seq<Arrival> {
    if arrivals == [] then []
    else
      var n := |arrivals| - 1;
      Terminals(arrivals[..n]) + (if arrivals[n].work.Item? then [arrivals[n]] else [])
  }

  function Tally(terms: seq<Arrival>, ok: bool): nat {
    if terms == [] then 0
    else Tally(terms[..|terms| - 1], ok) + (if terms[|terms| - 1].work == Item(ok) then 1 else 0)
  }

  function Verdicts(p: Policy, terms: seq<Arrival>, total: nat): Verdict
    requires p.Threshold?
  {
    ThresholdVerdict(p, Tally(terms, true), Tally(terms, false), total)
  }

  ghost predicate Matches(accepted: seq<nat>, terms: seq<Arrival>) {
    |accepted| <= |terms| && forall k :: 0 <= k < |accepted| ==> accepted[k] == terms[k].index
  }

  ghost predicate Counted(status: seq<ItemStatus>, terms: seq<Arrival>) {
    Count(status, Succeeded) == Tally(terms, true) && Count(status, Failed) == Tally(terms, false)
  }

  /** The policy does not fire on any proper prefix of the first a outcomes. */
  ghost predicate SilentBefore(p: Policy, terms: seq<Arrival>, a: nat, total: nat)
    requires p.Threshold? && a <= |terms|
  {
    forall k :: 0 < k < a ==> Verdicts(p, terms[..k], total) == GoOn
  }

  /** The first a outcomes are those accepted, and the policy fires at the last of them if at all. */
  ghost predicate Folded(u: Setup, c: Coordinator, terms: seq<Arrival>)
    requires u.policy.Threshold?
  {
    var a := |c.accepted|;
    Matches(c.accepted, terms) && Counted(c.status, terms[..a]) && SilentBefore(u.policy, terms, a, u.total) &&
    if c.locked then a > 0 && Verdicts(u.policy, terms[..a], u.total) == Stop(c.reason)
    else a == |terms| && (a > 0 ==> Verdicts(u.policy, terms, u.total) == GoOn)
  }

  lemma {:induction false} AdmitKeepsCounts(u: Setup, c: Coordinator, x: ItemStatus)
    requires Inv(u, c) && (x.Succeeded? || x.Failed?)
    ensures Count(Admit(u, c).status, x) == Count(c.status, x)
    decreases u.total - c.next
  {
    if MayAdmit(u, c) {
      assert ItemInv(c, c.next);
      CountUpdate(c.status, c.next, Started, x);
      AdmitOneKeeps(u, c);
      AdmitKeepsCounts(u, AdmitOne(u, c), x);
    }
  }

  lemma AdmitKeepsFold(u: Setup, c: Coordinator, terms: seq<Arrival>)
    requires u.policy.Threshold? && Inv(u, c) && Folded(u, c, terms)
    ensures Folded(u, Admit(u, c), terms)
  {
    AdmitKeeps(u, c);
    AdmitKeepsCounts(u, c, Succeeded);
    AdmitKeepsCounts(u, c, Failed);
  }

  lemma TallyGrows(terms: seq<Arrival>, a: Arrival, ok: bool)
    ensures Tally(terms + [a], ok) == Tally(terms, ok) + (if a.work == Item(ok) then 1 else 0)
  {
    assert (terms + [a])[..|terms|] == terms;
  }

  lemma CountedGrows(status: seq<ItemStatus>, terms: seq<Arrival>, a: Arrival)
    requires a.index < |status| && status[a.index].Started? && a.work.Item? && Counted(status, terms)
    ensures Counted(status[a.index := if a.work.ok then Succeeded else Failed], terms + [a])
  {
    var s := if a.work.ok then Succeeded else Failed;
    CountUpdate(status, a.index, s, Succeeded);
    CountUpdate(status, a.index, s, Failed);
    TallyGrows(terms, a, true);
    TallyGrows(terms, a, false);
  }

  lemma PrefixesStay(terms: seq<Arrival>, a: Arrival)
    ensures (terms + [a])[..|terms|] == terms && (terms + [a])[..|terms| + 1] == terms + [a] &&
            terms[..|terms|] == terms
    ensures forall k :: 0 <= k <= |terms| ==> (terms + [a])[..k] == terms[..k]
  {
  }

  lemma AcceptKeepsFold(u: Setup, c: Coordinator, a: Arrival, terms: seq<Arrival>)
    requires u.policy.Threshold? && a.index < u.total == |c.status| && Folded(u, c, terms)
    requires !c.locked && a.work.Item? && c.status[a.index].Started?
    ensures Folded(u, Accept(u, c, a.index, a.work.ok), terms + [a])
  {
    PrefixesStay(terms, a);
    CountedGrows(c.status, terms, a);
    var d := Accept(u, c, a.index, a.work.ok);
    assert d.accepted == c.accepted + [a.index];
    assert Matches(d.accepted, terms + [a]);
    assert SilentBefore(u.policy, terms + [a], |d.accepted|, u.total);
  }

  lemma ReceiveKeepsFold(u: Setup, c: Coordinator, a: Arrival, terms: seq<Arrival>)
    requires u.policy.Threshold? && a.index < u.total == |c.status| && Folded(u, c, terms)
    requires c.status[a.index].Started?
    ensures Folded(u, Receive(u, c, a), terms + (if a.work.Item? then [a] else []))
  {
    var d := c.(inFlight := c.inFlight - {a.index});
    if a.work.Item? && !c.locked {
      AcceptKeepsFold(u, d, a, terms);
    } else if a.work.Item? {
      PrefixesStay(terms, a);
    } else {
      assert terms + [] == terms;
    }
  }

  lemma InFlightIsStarted(u: Setup, c: Coordinator, i: nat)
    requires Inv(u, c) && i in c.inFlight && i < u.total
    ensures c.status[i].Started?
  {
    assert ItemInv(c, i);
  }

  /**
    For a threshold policy the accepted outcomes are the shortest prefix, in arrival order, at which the policy
    fires, and the reason is the policy's verdict there; if no prefix fires, every outcome is accepted.
   */
  lemma {:induction false} ReasonIsFold(u: Setup, arrivals: seq<Arrival>)
    requires u.policy.Threshold? && Valid(u, arrivals)
    ensures Folded(u, Run(u, arrivals), Terminals(arrivals))
    decreases |arrivals|
  {
    if arrivals == [] {
      CountNone(Fresh(u).status, Succeeded);
      CountNone(Fresh(u).status, Failed);
      AdmitKeepsFold(u, Fresh(u), []);
    } else {
      var n := |arrivals| - 1;
      var before := Run(u, arrivals[..n]);
      ReasonIsFold(u, arrivals[..n]);
      RunKeeps(u, arrivals[..n]);
      ReceiveKeeps(u, before, arrivals[n]);
      InFlightIsStarted(u, before, arrivals[n].index);
      ReceiveKeepsFold(u, before, arrivals[n], Terminals(arrivals[..n]));
      AdmitKeepsFold(u, Receive(u, before, arrivals[n]), Terminals(arrivals));
    }
  }

  // ----- the result -----

  lemma {:induction false} AssembleReports(c: Coordinator, i: nat)
    requires i <= |c.status|
    ensures forall r :: r in Assemble(c, i) <==>
              i <= r.index < |c.status| && (r.index in c.accepted || r.index < c.started) &&
              r.status == if r.index in c.accepted then c.status[r.index] else Started
    ensures forall j, k :: 0 <= j < k < |Assemble(c, i)| ==> Assemble(c, i)[j].index < Assemble(c, i)[k].index
    ensures |Assemble(c, i)| <= |c.status| - i
    decreases |c.status| - i
  {
    if i < |c.status| {
      AssembleReports(c, i + 1);
    }
  }

  lemma {:induction false} AssembleAll(c: Coordinator, i: nat)
    requires i <= |c.status| && forall k: nat :: k < |c.status| ==> k in c.accepted
    ensures |Assemble(c, i)| == |c.status| - i
    ensures forall k :: 0 <= k < |Assemble(c, i)| ==> Assemble(c, i)[k] == Report(i + k, c.status[i + k])
    decreases |c.status| - i
  {
    if i < |c.status| {
      AssembleAll(c, i + 1);
    }
  }

  lemma NeverStopsAsCompleted(p: Policy, status: seq<ItemStatus>)
    ensures Judge(p, status) != Stop(AllCompleted)
  {
  }

  /** ALL_COMPLETED is reported only when every item is terminal and the failures are tolerated. */
  lemma AllCompletedMeansAll(u: Setup, arrivals: seq<Arrival>, items: seq<Report>)
    requires Valid(u, arrivals) && Run(u, arrivals).inFlight == {} && u.concurrency > 0
    requires Finish(Run(u, arrivals)) == Completed(items, AllCompleted)
    ensures |items| == u.total
    ensures forall i :: 0 <= i < |items| ==>
              items[i].index == i && (items[i].status.Succeeded? || items[i].status.Failed?)
    ensures u.policy.Threshold? && u.total > 0 ==>
              !Intolerable(u.policy, Tally(Terminals(arrivals), false), u.total)
  {
    var c := Run(u, arrivals);
    RunKeeps(u, arrivals);
    NeverStopsAsCompleted(u.policy, c.status);
    forall i: nat | i < u.total ensures i in c.accepted && (c.status[i].Succeeded? || c.status[i].Failed?) {
      EveryItemAccepted(u, arrivals, i);
      assert ItemInv(c, i);
    }
    AssembleAll(c, 0);
    if u.policy.Threshold? && u.total > 0 {
      ReasonIsFold(u, arrivals);
      assert 0 in c.accepted;
    }
  }

  /** Every item of the result is either accepted with its own outcome, or abandoned and reported STARTED. */
  lemma EarlyResultReports(u: Setup, arrivals: seq<Arrival>, items: seq<Report>, reason: Reason, r: Report)
    requires Valid(u, arrivals) && Finish(Run(u, arrivals)) == Completed(items, reason)
    ensures r in items ==>
              r.index < Run(u, arrivals).started && r.status == Run(u, arrivals).status[r.index] &&
              (r.status.Started? <==> r.index !in Run(u, arrivals).accepted)
    ensures r.index < Run(u, arrivals).started ==> exists q :: q in items && q.index == r.index
    ensures reason != AllCompleted ==> Judge(u.policy, Run(u, arrivals).status) == Stop(reason)
  {
    var c := Run(u, arrivals);
    RunKeeps(u, arrivals);
    AssembleReports(c, 0);
    if r.index < c.started {
      assert ItemInv(c, r.index);
      assert Report(r.index, c.status[r.index]) in items;
    }
    if r in items {
      assert ItemInv(c, r.index);
    }
  }

  // ----- the sequential path -----

  /** Items run one after the other; work(i) is what item i's function does. */
  function Sequential(u: Setup, work: nat -> Work, i: nat, status: seq<ItemStatus>, items: seq<Report>): Outcome
    requires i <= u.total == |status|
    decreases u.total - i
  {
    if i == u.total then Completed(items, AllCompleted)
    else if u.startRefused(i) then StartRefused
    else match work(i)
    case Suspends => Suspended
    case Breaks(error) => BatchFailed(WorkerError(error))
    case Item(ok) =>
      var s := if ok then Succeeded else Failed;
      match Judge(u.policy, status[i := s])
      case Broken => BatchFailed(PolicyError)
      case Stop(reason) => Completed(items + [Report(i, s)], reason)
      case GoOn => Sequential(u, work, i + 1, status[i := s], items + [Report(i, s)])
  }
}
