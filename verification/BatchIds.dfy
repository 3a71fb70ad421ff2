/** Operation IDs of a batch: which ones its items take, and where the enclosing counter stands afterwards. */
module BatchIds {
  import opened BatchPolicy
  import opened BatchCoordinator
  import opened BatchTheorems
  import opened Ids

  datatype Nesting = Normal | Flat

  function FlatItemId(batch: Id, index: nat): Id {
    batch + [index + 1]
  }

  /** batchItemIDs, for a batch that took position `base` of the context `prefix`. */
  function ItemId(prefix: Id, base: nat, nesting: Nesting, index: nat): Id {
    if nesting.Flat? then FlatItemId(prefix + [base], index) else prefix + [base + 1 + index]
  }

  function ReplayAdvance(nesting: Nesting, concurrency: nat, total: nat, startedItems: nat): nat {
    if nesting.Flat? || startedItems == 0 then 0
    else if concurrency == 1 then startedItems
    else total
  }

  /** How many items the sequential path claims before it ends. */
  function SequentialClaims(u: Setup, work: nat -> Work, i: nat, status: seq<ItemStatus>): (n: nat)
    requires i <= u.total == |status|
    ensures n <= u.total - i
    decreases u.total - i
  {
    if i == u.total then 0
    else if u.startRefused(i) || !work(i).Item? then 1
    else
      var s := if work(i).ok then Succeeded else Failed;
      1 + if Judge(u.policy, status[i := s]).GoOn? then SequentialClaims(u, work, i + 1, status[i := s]) else 0
  }

  /** How many IDs a live run takes from the enclosing context, beyond the batch's own. */
  function LiveClaims(u: Setup, nesting: Nesting, work: nat -> Work): nat {
    if nesting.Flat? || !JudgeInitially(u.policy, u.total).GoOn? then 0
    else if u.concurrency == 1 then SequentialClaims(u, work, 0, seq(u.total, _ => NotStarted))
    else u.total
  }

  /** The IDs the items get on the calling goroutine, n of them, in index order. */
  method ClaimItems(ids: OpIds, nesting: Nesting, n: nat) returns (claimed: seq<Id>)
    requires ids.counter > 0
    modifies ids
    ensures ids.counter == old(ids.counter) + (if nesting.Flat? then 0 else n)
    ensures |claimed| == n
    ensures forall i :: 0 <= i < n ==> claimed[i] == ItemId(ids.prefix, old(ids.counter), nesting, i)
  {
    claimed := [];
    var batch := ids.prefix + [ids.counter];
    while |claimed| < n
      invariant |claimed| <= n
      invariant ids.counter == old(ids.counter) + (if nesting.Flat? then 0 else |claimed|)
      invariant forall i :: 0 <= i < |claimed| ==> claimed[i] == ItemId(ids.prefix, old(ids.counter), nesting, i)
    {
      var id: Id;
      if nesting.Flat? {
        id := FlatItemId(batch, |claimed|);
      } else {
        id := ids.Next();
      }
      claimed := claimed + [id];
    }
  }

  /** Distinct items have distinct IDs, none is the batch's own, and operations after the batch get fresh ones. */
  lemma ItemIdsAreDistinct(prefix: Id, base: nat, nesting: Nesting, i: nat, j: nat, claimed: nat, after: nat)
    requires nesting.Normal? ==> i < claimed
    ensures Render(ItemId(prefix, base, nesting, i)) == Render(ItemId(prefix, base, nesting, j)) ==> i == j
    ensures Render(ItemId(prefix, base, nesting, i)) != Render(prefix + [base])
    ensures after > base + claimed ==> Render(ItemId(prefix, base, nesting, i)) != Render(prefix + [after])
  {
    var a, b := ItemId(prefix, base, nesting, i), ItemId(prefix, base, nesting, j);
    if Render(a) == Render(b) {
      RenderInjective(a, b);
      assert a[|a| - 1] == b[|b| - 1];
    }
    RenderSeparates(a, prefix + [base]);
    RenderSeparates(a, prefix + [after]);
  }

  /** A NORMAL item's text continues the enclosing numbering; a FLAT item's is numbered beneath the batch's. */
  lemma ItemIdTexts(prefix: Id, base: nat, i: nat)
    ensures Render(ItemId(prefix, base, Flat, i)) == Render(prefix + [base]) + "-" + Itoa(i + 1)
    ensures Render(ItemId(prefix, base, Normal, i)) ==
            if prefix == [] then Itoa(base + 1 + i) else Render(prefix) + "-" + Itoa(base + 1 + i)
  {
    var batch, n := prefix + [base], base + 1 + i;
    assert (batch + [i + 1])[..|batch|] == batch && (prefix + [n])[..|prefix|] == prefix;
    assert batch[..|prefix|] == prefix && batch[|batch| - 1] == base;
    if prefix != [] {
      assert Render(prefix) == Format(Render(prefix[..|prefix| - 1]), prefix[|prefix| - 1]);
    }
  }

  lemma RenderSeparates(a: Id, b: Id)
    requires a != [] && b != []
    ensures |a| != |b| || a[|a| - 1] != b[|b| - 1] ==> Render(a) != Render(b)
  {
    if Render(a) == Render(b) {
      RenderInjective(a, b);
    }
  }

  lemma {:induction false} SequentialClaimsItems(u: Setup, work: nat -> Work, i: nat, status: seq<ItemStatus>,
                                                 items: seq<Report>)
    requires i <= u.total == |status| && Sequential(u, work, i, status, items).Completed?
    ensures |Sequential(u, work, i, status, items).items| == |items| + SequentialClaims(u, work, i, status)
    decreases u.total - i
  {
    if i < u.total {
      var s := if work(i).ok then Succeeded else Failed;
      if Judge(u.policy, status[i := s]).GoOn? {
        SequentialClaimsItems(u, work, i + 1, status[i := s], items + [Report(i, s)]);
      }
    }
  }

  /** A loop that claimed n IDs and did not complete was ended by the item that took the last of them. */
  lemma {:induction false} LastClaimEnds(u: Setup, work: nat -> Work, i: nat, status: seq<ItemStatus>,
                                         items: seq<Report>)
    requires i <= u.total == |status|
    ensures var out, n := Sequential(u, work, i, status, items), i + SequentialClaims(u, work, i, status);
            (out.StartRefused? ==> n > i && u.startRefused(n - 1)) &&
            (out.Suspended? ==> n > i && !u.startRefused(n - 1) && work(n - 1).Suspends?) &&
            (out.BatchFailed? && out.error.WorkerError? ==> n > i && work(n - 1) == Breaks(out.error.error))
    decreases u.total - i
  {
    if i < u.total && !u.startRefused(i) && work(i).Item? {
      var s := if work(i).ok then Succeeded else Failed;
      if Judge(u.policy, status[i := s]).GoOn? {
        LastClaimEnds(u, work, i + 1, status[i := s], items + [Report(i, s)]);
      }
    }
  }

  lemma {:induction false} AdmitNeverShrinks(u: Setup, c: Coordinator)
    requires Shaped(u, c)
    ensures Admit(u, c).started >= c.started
    decreases u.total - c.next
  {
    if MayAdmit(u, c) {
      AdmitNeverShrinks(u, AdmitOne(u, c));
    }
  }

  lemma StepNeverShrinks(u: Setup, c: Coordinator, a: Arrival)
    requires Shaped(u, c) && a.index < u.total
    ensures Step(u, c, a).started >= c.started
  {
    StepShape(u, c, a);
    AdmitNeverShrinks(u, Receive(u, c, a));
  }

  /** A coordinator that is not refused its first START has started an item. */
  lemma {:induction false} FirstItemStarts(u: Setup, arrivals: seq<Arrival>)
    requires Valid(u, arrivals) && u.total > 0 && u.concurrency > 0
    ensures Run(u, arrivals).started > 0 || Run(u, arrivals) == Opened(u) == AdmitOne(u, Fresh(u))
    decreases |arrivals|
  {
    if arrivals == [] {
      var c := Fresh(u);
      assert Admit(u, c) == Admit(u, AdmitOne(u, c));
      AdmitNeverShrinks(u, AdmitOne(u, c));
    } else {
      var n := |arrivals| - 1;
      FirstItemStarts(u, arrivals[..n]);
      StepNeverShrinks(u, Run(u, arrivals[..n]), arrivals[n]);
    }
  }

  /** The result of a batch that ended: the initial verdict's, the sequential path's, or the coordinator's. */
  ghost predicate EndsWith(u: Setup, work: nat -> Work, arrivals: seq<Arrival>, items: seq<Report>, reason: Reason) {
    match JudgeInitially(u.policy, u.total)
    case Broken => false
    case Stop(r) => items == [] && reason == r
    case GoOn =>
      if u.concurrency == 1 then Sequential(u, work, 0, seq(u.total, _ => NotStarted), []) == Completed(items, reason)
      else Valid(u, arrivals) && Finish(Run(u, arrivals)) == Completed(items, reason)
  }

  /** Replay of the terminal batch leaves the enclosing counter where the live run left it. */
  lemma ReplayKeepsCounter(u: Setup, nesting: Nesting, work: nat -> Work, arrivals: seq<Arrival>,
                           items: seq<Report>, reason: Reason)
    requires EndsWith(u, work, arrivals, items, reason) && (u.total > 0 ==> u.concurrency > 0)
    ensures ReplayAdvance(nesting, u.concurrency, u.total, |items|) == LiveClaims(u, nesting, work)
  {
    if JudgeInitially(u.policy, u.total).GoOn? && nesting.Normal? {
      if u.concurrency == 1 {
        SequentialClaimsItems(u, work, 0, seq(u.total, _ => NotStarted), []);
      } else if u.total > 0 {
        FirstItemStarts(u, arrivals);
        AssembleReports(Run(u, arrivals), 0);
        EarlyResultReports(u, arrivals, items, reason, Report(0, NotStarted));
      }
    }
  }

  lemma ReportsWithinTotal(u: Setup, work: nat -> Work, arrivals: seq<Arrival>, items: seq<Report>, reason: Reason)
    requires EndsWith(u, work, arrivals, items, reason)
    ensures |items| <= u.total
  {
    if JudgeInitially(u.policy, u.total).GoOn? {
      if u.concurrency == 1 {
        SequentialClaimsItems(u, work, 0, seq(u.total, _ => NotStarted), []);
      } else {
        AssembleReports(Run(u, arrivals), 0);
      }
    }
  }

  /**
    A deployment that changes the concurrency between the run and its replay moves the operations after a NORMAL batch
    exactly when one of the two settings is sequential, some item started and not all did.
   */
  lemma CounterMovesIff(u: Setup, nesting: Nesting, work: nat -> Work, arrivals: seq<Arrival>, items: seq<Report>,
                        reason: Reason, deployed: nat)
    requires EndsWith(u, work, arrivals, items, reason) && (u.total > 0 ==> u.concurrency > 0)
    ensures ReplayAdvance(nesting, deployed, u.total, |items|) != LiveClaims(u, nesting, work) <==>
            nesting.Normal? && (u.concurrency == 1) != (deployed == 1) && 0 < |items| < u.total
  {
    ReplayKeepsCounter(u, nesting, work, arrivals, items, reason);
    ReportsWithinTotal(u, work, arrivals, items, reason);
  }
}
