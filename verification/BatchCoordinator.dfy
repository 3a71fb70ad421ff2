/**
  The coordinator of a concurrent batch: bounded admission in index order, outcomes that race, and the
  completion decision that stops both.

  A worker reports once, in any order, so a run is the sequence of its arrivals.
 */
module BatchCoordinator {
  import opened BatchPolicy

  /** What a worker reports: its item ended, it suspended or was abandoned, or it failed the batch itself. */
  datatype Work = Item(ok: bool) | Suspends | Breaks(error: nat)

  datatype Arrival = Arrival(index: nat, work: Work)

  datatype Fatal = WorkerError(error: nat) | PolicyError

  /** startRefused(i): item i needs a START and the checkpointer refuses it. */
  datatype Setup = Setup(policy: Policy, total: nat, concurrency: nat, startRefused: nat -> bool)

  /** The coordinator's variables. `accepted` lists the accepted items in arrival order. */
  datatype Coordinator = Coordinator(next: nat, started: nat, inFlight: set<nat>, slots: int, status: seq<ItemStatus>,
                                     accepted: seq<nat>, suspended: set<nat>, locked: bool, reason: Reason,
                                     fatal: Option<Fatal>, admitErr: bool)

  datatype Report = Report(index: nat, status: ItemStatus)

  datatype Outcome =
    | Completed(items: seq<Report>, reason: Reason)
    | BatchFailed(error: Fatal)
    | StartRefused
    | Suspended

  // ----- one step at a time -----

  predicate MayAdmit(u: Setup, c: Coordinator) {
    c.next < u.total && c.slots < u.concurrency && !c.locked && !c.admitErr
  }

  function AdmitOne(u: Setup, c: Coordinator): Coordinator
    requires c.next == c.started < |c.status|
  {
    if u.startRefused(c.next) then c.(next := c.next + 1, admitErr := true)
    else c.(next := c.next + 1, started := c.started + 1, inFlight := c.inFlight + {c.next}, slots := c.slots + 1,
            status := c.status[c.next := Started])
  }

  function Admit(u: Setup, c: Coordinator): Coordinator
    requires Shaped(u, c)
    decreases u.total - c.next
  {
    if MayAdmit(u, c) then Admit(u, AdmitOne(u, c)) else c
  }

  /** What keeps admission in index order. */
  predicate Shaped(u: Setup, c: Coordinator) {
    |c.status| == u.total && c.next == c.started + (if c.admitErr then 1 else 0) && c.next <= u.total
  }

  function FirstFatal(c: Coordinator, f: Fatal): Coordinator {
    if c.fatal.None? then c.(fatal := Some(f)) else c
  }

  function Accept(u: Setup, c: Coordinator, i: nat, ok: bool): Coordinator
    requires i < |c.status|
  {
    var d := c.(status := c.status[i := if ok then Succeeded else Failed], accepted := c.accepted + [i],
                slots := c.slots - 1);
    match Judge(u.policy, d.status)
    case GoOn => d
    case Broken => FirstFatal(d, PolicyError)
    case Stop(reason) => d.(locked := true, reason := reason)
  }

  function Receive(u: Setup, c: Coordinator, a: Arrival): Coordinator
    requires a.index < |c.status|
  {
    var d := c.(inFlight := c.inFlight - {a.index});
    match a.work
    case Suspends => d.(suspended := d.suspended + {a.index})
    case Breaks(error) => FirstFatal(d.(slots := d.slots - 1), WorkerError(error))
    case Item(ok) => if c.locked then d.(slots := d.slots - 1) else Accept(u, d, a.index, ok)
  }

  function Step(u: Setup, c: Coordinator, a: Arrival): Coordinator
    requires Shaped(u, c) && a.index < u.total
  {
    var d := Receive(u, c, a);
    if d.fatal.None? then Admit(u, d) else d
  }

  function Fresh(u: Setup): Coordinator {
    Coordinator(0, 0, {}, 0, seq(u.total, _ => NotStarted), [], {}, false, AllCompleted, None, false)
  }

  function Opened(u: Setup): Coordinator {
    Admit(u, Fresh(u))
  }

  /** The items in input order: accepted ones with their outcome, abandoned ones as STARTED, the rest omitted. */
  function Assemble(c: Coordinator, i: nat): seq<Report>
    requires i <= |c.status|
    decreases |c.status| - i
  {
    if i == |c.status| then []
    else if i in c.accepted then [Report(i, c.status[i])] + Assemble(c, i + 1)
    else if i < c.started then [Report(i, Started)] + Assemble(c, i + 1)
    else Assemble(c, i + 1)
  }

  function Finish(c: Coordinator): Outcome {
    if c.admitErr then StartRefused
    else if c.fatal.Some? then BatchFailed(c.fatal.value)
    else if !c.locked && c.suspended != {} then Suspended
    else Completed(Assemble(c, 0), c.reason)
  }

  // ----- runs -----

  lemma {:induction false} AdmitShape(u: Setup, c: Coordinator)
    requires Shaped(u, c)
    ensures Shaped(u, Admit(u, c))
    decreases u.total - c.next
  {
    if MayAdmit(u, c) {
      AdmitShape(u, AdmitOne(u, c));
    }
  }

  lemma StepShape(u: Setup, c: Coordinator, a: Arrival)
    requires Shaped(u, c) && a.index < u.total
    ensures Shaped(u, Receive(u, c, a)) && Shaped(u, Step(u, c, a))
  {
    if Receive(u, c, a).fatal.None? {
      AdmitShape(u, Receive(u, c, a));
    }
  }

  function Run(u: Setup, arrivals: seq<Arrival>): (c: Coordinator)
    ensures Shaped(u, c)
    decreases |arrivals|
  {
    if arrivals == [] then
      AdmitShape(u, Fresh(u));
      Opened(u)
    else
      var n := |arrivals| - 1;
      var before := Run(u, arrivals[..n]);
      if arrivals[n].index < u.total then
        StepShape(u, before, arrivals[n]);
        Step(u, before, arrivals[n])
      else before
  }

  /** Each arrival comes from a worker that was in flight when it reported. */
  predicate Valid(u: Setup, arrivals: seq<Arrival>)
    decreases |arrivals|
  {
    arrivals == [] ||
    var n := |arrivals| - 1;
    Valid(u, arrivals[..n]) && arrivals[n].index in Run(u, arrivals[..n]).inFlight && arrivals[n].index < u.total
  }

  // ----- the invariant -----

  /** Slots are held by running and suspended items, and never exceed the concurrency. */
  ghost predicate SlotsInv(u: Setup, c: Coordinator) {
    c.inFlight !! c.suspended && c.slots == |c.inFlight| + |c.suspended| && c.slots <= u.concurrency &&
    (forall i :: i in c.inFlight || i in c.suspended ==> i < c.started)
  }

  /** What has become of item i. */
  ghost predicate ItemInv(c: Coordinator, i: nat)
    requires i < |c.status|
  {
    (i in c.accepted <==> c.status[i].Succeeded? || c.status[i].Failed?) &&
    (i < c.started && i !in c.accepted <==> c.status[i].Started?) &&
    (i in c.accepted ==> i < c.started && i !in c.inFlight && i !in c.suspended) &&
    (i < c.started && !c.locked && c.fatal.None? ==> i in c.inFlight || i in c.suspended || i in c.accepted)
  }

  ghost predicate Distinct(s: seq<nat>) {
    forall i, j :: 0 <= i < j < |s| ==> s[i] != s[j]
  }

  ghost predicate Inv(u: Setup, c: Coordinator) {
    Shaped(u, c) && SlotsInv(u, c) && Distinct(c.accepted) && (forall i :: i in c.accepted ==> i < u.total) &&
    (forall i: nat :: i < u.total ==> ItemInv(c, i)) &&
    (if c.locked then Judge(u.policy, c.status) == Stop(c.reason) else c.reason == AllCompleted)
  }

  lemma AdmitOneKeeps(u: Setup, c: Coordinator)
    requires Inv(u, c) && MayAdmit(u, c)
    ensures Inv(u, AdmitOne(u, c))
  {
    var d := AdmitOne(u, c);
    forall i: nat | i < u.total ensures ItemInv(d, i) {
      assert ItemInv(c, i);
    }
  }

  lemma {:induction false} AdmitKeeps(u: Setup, c: Coordinator)
    requires Inv(u, c)
    ensures Inv(u, Admit(u, c)) && !MayAdmit(u, Admit(u, c))
    ensures Admit(u, c).accepted == c.accepted && Admit(u, c).locked == c.locked && Admit(u, c).fatal == c.fatal
    ensures Admit(u, c).suspended == c.suspended && Admit(u, c).reason == c.reason
    decreases u.total - c.next
  {
    if MayAdmit(u, c) {
      AdmitOneKeeps(u, c);
      AdmitKeeps(u, AdmitOne(u, c));
    }
  }

  lemma AcceptKeeps(u: Setup, c: Coordinator, i: nat, ok: bool)
    requires Inv(u, c) && i in c.inFlight && !c.locked
    ensures i < u.total && Inv(u, Accept(u, c.(inFlight := c.inFlight - {i}), i, ok))
  {
    var d := Accept(u, c.(inFlight := c.inFlight - {i}), i, ok);
    assert ItemInv(c, i);
    forall k: nat | k < u.total ensures ItemInv(d, k) {
      assert ItemInv(c, k);
    }
    assert Distinct(d.accepted);
  }

  lemma SuspendKeeps(u: Setup, c: Coordinator, i: nat)
    requires Inv(u, c) && i in c.inFlight
    ensures Inv(u, c.(inFlight := c.inFlight - {i}, suspended := c.suspended + {i}))
  {
    var d := c.(inFlight := c.inFlight - {i}, suspended := c.suspended + {i});
    forall k: nat | k < u.total ensures ItemInv(d, k) {
      assert ItemInv(c, k);
    }
  }

  /** An item that leaves its slot without being accepted, because the batch is over. */
  lemma LeaveKeeps(u: Setup, c: Coordinator, i: nat, fatal: Option<Fatal>)
    requires Inv(u, c) && i in c.inFlight && (c.locked || fatal.Some?)
    ensures Inv(u, c.(inFlight := c.inFlight - {i}, slots := c.slots - 1, fatal := fatal))
  {
    var d := c.(inFlight := c.inFlight - {i}, slots := c.slots - 1, fatal := fatal);
    forall k: nat | k < u.total ensures ItemInv(d, k) {
      assert ItemInv(c, k);
    }
  }

  lemma ReceiveKeeps(u: Setup, c: Coordinator, a: Arrival)
    requires Inv(u, c) && a.index in c.inFlight
    ensures a.index < u.total && Inv(u, Receive(u, c, a))
  {
    InFlightWithin(u, c, a.index);
    if a.work.Suspends? {
      SuspendKeeps(u, c, a.index);
    } else if a.work.Breaks? {
      LeaveKeeps(u, c, a.index, FirstFatal(c, WorkerError(a.work.error)).fatal);
    } else if c.locked {
      LeaveKeeps(u, c, a.index, c.fatal);
    } else {
      AcceptKeeps(u, c, a.index, a.work.ok);
    }
  }

  lemma InFlightWithin(u: Setup, c: Coordinator, i: nat)
    requires Shaped(u, c) && SlotsInv(u, c) && i in c.inFlight
    ensures i < u.total
  {
  }

  lemma {:induction false} RunKeeps(u: Setup, arrivals: seq<Arrival>)
    requires Valid(u, arrivals)
    ensures Inv(u, Run(u, arrivals))
    ensures Run(u, arrivals).fatal.None? ==> !MayAdmit(u, Run(u, arrivals))
    decreases |arrivals|
  {
    if arrivals == [] {
      AdmitKeeps(u, Fresh(u));
    } else {
      var n := |arrivals| - 1;
      RunKeeps(u, arrivals[..n]);
      ReceiveKeeps(u, Run(u, arrivals[..n]), arrivals[n]);
      AdmitKeeps(u, Receive(u, Run(u, arrivals[..n]), arrivals[n]));
    }
  }
}
