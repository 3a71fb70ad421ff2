/** What the signal remembers: of goroutines' signals, of settled futures, of watched records and of gates. */
module ParkingMemory {
  import opened Parking
  import opened ParkingRuns
  import opened ParkingSafety
  import opened ParkingTheorems

  lemma {:induction false} MatchKeeps(g: Signal, due: nat -> bool, ops: seq<(nat, Status)>)
    ensures var t := g.Match(due, ops);
            t.parkers == g.parkers && t.futures == g.futures && t.gates == g.gates &&
            t.active == g.active && t.executing == g.executing && t.firing == g.firing &&
            |t.waiters| == |g.waiters| &&
            (forall w :: 0 <= w < |g.waiters| ==> t.waiters[w].detached == g.waiters[w].detached)
    decreases |ops|
  {
    if ops != [] {
      MatchKeeps(g.MatchOne(due, ops[0].0, ops[0].1), due, ops[1..]);
    }
  }

  // ----- parkers -----

  /** The signals sent to p among the first n actions, and those received. */
  function Sent(actions: seq<Action>, n: nat, p: nat): nat
    requires n <= |actions|
  {
    if n == 0 then 0 else Sent(actions, n - 1, p) + (if actions[n - 1] == SignalParker(p) then 1 else 0)
  }

  function Taken(actions: seq<Action>, n: nat, p: nat): nat
    requires n <= |actions|
  {
    if n == 0 then 0 else Taken(actions, n - 1, p) + (if actions[n - 1] == ReceivedParker(p) then 1 else 0)
  }

  /** Goroutine p parked when it had taken every signal, and none was sent to it or taken since. */
  ghost predicate Sleeps(actions: seq<Action>, n: nat, p: nat)
    requires n <= |actions|
  {
    exists i :: 0 <= i < n && SleptSince(actions, i, n, p)
  }

  ghost predicate SleptSince(actions: seq<Action>, i: nat, n: nat, p: nat)
    requires i < n <= |actions|
  {
    actions[i] == ParkParker(p) && Sent(actions, i, p) == Taken(actions, i, p) &&
    forall j :: i < j < n ==> actions[j] != SignalParker(p) && actions[j] != ReceivedParker(p)
  }

  lemma ParkerStep(world: World, s: State, a: Action, p: nat)
    requires Enabled(s, a) && p < |Do(world, s, a).signal.parkers|
    ensures var b := Do(world, s, a).signal.parkers[p];
            if p >= |s.signal.parkers| then b == Parker(false, 0)
            else var o := s.signal.parkers[p];
              b == if a == SignalParker(p) then Parker(false, o.pending + 1)
              else if a == ReceivedParker(p) then Parker(false, o.pending - 1)
              else if a == ParkParker(p) && o.pending == 0 then Parker(true, 0) else o
  {
    if a.MatchResponse? {
      MatchKeeps(s.signal, world.dueSuffices, s.response);
    }
  }

  /** The step of ParkerStep, over a whole run. */
  ghost predicate Steps(parkers: seq<seq<Parker>>, actions: seq<Action>, p: nat) {
    |parkers| == |actions| + 1 && parkers[0] == [] &&
    forall n :: 0 <= n < |actions| ==> ParkerSteps(parkers[n], actions[n], parkers[n + 1], p)
  }

  ghost predicate ParkerSteps(before: seq<Parker>, a: Action, after: seq<Parker>, p: nat) {
    |before| <= |after| && ((a == SignalParker(p) || a == ReceivedParker(p) || a == ParkParker(p)) ==> p < |before|) &&
    (a == ReceivedParker(p) ==> p < |before| && before[p].pending > 0) &&
    (|before| <= p < |after| ==> after[p] == Parker(false, 0)) &&
    (p < |before| ==>
       after[p] == if a == SignalParker(p) then Parker(false, before[p].pending + 1)
                   else if a == ReceivedParker(p) then Parker(false, before[p].pending - 1)
                   else if a == ParkParker(p) && before[p].pending == 0 then Parker(true, 0) else before[p])
  }

  ghost predicate Counted(parkers: seq<Parker>, actions: seq<Action>, n: nat, p: nat)
    requires n <= |actions|
  {
    if p >= |parkers| then Sent(actions, n, p) == 0 && Taken(actions, n, p) == 0
    else Sent(actions, n, p) == Taken(actions, n, p) + parkers[p].pending
  }

  lemma {:induction false} StepsCount(parkers: seq<seq<Parker>>, actions: seq<Action>, n: nat, p: nat)
    requires Steps(parkers, actions, p) && n <= |actions|
    ensures Counted(parkers[n], actions, n, p)
  {
    if n > 0 {
      StepsCount(parkers, actions, n - 1, p);
      assert ParkerSteps(parkers[n - 1], actions[n - 1], parkers[n], p);
    }
  }

  lemma SleepsLonger(actions: seq<Action>, n: nat, p: nat)
    requires n < |actions|
    ensures Sleeps(actions, n + 1, p) <==>
            (actions[n] == ParkParker(p) && Sent(actions, n, p) == Taken(actions, n, p)) ||
            (Sleeps(actions, n, p) && actions[n] != SignalParker(p) && actions[n] != ReceivedParker(p))
  {
    var m := n + 1;
    if actions[n] == ParkParker(p) && Sent(actions, n, p) == Taken(actions, n, p) {
      assert SleptSince(actions, n, m, p);
    } else if Sleeps(actions, n, p) && actions[n] != SignalParker(p) && actions[n] != ReceivedParker(p) {
      var i :| 0 <= i < n && SleptSince(actions, i, n, p);
      assert SleptSince(actions, i, m, p);
    }
    if Sleeps(actions, m, p) {
      var i :| 0 <= i < m && SleptSince(actions, i, m, p);
      assert i < n ==> SleptSince(actions, i, n, p);
    }
  }

  lemma {:induction false} StepsSleep(parkers: seq<seq<Parker>>, actions: seq<Action>, n: nat, p: nat)
    requires Steps(parkers, actions, p) && n <= |actions|
    ensures Sleeps(actions, n, p) <==> p < |parkers[n]| && parkers[n][p].parked
  {
    if n > 0 {
      StepsSleep(parkers, actions, n - 1, p);
      StepsCount(parkers, actions, n - 1, p);
      SleepsLonger(actions, n - 1, p);
      assert ParkerSteps(parkers[n - 1], actions[n - 1], parkers[n], p);
    }
  }

  lemma RunSteps(world: World, states: seq<State>, actions: seq<Action>, p: nat)
    requires Run(world, states, actions)
    ensures Steps(seq(|states|, i requires 0 <= i < |states| => states[i].signal.parkers), actions, p)
  {
    var parkers := seq(|states|, i requires 0 <= i < |states| => states[i].signal.parkers);
    forall n | 0 <= n < |actions| ensures ParkerSteps(parkers[n], actions[n], parkers[n + 1], p) {
      ParkersOnlyGrow(world, states[n], actions[n]);
      if p < |parkers[n + 1]| {
        ParkerStep(world, states[n], actions[n], p);
      }
    }
  }

  lemma ParkersOnlyGrow(world: World, s: State, a: Action)
    requires Enabled(s, a)
    ensures |s.signal.parkers| <= |Do(world, s, a).signal.parkers|
  {
    if a.MatchResponse? {
      MatchKeeps(s.signal, world.dueSuffices, s.response);
    }
  }

  /**
    A worker is parked exactly when it blocked with no signal left to take and none has come since, and the signals
    it has yet to take are those sent and not taken.
   */
  lemma ParkerIsParkedIff(world: World, states: seq<State>, actions: seq<Action>, n: nat, p: nat)
    requires Run(world, states, actions) && n < |states| && p < |states[n].signal.parkers|
    ensures states[n].signal.parkers[p].parked <==> Sleeps(actions, n, p)
    ensures states[n].signal.parkers[p].pending == Sent(actions, n, p) - Taken(actions, n, p)
  {
    RunSteps(world, states, actions, p);
    var parkers := seq(|states|, i requires 0 <= i < |states| => states[i].signal.parkers);
    StepsSleep(parkers, actions, n, p);
    StepsCount(parkers, actions, n, p);
  }

  // ----- futures -----

  /** The outcome an action settles future f with: a value or error, or the suspension sentinel. */
  function Settles(s: State, a: Action, f: nat): Option<bool> {
    match a
    case SettleFuture(g) => if g == f then Some(false) else None
    case SettleDrained(g) => if g == f then Some(true) else None
    case NewFuture => if f == |s.signal.futures| && s.signal.firing then Some(true) else None
    case _ => None
  }

  function OutcomeOf(s: State, f: nat): Option<bool> {
    if f < |s.signal.futures| then s.signal.futures[f].outcome else None
  }

  lemma FutureStep(world: World, s: State, a: Action, f: nat)
    requires Enabled(s, a)
    ensures OutcomeOf(Do(world, s, a), f) == if OutcomeOf(s, f).Some? then OutcomeOf(s, f) else Settles(s, a, f)
  {
    if a.MatchResponse? {
      MatchKeeps(s.signal, world.dueSuffices, s.response);
    }
  }

  /** A future settles when an action settles it and it has not settled yet. */
  ghost predicate SettlesOnce(states: seq<State>, actions: seq<Action>, f: nat) {
    |states| == |actions| + 1 && OutcomeOf(states[0], f).None? &&
    forall n :: 0 <= n < |actions| ==>
      OutcomeOf(states[n + 1], f) ==
      if OutcomeOf(states[n], f).Some? then OutcomeOf(states[n], f) else Settles(states[n], actions[n], f)
  }

  lemma RunSettlesOnce(world: World, states: seq<State>, actions: seq<Action>, f: nat)
    requires Run(world, states, actions)
    ensures SettlesOnce(states, actions, f)
  {
    forall n | 0 <= n < |actions|
      ensures OutcomeOf(states[n + 1], f) ==
              if OutcomeOf(states[n], f).Some? then OutcomeOf(states[n], f) else Settles(states[n], actions[n], f)
    {
      FutureStep(world, states[n], actions[n], f);
    }
  }

  lemma {:induction false} Unsettled(states: seq<State>, actions: seq<Action>, n: nat, f: nat)
    requires SettlesOnce(states, actions, f) && n <= |actions|
    requires forall i :: 0 <= i < n ==> Settles(states[i], actions[i], f).None?
    ensures OutcomeOf(states[n], f).None?
  {
    if n > 0 {
      Unsettled(states, actions, n - 1, f);
    }
  }

  lemma {:induction false} StaysSettled(states: seq<State>, actions: seq<Action>, m: nat, n: nat, f: nat)
    requires SettlesOnce(states, actions, f) && m <= n <= |actions| && OutcomeOf(states[m], f).Some?
    ensures OutcomeOf(states[n], f) == OutcomeOf(states[m], f)
  {
    if m < n {
      StaysSettled(states, actions, m, n - 1, f);
    }
  }

  /**
    A future settles with what the first action to settle it gives, and not before: with the sentinel when it is
    drained by a fired signal or registered after the firing, else with its own result.
   */
  lemma FirstSettlementWins(world: World, states: seq<State>, actions: seq<Action>, i: nat, n: nat, f: nat)
    requires Run(world, states, actions) && i < |actions| && n < |states|
    requires forall j :: 0 <= j < i ==> Settles(states[j], actions[j], f).None?
    requires Settles(states[i], actions[i], f).Some?
    ensures OutcomeOf(states[n], f) == if n <= i then None else Settles(states[i], actions[i], f)
  {
    RunSettlesOnce(world, states, actions, f);
    if n <= i {
      Unsettled(states, actions, n, f);
    } else {
      Unsettled(states, actions, i, f);
      StaysSettled(states, actions, i + 1, n, f);
    }
  }

  /** A settled future lists no waiter. */
  ghost predicate SettledListsNobody(g: Signal) {
    forall f :: 0 <= f < |g.futures| && g.futures[f].outcome.Some? ==> g.futures[f].waiters == []
  }

  lemma ListsStep(world: World, s: State, a: Action)
    requires Enabled(s, a) && SettledListsNobody(s.signal)
    ensures SettledListsNobody(Do(world, s, a).signal)
  {
    if a.MatchResponse? {
      MatchKeeps(s.signal, world.dueSuffices, s.response);
    }
  }

  lemma {:induction false} SettledFuturesListNobody(world: World, states: seq<State>, actions: seq<Action>, n: nat)
    requires Run(world, states, actions) && n < |states|
    ensures SettledListsNobody(states[n].signal)
  {
    if n > 0 {
      SettledFuturesListNobody(world, states, actions, n - 1);
      ListsStep(world, states[n - 1], actions[n - 1]);
    }
  }

  lemma ListsStays(world: World, s: State, a: Action, w: nat, f: nat)
    requires Enabled(s, a) && w < |s.signal.waiters| && Lists(Do(world, s, a).signal, f, w)
    ensures Lists(s.signal, f, w)
  {
    if a.MatchResponse? {
      MatchKeeps(s.signal, world.dueSuffices, s.response);
    }
  }

  lemma NotListedAgain(world: World, s: State, a: Action, w: nat)
    requires Enabled(s, a) && w < |s.signal.waiters| && forall f :: !Lists(s.signal, f, w)
    ensures forall f :: !Lists(Do(world, s, a).signal, f, w)
  {
    forall f: nat ensures !Lists(Do(world, s, a).signal, f, w) {
      if Lists(Do(world, s, a).signal, f, w) {
        ListsStays(world, s, a, w, f);
      }
    }
  }

  /** A waiter taken off the futures is listed by none from then on; the others stay listed where they were. */
  lemma {:induction false} ForgottenForGood(world: World, states: seq<State>, actions: seq<Action>, i: nat, n: nat,
                                            w: nat)
    requires Run(world, states, actions) && i < n < |states| && actions[i] == ForgetWaiter(w)
    ensures forall f :: !Lists(states[n].signal, f, w)
    ensures forall f, v :: v != w ==> (Lists(states[i + 1].signal, f, v) <==> Lists(states[i].signal, f, v))
    ensures |states[n].signal.waiters| > w
  {
    if i + 1 < n {
      ForgottenForGood(world, states, actions, i, n - 1, w);
      NotListedAgain(world, states[n - 1], actions[n - 1], w);
      WaitersOnlyGrow(world, states[n - 1], actions[n - 1]);
    }
  }

  // ----- watches -----

  /** The status a response reports for an operation, the last one when it lists the operation again. */
  function Last(ops: seq<(nat, Status)>, op: nat): Option<Status> {
    if ops == [] then None
    else if ops[|ops| - 1].0 == op then Some(ops[|ops| - 1].1) else Last(ops[..|ops| - 1], op)
  }

  lemma {:induction false} LastOfRest(ops: seq<(nat, Status)>, op: nat)
    requires ops != []
    ensures Last(ops, op) == if Last(ops[1..], op).Some? then Last(ops[1..], op)
                             else if ops[0].0 == op then Some(ops[0].1) else None
    decreases |ops|
  {
    if |ops| > 1 {
      LastOfRest(ops[..|ops| - 1], op);
      assert ops[1..][..|ops| - 2] == ops[..|ops| - 1][1..];
    }
  }

  lemma {:induction false} MergedIs(log: map<nat, Status>, ops: seq<(nat, Status)>, op: nat)
    ensures RecordOf(MergedLog(log, ops), op) ==
            if Last(ops, op).Some? then Last(ops, op) else RecordOf(log, op)
    decreases |ops|
  {
    if ops != [] {
      MergedIs(log, ops[..|ops| - 1], op);
    }
  }

  lemma {:induction false} MatchSees(g: Signal, due: nat -> bool, ops: seq<(nat, Status)>, op: nat)
    requires op in g.Match(due, ops).watches
    ensures op in g.watches
    ensures g.Match(due, ops).watches[op].status ==
            if Last(ops, op).Some? then Last(ops, op) else g.watches[op].status
    decreases |ops|
  {
    if ops != [] {
      LastOfRest(ops, op);
      MatchSees(g.MatchOne(due, ops[0].0, ops[0].1), due, ops[1..], op);
    }
  }

  /** A watch has seen its operation's record, unless a response that reports the operation is still to be matched. */
  ghost predicate Current(s: State) {
    forall op: nat ::
      (Last(s.response, op).Some? ==> RecordOf(s.log, op) == Last(s.response, op)) &&
      (op in s.signal.watches && Last(s.response, op).None? ==> s.signal.watches[op].status == RecordOf(s.log, op))
  }

  lemma CurrentStep(world: World, s: State, a: Action)
    requires Enabled(s, a) && Current(s)
    ensures Current(Do(world, s, a))
  {
    var t := Do(world, s, a);
    forall op: nat
      ensures Last(t.response, op).Some? ==> RecordOf(t.log, op) == Last(t.response, op)
      ensures op in t.signal.watches && Last(t.response, op).None? ==>
                t.signal.watches[op].status == RecordOf(t.log, op)
    {
      CurrentFor(world, s, a, op);
    }
  }

  lemma CurrentFor(world: World, s: State, a: Action, op: nat)
    requires Enabled(s, a) && Current(s)
    ensures var t := Do(world, s, a);
            (Last(t.response, op).Some? ==> RecordOf(t.log, op) == Last(t.response, op)) &&
            (op in t.signal.watches && Last(t.response, op).None? ==>
               t.signal.watches[op].status == RecordOf(t.log, op))
  {
    if a.MatchResponse? {
      if op in Do(world, s, a).signal.watches {
        MatchSees(s.signal, world.dueSuffices, s.response, op);
      }
    } else if a.Merge? {
      MergedIs(s.log, a.ops, op);
    }
  }

  /** What a watch has observed is the record in the log, as soon as no response is left to match. */
  lemma {:induction false} WatchesAreCurrent(world: World, states: seq<State>, actions: seq<Action>, n: nat)
    requires Run(world, states, actions) && n < |states|
    ensures Current(states[n])
  {
    if n > 0 {
      WatchesAreCurrent(world, states, actions, n - 1);
      CurrentStep(world, states[n - 1], actions[n - 1]);
    }
  }

  // ----- suspension -----

  /**
    The invocation should suspend exactly when the signal has not fired, some goroutine is parked on an operation, and
    either the context ended or every active branch is parked, nothing executes and no checkpoint is in progress.
   */
  lemma SuspendsIff(world: World, states: seq<State>, actions: seq<Action>, n: nat, busy: bool, ended: bool)
    requires Run(world, states, actions) && n < |states|
    ensures var g := states[n].signal;
            var idle := |set w | 0 <= w < |g.waiters| && !g.waiters[w].woken| +
                        |set p | 0 <= p < |g.parkers| && g.parkers[p].parked|;
            g.ShouldSuspend(busy, ended) <==>
              !g.firing && (exists w: nat, op: nat :: WaitsOn(g, w, op)) &&
              (ended || (g.active <= idle && g.executing == 0 && !busy))
  {
    var g := states[n].signal;
    ParkedIsExact(world, states, actions, n);
    RunInv(world, states, actions, n);
    assert ParkedParkers(g.parkers) == set p | 0 <= p < |g.parkers| && g.parkers[p].parked;
    if op :| op in g.watches {
      var w :| w in g.watches[op].waiters && WaitsOn(g, w, op);
    }
  }

  /** A settle period that ended at action i found nothing changed and the conditions of SuspendsIff. */
  ghost predicate Concluded(states: seq<State>, actions: seq<Action>, m: nat, i: nat)
    requires m < i < |actions| <= |states|
  {
    actions[m].BeginSettle? && actions[i].EndSettle? && (forall j :: m < j < i ==> !actions[j].EndSettle?) &&
    states[m].signal.gen == states[i].signal.gen &&
    states[i].signal.ShouldSuspend(actions[i].busy, actions[i].ended)
  }

  /** The settle period that is under way began at action m. */
  ghost predicate SettlingSince(states: seq<State>, actions: seq<Action>, m: nat, n: nat)
    requires m < n <= |actions| < |states|
  {
    actions[m].BeginSettle? && (forall j :: m < j < n ==> !actions[j].EndSettle?) &&
    states[n].settling == Some(states[m].signal.gen)
  }

  lemma {:induction false} SettlingBegan(world: World, states: seq<State>, actions: seq<Action>, n: nat)
    returns (m: nat)
    requires Run(world, states, actions) && n < |states| && states[n].settling.Some?
    ensures m < n && SettlingSince(states, actions, m, n)
  {
    if actions[n - 1].BeginSettle? {
      m := n - 1;
    } else {
      SettlingKept(world, states[n - 1], actions[n - 1]);
      m := SettlingBegan(world, states, actions, n - 1);
    }
  }

  lemma SettlingKept(world: World, s: State, a: Action)
    requires Enabled(s, a) && !a.BeginSettle? && Do(world, s, a).settling.Some?
    ensures !a.EndSettle? && s.settling == Do(world, s, a).settling
  {
  }

  lemma DecisionStep(world: World, s: State, a: Action)
    requires Enabled(s, a)
    ensures Do(world, s, a).decided <==>
            s.decided || (a.EndSettle? && s.signal.ShouldSuspend(a.busy, a.ended) &&
                          s.settling == Some(s.signal.gen))
  {
  }

  ghost predicate SomeConcluded(states: seq<State>, actions: seq<Action>, n: nat)
    requires n <= |actions| < |states|
  {
    exists m: nat, i: nat :: m < i < n && Concluded(states, actions, m, i)
  }

  /**
    The invocation is to suspend exactly when some settle period has ended with the conditions holding and the
    generation it began with.
   */
  lemma {:induction false} DecidedIff(world: World, states: seq<State>, actions: seq<Action>, n: nat)
    requires Run(world, states, actions) && n < |states|
    ensures states[n].decided <==> SomeConcluded(states, actions, n)
  {
    if n > 0 {
      var i := n - 1;
      DecidedIff(world, states, actions, i);
      DecisionStep(world, states[i], actions[i]);
      if actions[i].EndSettle? {
        var m := SettlingBegan(world, states, actions, i);
        PeriodConcludes(world, states, actions, m, i);
      }
      LastConcludes(states, actions, i);
    }
  }

  /** Of the last action alone: it concludes when the period it ends does. */
  lemma PeriodConcludes(world: World, states: seq<State>, actions: seq<Action>, m: nat, i: nat)
    requires Run(world, states, actions) && m < i < |actions| && SettlingSince(states, actions, m, i)
    requires actions[i].EndSettle?
    ensures (exists b: nat :: b < i && Concluded(states, actions, b, i)) <==>
            states[i].signal.ShouldSuspend(actions[i].busy, actions[i].ended) &&
            states[i].settling == Some(states[i].signal.gen)
  {
    if b: nat :| b < i && Concluded(states, actions, b, i) {
      SettlingStays(world, states, actions, b, i);
    }
    if states[i].signal.ShouldSuspend(actions[i].busy, actions[i].ended) {
      assert states[m].signal.gen == states[i].signal.gen ==> Concluded(states, actions, m, i);
    }
  }

  lemma LastConcludes(states: seq<State>, actions: seq<Action>, i: nat)
    requires i < |actions| < |states|
    ensures SomeConcluded(states, actions, i + 1) <==>
            SomeConcluded(states, actions, i) || exists m: nat :: m < i && Concluded(states, actions, m, i)
  {
  }

  // ----- waiting -----

  /** Whoever is parked on futures waits for at least one, and holds no sentinel yet. */
  ghost predicate WaitsForSomething(g: Signal) {
    forall w :: 0 <= w < |g.waiters| ==>
      (g.waiters[w].on.OnFutures? ==> g.waiters[w].on.fs != {}) &&
      (!g.waiters[w].woken ==> !g.waiters[w].suspended)
  }

  lemma {:induction false} MatchWaits(g: Signal, due: nat -> bool, ops: seq<(nat, Status)>)
    requires WaitsForSomething(g)
    ensures WaitsForSomething(g.Match(due, ops))
    decreases |ops|
  {
    if ops != [] {
      MatchWaits(g.MatchOne(due, ops[0].0, ops[0].1), due, ops[1..]);
    }
  }

  /** Only awaiting adds a waiter; other actions wake some of those there are, or change none. */
  predicate AddsWaiter(a: Action) {
    a.Await? || a.AwaitFutures?
  }

  lemma AddedWaits(world: World, s: State, a: Action)
    requires Enabled(s, a) && AddsWaiter(a) && WaitsForSomething(s.signal)
    ensures WaitsForSomething(Do(world, s, a).signal)
  {
  }

  lemma WaitStep(world: World, s: State, a: Action)
    requires Enabled(s, a) && WaitsForSomething(s.signal)
    ensures WaitsForSomething(Do(world, s, a).signal)
  {
    if AddsWaiter(a) {
      AddedWaits(world, s, a);
    } else if a.MatchResponse? {
      MatchWaits(s.signal, world.dueSuffices, s.response);
    }
  }

  lemma {:induction false} NobodyWaitsForNothing(world: World, states: seq<State>, actions: seq<Action>, n: nat)
    requires Run(world, states, actions) && n < |states|
    ensures WaitsForSomething(states[n].signal)
  {
    if n > 0 {
      NobodyWaitsForNothing(world, states, actions, n - 1);
      WaitStep(world, states[n - 1], actions[n - 1]);
    }
  }

  /** A subtree is abandoned exactly when it lies within one whose flag is set. */
  lemma {:induction false} AbandonedIff(world: World, flags: set<nat>, h: nat)
    ensures Abandoned(world, flags, h) <==> exists k :: k in flags && Within(world, h, k)
    decreases h
  {
    var p := world.parent(h);
    if p.Some? && p.value < h {
      AbandonedIff(world, flags, p.value);
    }
  }

  // ----- gates -----

  /** The gates that list a waiter. */
  ghost predicate ListedBy(g: Signal, w: nat, gate: nat) {
    gate < |g.gates| && w in g.gates[gate].waiters
  }

  ghost predicate GatesSound(g: Signal) {
    forall gate: nat, w: nat :: ListedBy(g, w, gate) ==> w < |g.waiters| && !g.gates[gate].awaited
  }

  /** A goroutine is listed behind a gate that listed it before, or behind the one it just parked at, still closed. */
  lemma AwaitGate(world: World, s: State, a: Action, gate: nat, w: nat)
    requires Enabled(s, a) && a.Await? && ListedBy(Do(world, s, a).signal, w, gate)
    ensures ListedBy(s.signal, w, gate) || (w == |s.signal.waiters| < |Do(world, s, a).signal.waiters|)
    ensures gate < |s.signal.gates| && Do(world, s, a).signal.gates[gate].awaited == s.signal.gates[gate].awaited
    ensures !ListedBy(s.signal, w, gate) ==> !s.signal.gates[gate].awaited
  {
    var t := Do(world, s, a).signal;
    assert |t.gates| == |s.signal.gates|;
    if t.gates[gate] != s.signal.gates[gate] {
      assert a.gate == Some(gate) && !s.signal.gates[gate].awaited;
      assert t.gates[gate].waiters == s.signal.gates[gate].waiters + [|s.signal.waiters|];
    }
  }

  lemma GateStep(world: World, s: State, a: Action, gate: nat, w: nat)
    requires Enabled(s, a) && GatesSound(s.signal) && ListedBy(Do(world, s, a).signal, w, gate)
    ensures w < |Do(world, s, a).signal.waiters| && !Do(world, s, a).signal.gates[gate].awaited
  {
    WaitersOnlyGrow(world, s, a);
    if a.Await? {
      AwaitGate(world, s, a, gate, w);
    } else {
      if a.MatchResponse? {
        MatchKeeps(s.signal, world.dueSuffices, s.response);
      }
      assert ListedBy(s.signal, w, gate);
    }
  }

  lemma GatesStep(world: World, s: State, a: Action)
    requires Enabled(s, a) && GatesSound(s.signal)
    ensures GatesSound(Do(world, s, a).signal)
  {
    forall gate: nat, w: nat | ListedBy(Do(world, s, a).signal, w, gate)
      ensures w < |Do(world, s, a).signal.waiters| && !Do(world, s, a).signal.gates[gate].awaited
    {
      GateStep(world, s, a, gate, w);
    }
  }

  lemma {:induction false} RunGates(world: World, states: seq<State>, actions: seq<Action>, n: nat)
    requires Run(world, states, actions) && n < |states|
    ensures GatesSound(states[n].signal)
  {
    if n > 0 {
      RunGates(world, states, actions, n - 1);
      GatesStep(world, states[n - 1], actions[n - 1]);
    }
  }

  /** Some future gated by the gate has been awaited among the first n actions. */
  ghost predicate AwaitedBy(actions: seq<Action>, n: nat, gate: nat)
    requires n <= |actions|
  {
    exists i :: 0 <= i < n && actions[i] == MarkAwaited(gate)
  }

  lemma GateOpens(world: World, s: State, a: Action, gate: nat)
    requires Enabled(s, a) && gate < |Do(world, s, a).signal.gates|
    ensures Do(world, s, a).signal.gates[gate].awaited <==>
            a == MarkAwaited(gate) || (gate < |s.signal.gates| && s.signal.gates[gate].awaited)
  {
    if a.MatchResponse? {
      MatchKeeps(s.signal, world.dueSuffices, s.response);
    }
  }

  lemma {:induction false} GateIsAwaitedIff(world: World, states: seq<State>, actions: seq<Action>, n: nat, gate: nat)
    requires Run(world, states, actions) && n < |states|
    ensures AwaitedBy(actions, n, gate) <==> gate < |states[n].signal.gates| && states[n].signal.gates[gate].awaited
  {
    if n > 0 {
      var m := n - 1;
      GateIsAwaitedIff(world, states, actions, m, gate);
      if gate < |states[n].signal.gates| {
        GateOpens(world, states[m], actions[m], gate);
      }
      AwaitedLonger(actions, m, gate);
      GatesOnlyGrow(world, states[m], actions[m]);
    }
  }

  lemma AwaitedLonger(actions: seq<Action>, n: nat, gate: nat)
    requires n < |actions|
    ensures AwaitedBy(actions, n + 1, gate) <==> AwaitedBy(actions, n, gate) || actions[n] == MarkAwaited(gate)
  {
  }

  lemma GatesOnlyGrow(world: World, s: State, a: Action)
    requires Enabled(s, a)
    ensures |s.signal.gates| <= |Do(world, s, a).signal.gates|
  {
    if a.MatchResponse? {
      MatchKeeps(s.signal, world.dueSuffices, s.response);
    }
  }

  /** Only this gate lists the waiter, which is detached until the gate is awaited. */
  ghost predicate Behind(g: Signal, w: nat, gate: nat) {
    w < |g.waiters| && gate < |g.gates| && (forall h: nat :: ListedBy(g, w, h) ==> h == gate) &&
    (if g.gates[gate].awaited then !g.waiters[w].detached else g.waiters[w].detached && w in g.gates[gate].waiters)
  }

  /** No gate lists the waiter. */
  ghost predicate Free(g: Signal, w: nat, detached: bool) {
    w < |g.waiters| && g.waiters[w].detached == detached && forall h: nat :: !ListedBy(g, w, h)
  }

  lemma ListedStep(world: World, s: State, a: Action, w: nat, gate: nat)
    requires Enabled(s, a) && w < |s.signal.waiters| && GatesSound(s.signal)
    ensures ListedBy(Do(world, s, a).signal, w, gate) <==> ListedBy(s.signal, w, gate) && a != MarkAwaited(gate)
  {
    if a.MatchResponse? {
      MatchKeeps(s.signal, world.dueSuffices, s.response);
    }
  }

  lemma DetachedStep(world: World, s: State, a: Action, w: nat)
    requires Enabled(s, a) && w < |s.signal.waiters|
    ensures |Do(world, s, a).signal.waiters| > w
    ensures Do(world, s, a).signal.waiters[w].detached ==
            if a.MarkAwaited? && ListedBy(s.signal, w, a.g) && !s.signal.gates[a.g].awaited then false
            else s.signal.waiters[w].detached
  {
    if a.MatchResponse? {
      MatchKeeps(s.signal, world.dueSuffices, s.response);
    }
  }

  lemma BehindStep(world: World, s: State, a: Action, w: nat, gate: nat)
    requires Enabled(s, a) && Behind(s.signal, w, gate) && GatesSound(s.signal)
    ensures Behind(Do(world, s, a).signal, w, gate)
  {
    DetachedStep(world, s, a, w);
    GatesOnlyGrow(world, s, a);
    GateOpens(world, s, a, gate);
    forall h: nat ensures ListedBy(Do(world, s, a).signal, w, h) ==> h == gate {
      ListedStep(world, s, a, w, h);
    }
    ListedStep(world, s, a, w, gate);
    assert ListedBy(s.signal, w, gate) <==> w in s.signal.gates[gate].waiters;
  }

  lemma FreeStep(world: World, s: State, a: Action, w: nat, detached: bool)
    requires Enabled(s, a) && Free(s.signal, w, detached) && GatesSound(s.signal)
    ensures Free(Do(world, s, a).signal, w, detached)
  {
    DetachedStep(world, s, a, w);
    forall h: nat ensures !ListedBy(Do(world, s, a).signal, w, h) {
      ListedStep(world, s, a, w, h);
    }
  }

  lemma ParksBehind(world: World, s: State, a: Action, gate: nat)
    requires Enabled(s, a) && a.Await? && a.gate == Some(gate) && GatesSound(s.signal)
    requires |Do(world, s, a).signal.waiters| > |s.signal.waiters|
    ensures if s.signal.gates[gate].awaited then Free(Do(world, s, a).signal, |s.signal.waiters|, a.detached)
            else Behind(Do(world, s, a).signal, |s.signal.waiters|, gate)
  {
    var t, w := Do(world, s, a).signal, |s.signal.waiters|;
    forall h: nat ensures ListedBy(t, w, h) ==> h == gate && !s.signal.gates[gate].awaited {
      assert !ListedBy(s.signal, w, h);
    }
  }

  lemma BehindNext(world: World, states: seq<State>, actions: seq<Action>, n: nat, w: nat, gate: nat)
    requires Run(world, states, actions) && n < |actions| && Behind(states[n].signal, w, gate)
    ensures Behind(states[n + 1].signal, w, gate)
  {
    RunGates(world, states, actions, n);
    BehindStep(world, states[n], actions[n], w, gate);
  }

  lemma FreeNext(world: World, states: seq<State>, actions: seq<Action>, n: nat, w: nat, detached: bool)
    requires Run(world, states, actions) && n < |actions| && Free(states[n].signal, w, detached)
    ensures Free(states[n + 1].signal, w, detached)
  {
    RunGates(world, states, actions, n);
    FreeStep(world, states[n], actions[n], w, detached);
  }

  lemma {:induction false} StaysBehind(world: World, states: seq<State>, actions: seq<Action>, m: nat, n: nat, w: nat,
                                       gate: nat)
    requires Run(world, states, actions) && m <= n < |states| && Behind(states[m].signal, w, gate)
    ensures Behind(states[n].signal, w, gate)
  {
    if m < n {
      StaysBehind(world, states, actions, m, n - 1, w, gate);
      BehindNext(world, states, actions, n - 1, w, gate);
    }
  }

  lemma {:induction false} StaysFree(world: World, states: seq<State>, actions: seq<Action>, m: nat, n: nat, w: nat,
                                     detached: bool)
    requires Run(world, states, actions) && m <= n < |states| && Free(states[m].signal, w, detached)
    ensures Free(states[n].signal, w, detached)
  {
    if m < n {
      StaysFree(world, states, actions, m, n - 1, w, detached);
      FreeNext(world, states, actions, n - 1, w, detached);
    }
  }

  /**
    A goroutine that parks behind a gate is detached until the gated future is awaited, and attached from then on; one
    that parks after that is as detached as it asked to be.
   */
  lemma DetachedUntilAwaited(world: World, states: seq<State>, actions: seq<Action>, i: nat, n: nat, gate: nat)
    requires Run(world, states, actions) && i < n < |states|
    requires actions[i].Await? && actions[i].gate == Some(gate)
    requires |states[i + 1].signal.waiters| > |states[i].signal.waiters|
    ensures |states[n].signal.waiters| > |states[i].signal.waiters|
    ensures states[n].signal.waiters[|states[i].signal.waiters|].detached <==>
            if AwaitedBy(actions, i, gate) then actions[i].detached else !AwaitedBy(actions, n, gate)
  {
    var w := |states[i].signal.waiters|;
    RunGates(world, states, actions, i);
    GateIsAwaitedIff(world, states, actions, i, gate);
    GateIsAwaitedIff(world, states, actions, n, gate);
    ParksBehind(world, states[i], actions[i], gate);
    if AwaitedBy(actions, i, gate) {
      StaysFree(world, states, actions, i + 1, n, w, actions[i].detached);
    } else {
      StaysBehind(world, states, actions, i + 1, n, w, gate);
    }
  }
}
