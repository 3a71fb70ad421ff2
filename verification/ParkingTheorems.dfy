/** What every run of the suspension signal guarantees. */
module ParkingTheorems {
  import opened Parking
  import opened ParkingRuns
  import opened ParkingSafety

  ghost predicate Run(world: World, states: seq<State>, actions: seq<Action>) {
    |states| == |actions| + 1 && states[0] == Init() &&
    forall i :: 0 <= i < |actions| ==>
      Enabled(states[i], actions[i]) && states[i + 1] == Do(world, states[i], actions[i])
  }

  lemma {:induction false} RunInv(world: World, states: seq<State>, actions: seq<Action>, n: nat)
    requires Run(world, states, actions) && n < |states|
    ensures Inv(world, states[n])
  {
    if n == 0 {
      InitInv(world);
    } else {
      RunInv(world, states, actions, n - 1);
      ActionKeeps(world, states[n - 1], actions[n - 1]);
    }
  }

  /** A record ends the wait for its operation: it is terminal, or an attempt is due and that suffices. */
  ghost predicate EndsWait(world: World, op: nat, st: Status) {
    st == Terminal || (st == AttemptDue && world.dueSuffices(op))
  }

  /**
    parked is the number of unwoken waiters and parked parkers, no parker is parked with an unreceived signal, and
    every watch has an unwoken waiter.
   */
  lemma ParkedIsExact(world: World, states: seq<State>, actions: seq<Action>, n: nat)
    requires Run(world, states, actions) && n < |states|
    ensures var g := states[n].signal;
            g.parked == |set w | 0 <= w < |g.waiters| && !g.waiters[w].woken| + |ParkedParkers(g.parkers)| &&
            (forall p :: 0 <= p < |g.parkers| && g.parkers[p].pending > 0 ==> !g.parkers[p].parked) &&
            (forall op :: op in g.watches ==> exists w :: w in g.watches[op].waiters && WaitsOn(g, w, op))
  {
    RunInv(world, states, actions, n);
    var g := states[n].signal;
    assert (set w | 0 <= w < |g.waiters| && !g.waiters[w].woken) == ParkedWaiters(g);
    forall op | op in g.watches ensures exists w :: w in g.watches[op].waiters && WaitsOn(g, w, op) {
      assert g.watches[op].waiters[0] in g.watches[op].waiters;
    }
  }

  /**
    A goroutine still parked on an operation sits in its live watch; if its record is ready, a response that will
    wake it is still to be matched; if its subtree is abandoned, an enclosing batch has still to wake it; and none
    is left once the signal fires.
   */
  lemma NoLostWakeUp(world: World, states: seq<State>, actions: seq<Action>, n: nat, w: nat, op: nat)
    requires Run(world, states, actions) && n < |states| && WaitsOn(states[n].signal, w, op)
    ensures var s := states[n];
            op in s.signal.watches && w in s.signal.watches[op].waiters && !s.signal.firing &&
            (op in s.log && EndsWait(world, op, s.log[op]) ==> (op, s.log[op]) in s.response) &&
            (IsAbandoned(world, s.flags, s.signal.waiters[w].handle) ==>
               WakeComing(world, s.toWake, s.signal.waiters[w].handle.value))
  {
    RunInv(world, states, actions, n);
  }

  /** Matching the response wakes every goroutine parked on a ready operation, and waking beneath any batch wakes
      every goroutine under any abandoned one. */
  lemma WakeUpsArrive(world: World, s: State, w: nat, op: nat)
    requires Inv(world, s)
    ensures op in s.log && EndsWait(world, op, s.log[op]) ==> !WaitsOn(Do(world, s, MatchResponse).signal, w, op)
    ensures forall h :: h in s.toWake && WaitsOn(Do(world, s, WakeBeneath(h)).signal, w, op) ==>
              !IsAbandoned(world, s.flags, s.signal.waiters[w].handle)
  {
    MatchKeepsWatches(s.signal, world.dueSuffices, s.response);
    WakeAbandonedKeepsWatches(s.signal, AbandonedBy(world, s.flags));
  }

  /** A goroutine still parked on futures finds none of them settled; once the signal fires, each will be. */
  lemma FuturesWake(world: World, states: seq<State>, actions: seq<Action>, n: nat, w: nat, f: nat)
    requires Run(world, states, actions) && n < |states| && WaitsFor(states[n].signal, w, f)
    ensures var g := states[n].signal;
            f < |g.futures| && g.futures[f].outcome.None? && w in g.futures[f].waiters &&
            (g.firing ==> f in states[n].draining)
  {
    RunInv(world, states, actions, n);
  }

  // ----- once -----

  lemma {:induction false} MatchKeepsWoken(g: Signal, due: nat -> bool, ops: seq<(nat, Status)>, w: nat)
    requires w < |g.waiters| && g.waiters[w].woken
    ensures w < |g.Match(due, ops).waiters| && g.Match(due, ops).waiters[w] == g.waiters[w]
    decreases |ops|
  {
    if ops != [] {
      MatchKeepsWoken(g.MatchOne(due, ops[0].0, ops[0].1), due, ops[1..], w);
    }
  }

  /** A woken waiter is never woken again: what it was woken with stays. */
  lemma WokenStays(world: World, s: State, a: Action, w: nat)
    requires Enabled(s, a) && w < |s.signal.waiters| && s.signal.waiters[w].woken
    ensures var t := Do(world, s, a).signal;
            w < |t.waiters| && t.waiters[w].woken && t.waiters[w].suspended == s.signal.waiters[w].suspended
  {
    if a.MatchResponse? {
      MatchKeepsWoken(s.signal, world.dueSuffices, s.response, w);
    }
  }

  lemma {:induction false} WokenOnce(world: World, states: seq<State>, actions: seq<Action>, m: nat, n: nat, w: nat)
    requires Run(world, states, actions) && m <= n < |states|
    requires w < |states[m].signal.waiters| && states[m].signal.waiters[w].woken
    ensures w < |states[n].signal.waiters| && states[n].signal.waiters[w].woken
    ensures states[n].signal.waiters[w].suspended == states[m].signal.waiters[w].suspended
  {
    if m < n {
      WokenOnce(world, states, actions, m, n - 1, w);
      WokenStays(world, states[n - 1], actions[n - 1], w);
    }
  }

  lemma OutcomeStays(world: World, s: State, a: Action, f: nat)
    requires Inv(world, s) && Enabled(s, a) && f < |s.signal.futures| && s.signal.futures[f].outcome.Some?
    ensures var t := Do(world, s, a).signal;
            f < |t.futures| && t.futures[f].outcome == s.signal.futures[f].outcome
  {
    if a.MatchResponse? {
      MatchKeepsFutures(s.signal, world.dueSuffices, s.response);
    }
  }

  /** A future settles once, whether an operation or the suspension settles it. */
  lemma {:induction false} SettledOnce(world: World, states: seq<State>, actions: seq<Action>, m: nat, n: nat, f: nat)
    requires Run(world, states, actions) && m <= n < |states|
    requires f < |states[m].signal.futures| && states[m].signal.futures[f].outcome.Some?
    ensures f < |states[n].signal.futures| && states[n].signal.futures[f].outcome == states[m].signal.futures[f].outcome
  {
    if m < n {
      SettledOnce(world, states, actions, m, n - 1, f);
      RunInv(world, states, actions, n - 1);
      OutcomeStays(world, states[n - 1], actions[n - 1], f);
    }
  }

  // ----- the settle period -----

  lemma WaitersOnlyGrow(world: World, s: State, a: Action)
    requires Enabled(s, a)
    ensures |Do(world, s, a).signal.waiters| >= |s.signal.waiters|
  {
    if a.MatchResponse? {
      MatchLength(s.signal, world.dueSuffices, s.response);
    }
  }

  lemma {:induction false} MatchLength(g: Signal, due: nat -> bool, ops: seq<(nat, Status)>)
    ensures |g.Match(due, ops).waiters| == |g.waiters|
    decreases |ops|
  {
    if ops != [] {
      MatchLength(g.MatchOne(due, ops[0].0, ops[0].1), due, ops[1..]);
    }
  }

  /** One action of a run: the generation does not fall, and one that keeps it changes no condition. */
  lemma GenStep(world: World, states: seq<State>, actions: seq<Action>, k: nat)
    requires Run(world, states, actions) && k < |actions|
    ensures states[k].signal.gen <= states[k + 1].signal.gen
    ensures states[k].signal.gen == states[k + 1].signal.gen ==>
              SameConditions(states[k].signal, states[k + 1].signal) &&
              |states[k].signal.waiters| <= |states[k + 1].signal.waiters|
  {
    RunInv(world, states, actions, k);
    GenAdvances(world, states[k], actions[k]);
    WaitersOnlyGrow(world, states[k], actions[k]);
  }

  lemma {:induction false} GenNeverFalls(world: World, states: seq<State>, actions: seq<Action>, m: nat, n: nat)
    requires Run(world, states, actions) && m <= n < |states|
    ensures states[m].signal.gen <= states[n].signal.gen
  {
    if m < n {
      GenNeverFalls(world, states, actions, m, n - 1);
      GenStep(world, states, actions, n - 1);
    }
  }

  lemma SameTransitively(a: Signal, b: Signal, c: Signal)
    requires SameConditions(a, b) && SameConditions(b, c) && |a.waiters| <= |b.waiters| <= |c.waiters|
    ensures SameConditions(a, c)
  {
    assert forall w: nat :: w < |a.waiters| && a.waiters[w].parked ==> w in ParkedWaiters(a) && w in ParkedWaiters(b);
  }

  /** Equal generations at two moments mean nothing parked, woke, was watched or was detached in between. */
  lemma {:induction false} EqualGensMeanNoChange(world: World, states: seq<State>, actions: seq<Action>, m: nat,
                                                 k: nat, n: nat)
    requires Run(world, states, actions) && m <= k <= n < |states|
    requires states[m].signal.gen == states[n].signal.gen
    ensures SameConditions(states[m].signal, states[k].signal) &&
            |states[m].signal.waiters| <= |states[k].signal.waiters|
  {
    if m < k {
      EqualGensMeanNoChange(world, states, actions, m, k - 1, n);
      GenNeverFalls(world, states, actions, m, k - 1);
      GenNeverFalls(world, states, actions, k, n);
      GenStep(world, states, actions, k - 1);
      SameTransitively(states[m].signal, states[k - 1].signal, states[k].signal);
    }
  }

  lemma {:induction false} SettlingStays(world: World, states: seq<State>, actions: seq<Action>, m: nat, n: nat)
    requires Run(world, states, actions) && m < n < |states| && actions[m].BeginSettle?
    requires forall i :: m < i < n ==> !actions[i].EndSettle?
    ensures states[n].settling == Some(states[m].signal.gen)
  {
    if m + 1 < n {
      SettlingStays(world, states, actions, m, n - 1);
    }
  }

  /**
    When a settle period decides to suspend, the same branches were parked on the same operations all through it:
    unless the context ended, every active branch was parked and no span was executing at every moment.
   */
  lemma SuspensionWasStable(world: World, states: seq<State>, actions: seq<Action>, m: nat, k: nat, n: nat)
    requires Run(world, states, actions) && m <= k <= n < |actions| && m < n
    requires actions[m].BeginSettle? && actions[n].EndSettle? && forall i :: m < i < n ==> !actions[i].EndSettle?
    requires !states[n].decided && states[n + 1].decided
    ensures SameConditions(states[m].signal, states[k].signal)
    ensures states[k].signal.watches != map[]
    ensures actions[n].ended || (states[k].signal.active - states[k].signal.parked <= 0 &&
                                 states[k].signal.executing == 0)
  {
    SettlingStays(world, states, actions, m, n);
    EqualGensMeanNoChange(world, states, actions, m, k, n);
    EqualGensMeanNoChange(world, states, actions, m, n, n);
    assert states[n].signal.watches.Keys == states[k].signal.watches.Keys;
    var op :| op in states[n].signal.watches;
  }
}
