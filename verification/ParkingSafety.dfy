/** The parking invariant holds after every critical section, so no wake-up is lost and no goroutine is miscounted. */
module ParkingSafety {
  import opened Parking
  import opened ParkingRuns

  // ----- counts -----

  lemma MatchKeepsCount(g: Signal, due: nat -> bool, ops: seq<(nat, Status)>)
    requires CountInv(g)
    ensures CountInv(g.Match(due, ops))
    decreases |ops|
  {
    if ops != [] {
      var op, st := ops[0].0, ops[0].1;
      if op in g.watches && Ready(due, op, Some(st)) {
        WokenParked(g, g.Waiting(op), false);
      }
      var t := g.MatchOne(due, op, st);
      assert ParkedWaiters(t) ==
             if op in g.watches && Ready(due, op, Some(st)) then ParkedWaiters(g.Woken(g.Waiting(op), false))
             else ParkedWaiters(g);
      MatchKeepsCount(t, due, ops[1..]);
    }
  }

  lemma ParkersKeepCount(g: Signal, p: nat, delta: int)
    requires CountInv(g) && p < |g.parkers|
    ensures CountInv(g.Park(p))
    ensures g.parkers[p].pending + delta >= 0 ==> CountInv(g.Unpark(p, delta))
  {
    ParkerCount(g.parkers, p, g.parkers[p].(parked := true));
    assert ParkedWaiters(g.Park(p)) == ParkedWaiters(g);
    if g.parkers[p].pending + delta >= 0 {
      ParkerCount(g.parkers, p, Parker(false, g.parkers[p].pending + delta));
      assert ParkedWaiters(g.Unpark(p, delta)) == ParkedWaiters(g);
    }
  }

  lemma SameCounts(g: Signal, t: Signal)
    requires CountInv(g) && t.parked == g.parked && |t.waiters| == |g.waiters|
    requires forall w :: 0 <= w < |g.waiters| ==>
               t.waiters[w].parked == g.waiters[w].parked && t.waiters[w].woken == g.waiters[w].woken
    requires t.parkers == g.parkers || t.parkers == g.parkers + [Parker(false, 0)]
    ensures CountInv(t)
  {
    assert ParkedWaiters(t) == ParkedWaiters(g);
    assert ParkedParkers(t.parkers) == ParkedParkers(g.parkers);
  }

  lemma AwaitKeepsCount(g: Signal, due: nat -> bool, op: nat, record: Option<Status>, handle: Option<nat>,
                        abandoned: bool, detached: bool, gate: Option<nat>)
    requires CountInv(g) && (gate.Some? ==> gate.value < |g.gates|)
    ensures CountInv(g.AwaitOperation(due, op, record, handle, abandoned, detached, gate).0)
  {
    var t := g.AwaitOperation(due, op, record, handle, abandoned, detached, gate).0;
    if t != g {
      var s := g.NewWaiter(OnOperation(op), handle, detached || (gate.Some? && !g.gates[gate.value].awaited));
      NewWaiterCounted(g, OnOperation(op), handle, detached || (gate.Some? && !g.gates[gate.value].awaited));
      SameCounts(s, t);
    }
  }

  lemma AwaitFuturesKeepsCount(g: Signal, fs: set<nat>)
    requires CountInv(g) && forall f :: f in fs ==> f < |g.futures|
    ensures CountInv(g.AwaitFutures(fs).0)
  {
    var t := g.AwaitFutures(fs).0;
    if t != g {
      NewWaiterCounted(g, OnFutures(fs), None, false);
      SameCounts(g.NewWaiter(OnFutures(fs), None, false), t);
    }
  }

  lemma WakingKeepsCount(g: Signal, W: set<nat>, t: Signal)
    requires CountInv(g) && t == g.Woken(W, true).(watches := t.watches, firing := t.firing)
    ensures CountInv(t)
  {
    WokenParked(g, W, true);
    SameCounts(g.Woken(W, true), t);
  }

  predicate Plain(a: Action) {
    !a.Await? && !a.MatchResponse? && !a.WakeBeneath? && !a.Fire? && !a.ParkParker? && !a.SignalParker? &&
    !a.ReceivedParker? && !a.AwaitFutures? && !a.SettleFuture? && !a.SettleDrained?
  }

  lemma PlainKeepsCount(world: World, s: State, a: Action)
    requires CountInv(s.signal) && Enabled(s, a) && Plain(a)
    ensures CountInv(Do(world, s, a).signal)
  {
    SameCounts(s.signal, Do(world, s, a).signal);
  }

  lemma CountKept(world: World, s: State, a: Action)
    requires CountInv(s.signal) && Enabled(s, a)
    ensures CountInv(Do(world, s, a).signal)
  {
    var g := s.signal;
    match a
    case Await(op, handle, detached, gate) =>
      AwaitKeepsCount(g, world.dueSuffices, op, RecordOf(s.log, op), handle, IsAbandoned(world, s.flags, handle),
                      detached, gate);
    case MatchResponse => MatchKeepsCount(g, world.dueSuffices, s.response);
    case WakeBeneath(_) =>
      WakingKeepsCount(g, g.DoomedOn(g.watches.Keys, AbandonedBy(world, s.flags)), Do(world, s, a).signal);
    case Fire => WakingKeepsCount(g, g.WaitingOn(g.watches.Keys), Do(world, s, a).signal);
    case ParkParker(p) => ParkersKeepCount(g, p, 1);
    case SignalParker(p) => ParkersKeepCount(g, p, 1);
    case ReceivedParker(p) => ParkersKeepCount(g, p, -1);
    case AwaitFutures(fs) => AwaitFuturesKeepsCount(g, fs);
    case SettleFuture(f) => SettleKeepsCount(g, f, false);
    case SettleDrained(f) => SettleKeepsCount(g, f, true);
    case _ => PlainKeepsCount(world, s, a);
  }

  lemma SettleKeepsCount(g: Signal, f: nat, suspended: bool)
    requires CountInv(g) && f < |g.futures|
    ensures CountInv(g.Settle(f, suspended))
  {
    if g.futures[f].outcome.None? {
      WokenParked(g, Members(g.futures[f].waiters), false);
      SameCounts(g.Woken(Members(g.futures[f].waiters), false), g.Settle(f, suspended));
    }
  }

  // ----- watches -----

  lemma MatchOneKeepsWatches(g: Signal, due: nat -> bool, op: nat, st: Status)
    requires WatchInv(g)
    ensures WatchInv(g.MatchOne(due, op, st))
    ensures forall w: nat, o: nat :: WaitsOn(g.MatchOne(due, op, st), w, o) ==>
              WaitsOn(g, w, o) && !(o == op && Ready(due, op, Some(st)))
    ensures |g.MatchOne(due, op, st).waiters| == |g.waiters|
    ensures forall w :: 0 <= w < |g.waiters| ==> g.MatchOne(due, op, st).waiters[w].handle == g.waiters[w].handle
  {
    var t := g.MatchOne(due, op, st);
    assert forall w: nat, o: nat :: WaitsOn(t, w, o) ==> WaitsOn(g, w, o);
    if op in g.watches && Ready(due, op, Some(st)) {
      assert forall o, w :: o in t.watches && w in t.watches[o].waiters ==> w !in g.Waiting(op);
    }
  }

  lemma {:induction false} MatchKeepsWatches(g: Signal, due: nat -> bool, ops: seq<(nat, Status)>)
    requires WatchInv(g)
    ensures WatchInv(g.Match(due, ops))
    ensures forall w: nat, o: nat :: WaitsOn(g.Match(due, ops), w, o) ==>
              WaitsOn(g, w, o) && forall st :: (o, st) in ops ==> !Ready(due, o, Some(st))
    ensures |g.Match(due, ops).waiters| == |g.waiters|
    ensures forall w :: 0 <= w < |g.waiters| ==> g.Match(due, ops).waiters[w].handle == g.waiters[w].handle
    decreases |ops|
  {
    if ops != [] {
      var t := g.MatchOne(due, ops[0].0, ops[0].1);
      MatchOneKeepsWatches(g, due, ops[0].0, ops[0].1);
      MatchKeepsWatches(t, due, ops[1..]);
      assert g.Match(due, ops) == t.Match(due, ops[1..]);
      forall w: nat, o: nat, st | WaitsOn(g.Match(due, ops), w, o) && (o, st) in ops ensures !Ready(due, o, Some(st)) {
        assert (o, st) == ops[0] || (o, st) in ops[1..];
      }
    }
  }

  lemma {:induction false} KeptWaiters(g: Signal, ws: seq<nat>, abandoned: nat -> bool, w: nat)
    ensures w in g.Kept(ws, abandoned) <==> w in ws && !g.Doomed(w, abandoned)
  {
    if ws != [] {
      KeptWaiters(g, ws[..|ws| - 1], abandoned, w);
    }
  }

  lemma WakeAbandonedKeepsWatches(g: Signal, abandoned: nat -> bool)
    requires WatchInv(g)
    ensures WatchInv(g.WakeAbandoned(abandoned))
    ensures forall w: nat, o: nat :: WaitsOn(g.WakeAbandoned(abandoned), w, o) ==>
              WaitsOn(g, w, o) && !g.Doomed(w, abandoned)
  {
    var t := g.WakeAbandoned(abandoned);
    var doomed := g.DoomedOn(g.watches.Keys, abandoned);
    forall w: nat, o: nat | WaitsOn(t, w, o)
      ensures WaitsOn(g, w, o) && !g.Doomed(w, abandoned) && o in t.watches && w in t.watches[o].waiters
    {
      assert WaitsOn(g, w, o) && w !in doomed;
      KeptWaiters(g, g.watches[o].waiters, abandoned, w);
    }
    forall o: nat, w: nat | o in t.watches && w in t.watches[o].waiters ensures WaitsOn(t, w, o) {
      KeptWaiters(g, g.watches[o].waiters, abandoned, w);
      assert WaitsOn(g, w, o) && w !in doomed;
    }
  }

  lemma FireKeepsWatches(g: Signal)
    requires WatchInv(g)
    ensures WatchInv(g.Fire())
    ensures forall w: nat, o: nat :: !WaitsOn(g.Fire(), w, o)
  {
    forall w: nat, o: nat ensures !WaitsOn(g.Fire(), w, o) {
      assert WaitsOn(g, w, o) ==> w in g.WaitingOn(g.watches.Keys);
    }
  }

  /** The operation waiters of t are those of g that are not in W, under the same handles. */
  ghost predicate FewerWaiters(g: Signal, t: Signal) {
    |t.waiters| >= |g.waiters| &&
    forall w: nat, o: nat :: WaitsOn(t, w, o) ==>
      WaitsOn(g, w, o) && t.waiters[w].handle == g.waiters[w].handle
  }

  lemma AwaitAddsWaiter(g: Signal, due: nat -> bool, op: nat, record: Option<Status>, handle: Option<nat>,
                        abandoned: bool, detached: bool, gate: Option<nat>)
    requires WatchInv(g) && (gate.Some? ==> gate.value < |g.gates|)
    ensures var t := g.AwaitOperation(due, op, record, handle, abandoned, detached, gate).0;
            WatchInv(t) && |t.waiters| >= |g.waiters| &&
            forall w: nat, o: nat :: WaitsOn(t, w, o) ==>
              if w < |g.waiters| then WaitsOn(g, w, o) && t.waiters[w].handle == g.waiters[w].handle
              else o == op && t.waiters[w].handle == handle && !abandoned && !Ready(due, op, record)
  {
    var t := g.AwaitOperation(due, op, record, handle, abandoned, detached, gate).0;
    if t != g {
      assert forall w: nat :: w < |g.waiters| ==> t.waiters[w] == g.waiters[w];
      forall w: nat, o: nat | WaitsOn(t, w, o) ensures o in t.watches && w in t.watches[o].waiters {
        if w < |g.waiters| {
          assert WaitsOn(g, w, o);
        }
      }
      forall o: nat, w: nat | o in t.watches && w in t.watches[o].waiters ensures WaitsOn(t, w, o) {
        assert w == |g.waiters| || WaitsOn(g, w, o);
      }
    }
  }

  /** Waking waiters on futures, or changing flags of waiters, leaves the operation waiters alone. */
  lemma SameWatches(g: Signal, t: Signal)
    requires WatchInv(g) && t.watches == g.watches && t.firing == g.firing && |t.waiters| >= |g.waiters|
    requires forall w: nat :: w < |g.waiters| ==>
               t.waiters[w].on == g.waiters[w].on && t.waiters[w].handle == g.waiters[w].handle
    requires forall w: nat :: w < |g.waiters| && g.waiters[w].on.OnOperation? ==>
             t.waiters[w].woken == g.waiters[w].woken
    requires forall w: nat :: |g.waiters| <= w < |t.waiters| ==> t.waiters[w].on.OnFutures?
    ensures WatchInv(t) && FewerWaiters(g, t)
  {
    assert forall w: nat, o: nat :: WaitsOn(t, w, o) <==> WaitsOn(g, w, o);
  }

  lemma SettleKeepsWatches(g: Signal, f: nat, suspended: bool)
    requires WatchInv(g) && FutureInv(g) && f < |g.futures|
    ensures WatchInv(g.Settle(f, suspended)) && FewerWaiters(g, g.Settle(f, suspended))
  {
    var t := g.Settle(f, suspended);
    assert forall w: nat :: w in Members(g.futures[f].waiters) ==> Lists(g, f, w);
    SameWatches(g, t);
  }

  predicate OffWatches(a: Action) {
    !a.Await? && !a.MatchResponse? && !a.WakeBeneath? && !a.Fire? && !a.SettleFuture? && !a.SettleDrained?
  }

  lemma OffWatchesKeeps(world: World, s: State, a: Action)
    requires WatchInv(s.signal) && Enabled(s, a) && OffWatches(a)
    ensures WatchInv(Do(world, s, a).signal) && FewerWaiters(s.signal, Do(world, s, a).signal)
  {
    SameWatches(s.signal, Do(world, s, a).signal);
  }

  lemma WatchKept(world: World, s: State, a: Action)
    requires WatchInv(s.signal) && FutureInv(s.signal) && Enabled(s, a)
    ensures WatchInv(Do(world, s, a).signal)
    ensures !a.Await? ==> FewerWaiters(s.signal, Do(world, s, a).signal)
  {
    var g := s.signal;
    match a
    case Await(op, handle, detached, gate) =>
      AwaitAddsWaiter(g, world.dueSuffices, op, RecordOf(s.log, op), handle, IsAbandoned(world, s.flags, handle),
                      detached, gate);
    case MatchResponse => MatchKeepsWatches(g, world.dueSuffices, s.response);
    case WakeBeneath(_) => WakeAbandonedKeepsWatches(g, AbandonedBy(world, s.flags));
    case Fire => FireKeepsWatches(g);
    case SettleFuture(f) => SettleKeepsWatches(g, f, false);
    case SettleDrained(f) => SettleKeepsWatches(g, f, true);
    case _ => OffWatchesKeeps(world, s, a);
  }

  // ----- no lost wake-up -----

  lemma {:induction false} MergedLogHolds(log: map<nat, Status>, ops: seq<(nat, Status)>, op: nat)
    requires op in MergedLog(log, ops)
    ensures (op, MergedLog(log, ops)[op]) in ops || (op in log && MergedLog(log, ops)[op] == log[op])
  {
    if ops != [] {
      var n := |ops| - 1;
      if op != ops[n].0 {
        MergedLogHolds(log, ops[..n], op);
      } else {
        assert ops[n] in ops;
      }
    }
  }

  lemma ReadyKept(world: World, s: State, a: Action)
    requires WatchInv(s.signal) && FutureInv(s.signal) && ReadyInv(world, s) && Enabled(s, a)
    ensures ReadyInv(world, Do(world, s, a))
  {
    var t := Do(world, s, a);
    WatchKept(world, s, a);
    forall w: nat, op: nat | WaitsOn(t.signal, w, op) && Ready(world.dueSuffices, op, RecordOf(t.log, op))
      ensures op in t.log && (op, t.log[op]) in t.response
    {
      if a.Await? {
        AwaitAddsWaiter(s.signal, world.dueSuffices, a.op, RecordOf(s.log, a.op), a.handle,
                        IsAbandoned(world, s.flags, a.handle), a.detached, a.gate);
        assert WaitsOn(s.signal, w, op);
      } else {
        assert WaitsOn(s.signal, w, op);
        if a.Merge? {
          MergedLogHolds(s.log, a.ops, op);
        } else if a.MatchResponse? {
          MatchKeepsWatches(s.signal, world.dueSuffices, s.response);
        }
      }
    }
  }

  lemma {:induction false} FlagReaches(world: World, flags: set<nat>, h: nat, x: nat)
    requires Abandoned(world, flags + {h}, x)
    ensures Abandoned(world, flags, x) || Within(world, x, h)
    decreases x
  {
    if x != h && x !in flags {
      FlagReaches(world, flags, h, world.parent(x).value);
    }
  }

  lemma AbandonKept(world: World, s: State, a: Action)
    requires WatchInv(s.signal) && FutureInv(s.signal) && AbandonInv(world, s) && Enabled(s, a)
    ensures AbandonInv(world, Do(world, s, a))
  {
    var t := Do(world, s, a);
    WatchKept(world, s, a);
    forall w: nat, op: nat
      | WaitsOn(t.signal, w, op) && IsAbandoned(world, t.flags, t.signal.waiters[w].handle)
      ensures WakeComing(world, t.toWake, t.signal.waiters[w].handle.value)
    {
      var h := t.signal.waiters[w].handle.value;
      if a.Await? {
        AwaitAddsWaiter(s.signal, world.dueSuffices, a.op, RecordOf(s.log, a.op), a.handle,
                        IsAbandoned(world, s.flags, a.handle), a.detached, a.gate);
        assert WaitsOn(s.signal, w, op);
      } else {
        assert WaitsOn(s.signal, w, op);
        if a.SetFlag? {
          FlagReaches(world, s.flags, a.batch, h);
          if !Abandoned(world, s.flags, h) {
            assert a.batch in t.toWake && Within(world, h, a.batch);
          }
        } else if a.WakeBeneath? {
          WakeAbandonedKeepsWatches(s.signal, AbandonedBy(world, s.flags));
        }
      }
    }
  }

  // ----- futures -----

  /** Futures unchanged, and no waiter on them woken or added. */
  lemma SameFutures(g: Signal, t: Signal)
    requires FutureInv(g) && |t.futures| >= |g.futures| && |t.waiters| >= |g.waiters|
    requires forall f: nat :: f < |g.futures| ==> t.futures[f] == g.futures[f]
    requires forall f: nat :: |g.futures| <= f < |t.futures| ==> t.futures[f].waiters == []
    requires forall w: nat :: w < |g.waiters| ==>
               t.waiters[w].on == g.waiters[w].on && (g.waiters[w].woken ==> t.waiters[w].woken)
    requires forall w: nat :: |g.waiters| <= w < |t.waiters| ==> t.waiters[w].on.OnOperation?
    ensures FutureInv(t)
  {
    forall w: nat, f: nat | WaitsFor(t, w, f) ensures Lists(t, f, w) && t.futures[f].outcome.None? {
      assert WaitsFor(g, w, f);
    }
    forall f: nat, w: nat | Lists(t, f, w) ensures w < |t.waiters| && t.waiters[w].on.OnFutures? {
      assert Lists(g, f, w);
    }
  }

  lemma SettleKeepsFutures(g: Signal, f: nat, suspended: bool)
    requires FutureInv(g) && f < |g.futures|
    ensures FutureInv(g.Settle(f, suspended))
  {
    var t := g.Settle(f, suspended);
    forall w: nat, k: nat | WaitsFor(t, w, k) ensures Lists(t, k, w) && t.futures[k].outcome.None? {
      assert WaitsFor(g, w, k);
      assert Lists(g, k, w);
    }
    forall k: nat, w: nat | Lists(t, k, w) ensures w < |t.waiters| && t.waiters[w].on.OnFutures? {
      assert Lists(g, k, w);
    }
  }

  lemma AwaitFuturesKeepsFutures(g: Signal, fs: set<nat>)
    requires FutureInv(g) && forall f :: f in fs ==> f < |g.futures|
    ensures FutureInv(g.AwaitFutures(fs).0)
  {
    var t := g.AwaitFutures(fs).0;
    forall w: nat, k: nat | WaitsFor(t, w, k) ensures Lists(t, k, w) && t.futures[k].outcome.None? {
      if w < |g.waiters| {
        assert WaitsFor(g, w, k);
        assert Lists(g, k, w);
      }
    }
    forall k: nat, w: nat | Lists(t, k, w) ensures w < |t.waiters| && t.waiters[w].on.OnFutures? {
      assert w == |g.waiters| || Lists(g, k, w);
    }
  }

  lemma ForgetKeepsFutures(g: Signal, w: nat)
    requires FutureInv(g) && w < |g.waiters| && g.waiters[w].woken
    ensures FutureInv(g.Forget(w))
  {
    var t := g.Forget(w);
    forall v: nat, k: nat | WaitsFor(t, v, k) ensures Lists(t, k, v) && t.futures[k].outcome.None? {
      assert WaitsFor(g, v, k);
      assert Lists(g, k, v);
    }
    forall k: nat, v: nat | Lists(t, k, v) ensures v < |t.waiters| && t.waiters[v].on.OnFutures? {
      assert Lists(g, k, v);
    }
  }

  lemma {:induction false} MatchKeepsFutures(g: Signal, due: nat -> bool, ops: seq<(nat, Status)>)
    requires FutureInv(g)
    ensures FutureInv(g.Match(due, ops)) && g.Match(due, ops).futures == g.futures &&
            g.Match(due, ops).firing == g.firing
    decreases |ops|
  {
    if ops != [] {
      SameFutures(g, g.MatchOne(due, ops[0].0, ops[0].1));
      MatchKeepsFutures(g.MatchOne(due, ops[0].0, ops[0].1), due, ops[1..]);
    }
  }

  lemma AwaitKeepsFutures(g: Signal, due: nat -> bool, op: nat, record: Option<Status>, handle: Option<nat>,
                          abandoned: bool, detached: bool, gate: Option<nat>)
    requires FutureInv(g) && (gate.Some? ==> gate.value < |g.gates|)
    ensures FutureInv(g.AwaitOperation(due, op, record, handle, abandoned, detached, gate).0)
  {
    SameFutures(g, g.AwaitOperation(due, op, record, handle, abandoned, detached, gate).0);
  }

  lemma WakingKeepsFutures(g: Signal, abandoned: nat -> bool)
    requires FutureInv(g)
    ensures FutureInv(g.WakeAbandoned(abandoned)) && FutureInv(g.Fire())
  {
    SameFutures(g, g.WakeAbandoned(abandoned));
    SameFutures(g, g.Fire());
  }

  lemma MarkAwaitedKeepsFutures(g: Signal, gate: nat)
    requires FutureInv(g) && gate < |g.gates|
    ensures FutureInv(g.MarkAwaited(gate))
  {
    SameFutures(g, g.MarkAwaited(gate));
  }

  predicate WakesNobody(a: Action) {
    OffWatches(a) && !a.AwaitFutures? && !a.ForgetWaiter? && !a.MarkAwaited?
  }

  lemma WakesNobodyKeepsFutures(world: World, s: State, a: Action)
    requires FutureInv(s.signal) && Enabled(s, a) && WakesNobody(a)
    ensures FutureInv(Do(world, s, a).signal)
  {
    assert Do(world, s, a).signal.waiters == s.signal.waiters;
    SameFutures(s.signal, Do(world, s, a).signal);
  }

  lemma FutureKept(world: World, s: State, a: Action)
    requires FutureInv(s.signal) && Enabled(s, a)
    ensures FutureInv(Do(world, s, a).signal)
  {
    var g := s.signal;
    match a
    case Await(op, handle, detached, gate) =>
      AwaitKeepsFutures(g, world.dueSuffices, op, RecordOf(s.log, op), handle, IsAbandoned(world, s.flags, handle),
                        detached, gate);
    case MatchResponse => MatchKeepsFutures(g, world.dueSuffices, s.response);
    case WakeBeneath(_) => WakingKeepsFutures(g, AbandonedBy(world, s.flags));
    case Fire => WakingKeepsFutures(g, AbandonedBy(world, s.flags));
    case AwaitFutures(fs) => AwaitFuturesKeepsFutures(g, fs);
    case SettleFuture(f) => SettleKeepsFutures(g, f, false);
    case SettleDrained(f) => SettleKeepsFutures(g, f, true);
    case ForgetWaiter(w) => ForgetKeepsFutures(g, w);
    case MarkAwaited(gate) => MarkAwaitedKeepsFutures(g, gate);
    case _ => WakesNobodyKeepsFutures(world, s, a);
  }

  lemma DrainKept(world: World, s: State, a: Action)
    requires FutureInv(s.signal) && DrainInv(s) && Enabled(s, a)
    ensures DrainInv(Do(world, s, a))
  {
    if a.MatchResponse? {
      MatchKeepsFutures(s.signal, world.dueSuffices, s.response);
    }
  }

  lemma ActionKeeps(world: World, s: State, a: Action)
    requires Inv(world, s) && Enabled(s, a)
    ensures Inv(world, Do(world, s, a))
  {
    CountKept(world, s, a);
    WatchKept(world, s, a);
    FutureKept(world, s, a);
    ReadyKept(world, s, a);
    AbandonKept(world, s, a);
    DrainKept(world, s, a);
  }

  // ----- the generation -----

  /** What the suspension conditions read of the signal, and who holds them. */
  ghost predicate SameConditions(g: Signal, t: Signal) {
    t.parked == g.parked && ParkedWaiters(t) == ParkedWaiters(g) &&
    ParkedParkers(t.parkers) == ParkedParkers(g.parkers) &&
    (forall w: nat :: w < |g.waiters| && w < |t.waiters| && g.waiters[w].parked ==>
      t.waiters[w].detached == g.waiters[w].detached) &&
    t.watches.Keys == g.watches.Keys && (forall op :: op in g.watches && op in t.watches ==>
      t.watches[op].status == g.watches[op].status) &&
    t.active == g.active && t.executing == g.executing
  }

  lemma NobodyWoken(g: Signal, W: set<nat>, suspended: bool)
    requires CountInv(g) && (forall w :: w in W ==> w < |g.waiters| && !g.waiters[w].woken)
    ensures g.Woken(W, suspended).gen >= g.gen
    ensures g.Woken(W, suspended).gen == g.gen ==> W == {} && g.Woken(W, suspended) == g
  {
    assert g.Sleeping(W) == W;
    if W == {} {
      WokenNone(g, suspended);
    }
  }

  lemma MatchOneAdvances(g: Signal, due: nat -> bool, op: nat, st: Status)
    requires CountInv(g) && WatchInv(g)
    ensures var t := g.MatchOne(due, op, st); t.gen > g.gen || t == g
  {
    if op in g.watches && Ready(due, op, Some(st)) {
      assert g.watches[op].waiters[0] in g.Waiting(op);
      NobodyWoken(g, g.Waiting(op), false);
    }
  }

  lemma {:induction false} MatchAdvances(g: Signal, due: nat -> bool, ops: seq<(nat, Status)>)
    requires CountInv(g) && WatchInv(g)
    ensures var t := g.Match(due, ops); t.gen > g.gen || t == g
    decreases |ops|
  {
    if ops != [] {
      var t := g.MatchOne(due, ops[0].0, ops[0].1);
      MatchOneAdvances(g, due, ops[0].0, ops[0].1);
      MatchKeepsCount(g, due, [ops[0]]);
      assert g.Match(due, [ops[0]]) == t.Match(due, []);
      MatchOneKeepsWatches(g, due, ops[0].0, ops[0].1);
      MatchAdvances(t, due, ops[1..]);
    }
  }

  lemma WakeAbandonedAdvances(g: Signal, abandoned: nat -> bool)
    requires CountInv(g) && WatchInv(g)
    ensures var t := g.WakeAbandoned(abandoned); t.gen > g.gen || (t.gen == g.gen && SameConditions(g, t))
  {
    var doomed := g.DoomedOn(g.watches.Keys, abandoned);
    NobodyWoken(g, doomed, true);
    if g.WakeAbandoned(abandoned).gen == g.gen {
      forall op: nat | op in g.watches ensures g.Kept(g.watches[op].waiters, abandoned) != [] {
        var w := g.watches[op].waiters[0];
        assert w in g.watches[op].waiters;
        assert w !in doomed;
        KeptWaiters(g, g.watches[op].waiters, abandoned, w);
      }
    }
  }

  lemma WatchedIsAwaited(g: Signal)
    requires WatchInv(g)
    ensures g.watches == map[] || g.WaitingOn(g.watches.Keys) != {}
  {
    if g.watches != map[] {
      var op :| op in g.watches;
      var w := g.watches[op].waiters[0];
      assert w in g.watches[op].waiters;
      assert w in g.WaitingOn(g.watches.Keys);
    }
  }

  lemma FireAdvances(g: Signal)
    requires CountInv(g) && WatchInv(g)
    ensures var t := g.Fire(); t.gen > g.gen || (t.gen == g.gen && SameConditions(g, t))
  {
    WatchedIsAwaited(g);
    NobodyWoken(g, g.WaitingOn(g.watches.Keys), true);
  }

  lemma SettleAdvances(g: Signal, f: nat, suspended: bool)
    requires CountInv(g) && f < |g.futures|
    ensures var t := g.Settle(f, suspended); t.gen > g.gen || (t.gen == g.gen && SameConditions(g, t))
  {
    if g.futures[f].outcome.None? {
      var W := Members(g.futures[f].waiters);
      if g.Sleeping(W) == {} {
        assert forall i :: 0 <= i < |g.waiters| && i in W && !g.waiters[i].woken ==> i in g.Sleeping(W);
        assert g.Woken(W, false).waiters == g.waiters;
      }
    }
  }

  predicate Local(a: Action) {
    !a.MatchResponse? && !a.WakeBeneath? && !a.Fire? && !a.SettleFuture? && !a.SettleDrained? && !a.NewParker?
  }

  lemma LocalAdvances(world: World, s: State, a: Action)
    requires Enabled(s, a) && Local(a)
    ensures var t := Do(world, s, a).signal;
            t.gen > s.signal.gen || (t.gen == s.signal.gen && SameConditions(s.signal, t))
  {
  }

  /** Every park, wake, watch or detach change advances gen, and nothing ever lowers it. */
  lemma GenAdvances(world: World, s: State, a: Action)
    requires Inv(world, s) && Enabled(s, a)
    ensures var t := Do(world, s, a).signal;
            t.gen > s.signal.gen || (t.gen == s.signal.gen && SameConditions(s.signal, t))
  {
    var g := s.signal;
    match a
    case MatchResponse => MatchAdvances(g, world.dueSuffices, s.response);
    case WakeBeneath(_) => WakeAbandonedAdvances(g, AbandonedBy(world, s.flags));
    case Fire => FireAdvances(g);
    case SettleFuture(f) => SettleAdvances(g, f, false);
    case SettleDrained(f) => SettleAdvances(g, f, true);
    case NewParker => assert ParkedParkers(g.parkers + [Parker(false, 0)]) == ParkedParkers(g.parkers);
    case _ => LocalAdvances(world, s, a);
  }
}
