/**
  Every interleaving of the goroutines that share a suspension signal.

  A checkpoint response merges its records into the log and only later matches them against the watches; a batch
  sets its abandon flag and only later wakes the goroutines beneath it. Anything may run in between.
 */
module ParkingRuns {
  import opened Parking

  /** parent gives the enclosing subtree of an abandon handle, minted before it. */
  datatype World = World(dueSuffices: nat -> bool, parent: nat -> Option<nat>)

  datatype State = State(signal: Signal, log: map<nat, Status>, response: seq<(nat, Status)>, flags: set<nat>,
                         toWake: set<nat>, draining: set<nat>, settling: Option<nat>, decided: bool)

  datatype Action =
    | Await(op: nat, handle: Option<nat>, detached: bool, gate: Option<nat>)
    | Merge(ops: seq<(nat, Status)>)
    | MatchResponse
    | SetFlag(batch: nat)
    | WakeBeneath(batch: nat)
    | NewParker
    | ParkParker(p: nat)
    | SignalParker(p: nat)
    | ReceivedParker(p: nat)
    | NewFuture
    | AwaitFutures(fs: set<nat>)
    | SettleFuture(f: nat)
    | ForgetWaiter(w: nat)
    | NewGate
    | MarkAwaited(g: nat)
    | Branch(delta: int)
    | Span(delta: int)
    | Touch
    | BeginSettle(busy: bool, ended: bool)
    | EndSettle(busy: bool, ended: bool)
    | Fire
    | SettleDrained(f: nat)

  /** abandoned: the flag of the handle or of an enclosing one is set. */
  predicate Abandoned(world: World, flags: set<nat>, h: nat)
    decreases h
  {
    h in flags ||
    (world.parent(h).Some? && world.parent(h).value < h && Abandoned(world, flags, world.parent(h).value))
  }

  predicate Within(world: World, h: nat, ancestor: nat)
    decreases h
  {
    h == ancestor ||
    (world.parent(h).Some? && world.parent(h).value < h && Within(world, world.parent(h).value, ancestor))
  }

  function AbandonedBy(world: World, flags: set<nat>): nat -> bool {
    (h: nat) => Abandoned(world, flags, h)
  }

  predicate IsAbandoned(world: World, flags: set<nat>, handle: Option<nat>) {
    handle.Some? && Abandoned(world, flags, handle.value)
  }

  function RecordOf(log: map<nat, Status>, op: nat): Option<Status> {
    if op in log then Some(log[op]) else None
  }

  function MergedLog(log: map<nat, Status>, ops: seq<(nat, Status)>): map<nat, Status> {
    if ops == [] then log else MergedLog(log, ops[..|ops| - 1])[ops[|ops| - 1].0 := ops[|ops| - 1].1]
  }

  predicate Enabled(s: State, a: Action) {
    match a
    case Await(_, _, _, gate) => gate.Some? ==> gate.value < |s.signal.gates|
    case Merge(_) => s.response == []
    case WakeBeneath(h) => h in s.toWake
    case ParkParker(p) => p < |s.signal.parkers|
    case SignalParker(p) => p < |s.signal.parkers|
    case ReceivedParker(p) => p < |s.signal.parkers| && s.signal.parkers[p].pending > 0
    case AwaitFutures(fs) => forall f :: f in fs ==> f < |s.signal.futures|
    case SettleFuture(f) => f < |s.signal.futures|
    case ForgetWaiter(w) => w < |s.signal.waiters| && s.signal.waiters[w].woken
    case MarkAwaited(g) => g < |s.signal.gates|
    case Span(delta) => s.signal.executing + delta >= 0
    case BeginSettle(busy, ended) => s.settling.None? && s.signal.ShouldSuspend(busy, ended)
    case EndSettle(_, _) => s.settling.Some?
    case Fire => s.decided && !s.signal.firing
    case SettleDrained(f) => f in s.draining && f < |s.signal.futures|
    case _ => true
  }

  function Do(world: World, s: State, a: Action): State
    requires Enabled(s, a)
  {
    var g := s.signal;
    match a
    case Await(op, handle, detached, gate) =>
      s.(signal := g.AwaitOperation(world.dueSuffices, op, RecordOf(s.log, op), handle,
                                    IsAbandoned(world, s.flags, handle), detached, gate).0)
    case Merge(ops) => s.(log := MergedLog(s.log, ops), response := ops)
    case MatchResponse => s.(signal := g.Match(world.dueSuffices, s.response), response := [])
    case SetFlag(h) => s.(flags := s.flags + {h}, toWake := s.toWake + {h})
    case WakeBeneath(h) => s.(signal := g.WakeAbandoned(AbandonedBy(world, s.flags)), toWake := s.toWake - {h})
    case NewParker => s.(signal := g.(parkers := g.parkers + [Parker(false, 0)]))
    case ParkParker(p) => s.(signal := g.Park(p))
    case SignalParker(p) => s.(signal := g.Unpark(p, 1))
    case ReceivedParker(p) => s.(signal := g.Unpark(p, -1))
    case NewFuture => s.(signal := g.Register())
    case AwaitFutures(fs) => s.(signal := g.AwaitFutures(fs).0)
    case SettleFuture(f) => s.(signal := g.Settle(f, false))
    case ForgetWaiter(w) => s.(signal := g.Forget(w))
    case NewGate => s.(signal := g.(gates := g.gates + [Gate(false, [])]))
    case MarkAwaited(gate) => s.(signal := g.MarkAwaited(gate))
    case Branch(delta) => s.(signal := g.(active := g.active + delta, gen := g.gen + 1))
    case Span(delta) => s.(signal := g.(executing := g.executing + delta, gen := g.gen + 1))
    case Touch => s.(signal := g.(gen := g.gen + 1))
    case BeginSettle(_, _) => s.(settling := Some(g.gen))
    case EndSettle(busy, ended) =>
      s.(settling := None, decided := s.decided || (g.ShouldSuspend(busy, ended) && g.gen == s.settling.value))
    case Fire =>
      s.(signal := g.Fire(), draining := set f | 0 <= f < |g.futures| && g.futures[f].outcome.None?)
    case SettleDrained(f) => s.(signal := g.Settle(f, true), draining := s.draining - {f})
  }

  function Init(): State {
    State(Signal([], map[], [], [], [], 0, 0, 0, 0, false), map[], [], {}, {}, {}, None, false)
  }

  // ----- the invariant -----

  function ParkedWaiters(g: Signal): set<nat> {
    set w | 0 <= w < |g.waiters| && g.waiters[w].parked
  }

  function ParkedParkers(ps: seq<Parker>): set<nat> {
    set p | 0 <= p < |ps| && ps[p].parked
  }

  /** parked counts the unwoken waiters and the parked parkers; no parker is parked with a signal pending. */
  ghost predicate CountInv(g: Signal) {
    g.parked == |ParkedWaiters(g)| + |ParkedParkers(g.parkers)| &&
    (forall w :: 0 <= w < |g.waiters| ==> g.waiters[w].parked == !g.waiters[w].woken) &&
    (forall p :: 0 <= p < |g.parkers| && g.parkers[p].parked ==> g.parkers[p].pending == 0)
  }

  ghost predicate Asleep(g: Signal, w: nat) {
    w < |g.waiters| && !g.waiters[w].woken
  }

  ghost predicate WaitsOn(g: Signal, w: nat, op: nat) {
    Asleep(g, w) && g.waiters[w].on == OnOperation(op)
  }

  /** Every watch has waiters, all unwoken; every unwoken operation waiter sits in the live watch of its operation. */
  ghost predicate WatchInv(g: Signal) {
    (forall op :: op in g.watches ==>
      g.watches[op].waiters != [] && forall w :: w in g.watches[op].waiters ==> WaitsOn(g, w, op)) &&
    (forall w: nat, op: nat :: WaitsOn(g, w, op) ==> op in g.watches && w in g.watches[op].waiters) &&
    (g.firing ==> g.watches == map[])
  }

  ghost predicate WaitsFor(g: Signal, w: nat, f: nat) {
    Asleep(g, w) && g.waiters[w].on.OnFutures? && f in g.waiters[w].on.fs
  }

  ghost predicate Lists(g: Signal, f: nat, w: nat) {
    f < |g.futures| && w in g.futures[f].waiters
  }

  /** Every unwoken waiter on futures is listed by each of them and none has settled. */
  ghost predicate FutureInv(g: Signal) {
    (forall w: nat, f: nat :: WaitsFor(g, w, f) ==> Lists(g, f, w) && g.futures[f].outcome.None?) &&
    (forall f: nat, w: nat :: Lists(g, f, w) ==> w < |g.waiters| && g.waiters[w].on.OnFutures?)
  }

  /** A waiter whose record is ready has a response still to be matched that will wake it. */
  ghost predicate ReadyInv(world: World, s: State) {
    forall w: nat, op: nat :: WaitsOn(s.signal, w, op) && Ready(world.dueSuffices, op, RecordOf(s.log, op)) ==>
      op in s.log && (op, s.log[op]) in s.response
  }

  /** An enclosing batch set its flag and has still to wake the goroutines beneath it. */
  ghost predicate WakeComing(world: World, toWake: set<nat>, h: nat) {
    exists g :: g in toWake && Within(world, h, g)
  }

  ghost predicate AbandonInv(world: World, s: State) {
    forall w: nat, op: nat :: WaitsOn(s.signal, w, op) && IsAbandoned(world, s.flags, s.signal.waiters[w].handle) ==>
      WakeComing(world, s.toWake, s.signal.waiters[w].handle.value)
  }

  ghost predicate DrainInv(s: State) {
    s.signal.firing ==> forall f: nat :: f < |s.signal.futures| && s.signal.futures[f].outcome.None? ==> f in s.draining
  }

  ghost predicate Inv(world: World, s: State) {
    CountInv(s.signal) && WatchInv(s.signal) && FutureInv(s.signal) && ReadyInv(world, s) && AbandonInv(world, s) &&
    DrainInv(s)
  }

  lemma InitInv(world: World)
    ensures Inv(world, Init())
  {
    assert ParkedWaiters(Init().signal) == {} && ParkedParkers([]) == {};
  }

  // ----- waking -----

  lemma WokenParked(g: Signal, W: set<nat>, suspended: bool)
    requires CountInv(g)
    ensures CountInv(g.Woken(W, suspended))
    ensures ParkedWaiters(g.Woken(W, suspended)) == ParkedWaiters(g) - W && |g.Sleeping(W)| == |ParkedWaiters(g) * W|
  {
    var t := g.Woken(W, suspended);
    assert g.Sleeping(W) == ParkedWaiters(g) * W;
    assert ParkedWaiters(t) == ParkedWaiters(g) - W;
    assert |ParkedWaiters(g)| == |ParkedWaiters(g) * W| + |ParkedWaiters(g) - W| by {
      assert ParkedWaiters(g) == (ParkedWaiters(g) * W) + (ParkedWaiters(g) - W);
    }
  }

  lemma ParkerCount(ps: seq<Parker>, p: nat, to: Parker)
    requires p < |ps|
    ensures |ParkedParkers(ps[p := to])| ==
            |ParkedParkers(ps)| - (if ps[p].parked then 1 else 0) + (if to.parked then 1 else 0)
  {
    var rest := ParkedParkers(ps) - {p};
    assert ParkedParkers(ps) == if ps[p].parked then rest + {p} else rest;
    assert ParkedParkers(ps[p := to]) == if to.parked then rest + {p} else rest;
  }

  lemma NewWaiterCounted(g: Signal, on: Target, handle: Option<nat>, detached: bool)
    requires CountInv(g)
    ensures CountInv(g.NewWaiter(on, handle, detached))
  {
    var t := g.NewWaiter(on, handle, detached);
    assert ParkedWaiters(t) == ParkedWaiters(g) + {|g.waiters|};
  }
}
