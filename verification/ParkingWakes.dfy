/** What a parked goroutine is woken by, and what it is woken with. */
module ParkingWakes {
  import opened Parking
  import opened ParkingRuns
  import opened ParkingSafety
  import opened ParkingTheorems

  ghost predicate Reported(world: World, response: seq<(nat, Status)>, op: nat) {
    exists i :: 0 <= i < |response| && response[i].0 == op && EndsWait(world, op, response[i].1)
  }

  /** The waiter, asleep in g, is awake in t. */
  ghost predicate Wakes(g: Signal, t: Signal, w: nat) {
    Asleep(g, w) && w < |t.waiters| && t.waiters[w].woken
  }

  /** Why action a woke a goroutine parked on operation op, and whether it learns of the suspension. */
  ghost predicate RightWake(world: World, s: State, a: Action, op: nat, handle: Option<nat>, suspended: bool) {
    match a
    case MatchResponse => Reported(world, s.response, op) && !suspended
    case WakeBeneath(_) => IsAbandoned(world, s.flags, handle) && suspended
    case Fire => suspended
    case _ => false
  }

  lemma {:induction false} MatchWakes(world: World, g: Signal, ops: seq<(nat, Status)>, w: nat, op: nat)
    requires WatchInv(g) && WaitsOn(g, w, op)
    ensures var t := g.Match(world.dueSuffices, ops);
            w < |t.waiters| && t.waiters[w].on == g.waiters[w].on &&
            (t.waiters[w].woken <==> Reported(world, ops, op)) &&
            (t.waiters[w].woken ==> !t.waiters[w].suspended)
    decreases |ops|
  {
    if ops != [] {
      var t := g.MatchOne(world.dueSuffices, ops[0].0, ops[0].1);
      MatchOneKeepsWatches(g, world.dueSuffices, ops[0].0, ops[0].1);
      assert Reported(world, ops, op) <==>
             (ops[0].0 == op && EndsWait(world, op, ops[0].1)) || Reported(world, ops[1..], op) by {
        forall i | 0 < i < |ops| ensures ops[i] == ops[1..][i - 1] {
        }
      }
      if t.waiters[w].woken {
        MatchKeepsWoken(t, world.dueSuffices, ops[1..], w);
      } else {
        MatchWakes(world, t, ops[1..], w, op);
      }
    }
  }

  lemma MatchKeepsFutureWaiters(g: Signal, due: nat -> bool, ops: seq<(nat, Status)>, w: nat)
    requires WatchInv(g) && Asleep(g, w) && g.waiters[w].on.OnFutures?
    ensures var t := g.Match(due, ops); w < |t.waiters| && !t.waiters[w].woken
    decreases |ops|
  {
    if ops != [] {
      MatchOneKeepsWatches(g, due, ops[0].0, ops[0].1);
      MatchKeepsFutureWaiters(g.MatchOne(due, ops[0].0, ops[0].1), due, ops[1..], w);
    }
  }

  /** An operation waiter wakes for a record that ends its wait, and is told so, or for the suspension. */
  lemma OperationWakesRightly(world: World, s: State, a: Action, w: nat, op: nat)
    requires WatchInv(s.signal) && FutureInv(s.signal) && Enabled(s, a) && WaitsOn(s.signal, w, op)
    ensures var t := Do(world, s, a).signal;
            Wakes(s.signal, t, w) ==> RightWake(world, s, a, op, s.signal.waiters[w].handle, t.waiters[w].suspended)
  {
    if a.MatchResponse? {
      MatchWakes(world, s.signal, s.response, w, op);
    } else if a.WakeBeneath? {
      assert w in s.signal.DoomedOn(s.signal.watches.Keys, AbandonedBy(world, s.flags)) ==>
             IsAbandoned(world, s.flags, s.signal.waiters[w].handle);
    } else if a.SettleFuture? || a.SettleDrained? {
      assert forall v: nat :: v in Members(s.signal.futures[a.f].waiters) ==> Lists(s.signal, a.f, v);
    }
  }

  /** A waiter on futures wakes because one of them settled, and is never told of the suspension itself. */
  lemma FuturesWakeRightly(world: World, s: State, a: Action, w: nat)
    requires WatchInv(s.signal) && FutureInv(s.signal) && Enabled(s, a)
    requires Asleep(s.signal, w) && s.signal.waiters[w].on.OnFutures?
    ensures var t := Do(world, s, a).signal;
            Wakes(s.signal, t, w) ==>
              !t.waiters[w].suspended && (a.SettleFuture? || a.SettleDrained?) && Lists(s.signal, a.f, w)
  {
    if a.MatchResponse? {
      MatchKeepsFutureWaiters(s.signal, world.dueSuffices, s.response, w);
    } else if a.WakeBeneath? {
      assert w !in s.signal.DoomedOn(s.signal.watches.Keys, AbandonedBy(world, s.flags));
    } else if a.Fire? {
      assert w !in s.signal.WaitingOn(s.signal.watches.Keys);
    }
  }

  /** How waiter w, asleep before action a, was woken by it. */
  ghost predicate WokenRightly(world: World, s: State, a: Action, w: nat, suspended: bool)
    requires w < |s.signal.waiters|
  {
    match s.signal.waiters[w].on
    case OnOperation(op) => RightWake(world, s, a, op, s.signal.waiters[w].handle, suspended)
    case OnFutures(_) => !suspended && (a.SettleFuture? || a.SettleDrained?) && Lists(s.signal, a.f, w)
  }

  lemma BornAsleep(world: World, s: State, a: Action, w: nat)
    requires Enabled(s, a) && w >= |s.signal.waiters| && w < |Do(world, s, a).signal.waiters|
    ensures !Do(world, s, a).signal.waiters[w].woken
  {
    if a.MatchResponse? {
      MatchLength(s.signal, world.dueSuffices, s.response);
    }
  }

  /** In every run, whoever is awake was woken once, by an action that had reason to, and keeps what it was told. */
  lemma {:induction false} AwakeMeansWokenRightly(world: World, states: seq<State>, actions: seq<Action>, n: nat,
                                                  w: nat)
    returns (m: nat)
    requires Run(world, states, actions) && n < |states|
    requires w < |states[n].signal.waiters| && states[n].signal.waiters[w].woken
    ensures m < n && Asleep(states[m].signal, w)
    ensures WokenRightly(world, states[m], actions[m], w, states[n].signal.waiters[w].suspended)
  {
    RunInv(world, states, actions, n - 1);
    var s, a := states[n - 1], actions[n - 1];
    if w >= |s.signal.waiters| {
      BornAsleep(world, s, a, w);
    } else if s.signal.waiters[w].woken {
      m := AwakeMeansWokenRightly(world, states, actions, n - 1, w);
      WokenStays(world, s, a, w);
    } else {
      m := n - 1;
      match s.signal.waiters[w].on
      case OnOperation(op) => OperationWakesRightly(world, s, a, w, op);
      case OnFutures(_) => FuturesWakeRightly(world, s, a, w);
    }
  }

  /**
    A goroutine that awaits an operation is refused once the signal fires or its subtree is abandoned, goes on at once
    if the record ends the wait, and parks otherwise.
   */
  lemma AwaitAnswersIff(world: World, s: State, op: nat, handle: Option<nat>, detached: bool, gate: Option<nat>)
    requires Enabled(s, Await(op, handle, detached, gate))
    ensures var (t, r) := s.signal.AwaitOperation(world.dueSuffices, op, RecordOf(s.log, op), handle,
                                                  IsAbandoned(world, s.flags, handle), detached, gate);
            (r == Refused <==> s.signal.firing || IsAbandoned(world, s.flags, handle)) &&
            (r == AlreadyReady <==> r != Refused && op in s.log && EndsWait(world, op, s.log[op])) &&
            (if r == Parked then WaitsOn(t, |s.signal.waiters|, op) else t == s.signal)
  {
  }
}
