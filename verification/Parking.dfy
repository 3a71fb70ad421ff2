/**
  The suspension signal's parking state: goroutines parked on operations, on futures and on worker channels.

  Every method is one critical section of the signal's mutex. Waiters, parkers and futures are named by their index.
 */
module Parking {

  datatype Option<+T> = None | Some(value: T)

  /** A record's status, as far as the readiness conditions tell statuses apart. */
  datatype Status = Unfinished | AttemptDue | Terminal

  datatype Target = OnOperation(op: nat) | OnFutures(fs: set<nat>)

  /** parkWaiter; `suspended` says it was woken with the suspension sentinel. */
  datatype Waiter = Waiter(on: Target, handle: Option<nat>, parked: bool, woken: bool, suspended: bool, detached: bool)

  datatype Watch = Watch(waiters: seq<nat>, status: Option<Status>)

  datatype Parker = Parker(parked: bool, pending: nat)

  /** A registered future; its outcome says whether it settled with the suspension sentinel. */
  datatype Future = Future(outcome: Option<bool>, waiters: seq<nat>)

  datatype Gate = Gate(awaited: bool, waiters: seq<nat>)

  datatype Awaited = Refused | AlreadyReady | Parked

  /** terminalRecord or attemptDueRecord, by the kind of operation. */
  predicate Ready(dueSuffices: nat -> bool, op: nat, st: Option<Status>) {
    st == Some(Terminal) || (st == Some(AttemptDue) && dueSuffices(op))
  }

  function Members(ws: seq<nat>): set<nat> {
    set w | w in ws
  }

  function Without(ws: seq<nat>, w: nat): (r: seq<nat>)
    ensures forall v :: v in r <==> v in ws && v != w
  {
    if ws == [] then []
    else if ws[|ws| - 1] == w then Without(ws[..|ws| - 1], w)
    else Without(ws[..|ws| - 1], w) + [ws[|ws| - 1]]
  }

  datatype Signal = Signal(waiters: seq<Waiter>, watches: map<nat, Watch>, parkers: seq<Parker>, futures: seq<Future>,
                           gates: seq<Gate>, parked: int, gen: nat, active: int, executing: nat, firing: bool) {

    function NewWaiter(on: Target, handle: Option<nat>, detached: bool): Signal {
      this.(waiters := waiters + [Waiter(on, handle, true, false, false, detached)], parked := parked + 1,
            gen := gen + 1)
    }

    /** The waiters of W that wakeLocked still has to wake. */
    function Sleeping(W: set<nat>): set<nat> {
      set w | w in W && w < |waiters| && !waiters[w].woken && waiters[w].parked
    }

    /** wakeLocked for every waiter of W, in any order. */
    function Woken(W: set<nat>, suspended: bool): Signal {
      this.(waiters := seq(|waiters|, i requires 0 <= i < |waiters| =>
                         if i in W && !waiters[i].woken
                         then waiters[i].(woken := true, parked := false, suspended := suspended) else waiters[i]),
            parked := parked - |Sleeping(W)|, gen := gen + |Sleeping(W)|)
    }

    function AwaitOperation(dueSuffices: nat -> bool, op: nat, record: Option<Status>, handle: Option<nat>,
                            abandoned: bool, detached: bool, gate: Option<nat>): (Signal, Awaited)
      requires gate.Some? ==> gate.value < |gates|
    {
      if firing || abandoned then (this, Refused)
      else if Ready(dueSuffices, op, record) then (this, AlreadyReady)
      else
        var gated := gate.Some? && !gates[gate.value].awaited;
        var w := |waiters|;
        var s := NewWaiter(OnOperation(op), handle, detached || gated);
        var t := if gated then
                   s.(gates := gates[gate.value := gates[gate.value].(waiters := gates[gate.value].waiters + [w])])
                 else s;
        var watch := if op in watches then watches[op] else Watch([], record);
        (t.(watches := watches[op := watch.(waiters := watch.waiters + [w])]), Parked)
    }

    function MatchOne(dueSuffices: nat -> bool, op: nat, st: Status): Signal {
      if op !in watches then this
      else if Ready(dueSuffices, op, Some(st)) then Woken(Waiting(op), false).(watches := watches - {op})
      else if watches[op].status != Some(st) then
        this.(watches := watches[op := watches[op].(status := Some(st))], gen := gen + 1)
      else this
    }

    function Waiting(op: nat): set<nat>
      requires op in watches
    {
      Members(watches[op].waiters)
    }

    function Match(dueSuffices: nat -> bool, ops: seq<(nat, Status)>): Signal
      decreases |ops|
    {
      if ops == [] then this else MatchOne(dueSuffices, ops[0].0, ops[0].1).Match(dueSuffices, ops[1..])
    }

    predicate Doomed(w: nat, abandoned: nat -> bool) {
      w < |waiters| && waiters[w].handle.Some? && abandoned(waiters[w].handle.value)
    }

    function Kept(ws: seq<nat>, abandoned: nat -> bool): seq<nat> {
      if ws == [] then []
      else
        Kept(ws[..|ws| - 1], abandoned) + (if Doomed(ws[|ws| - 1], abandoned) then [] else [ws[|ws| - 1]])
    }

    function DoomedAmong(ws: seq<nat>, abandoned: nat -> bool): set<nat> {
      set w | w in ws && Doomed(w, abandoned)
    }

    function DoomedOn(ops: set<nat>, abandoned: nat -> bool): set<nat> {
      set op, w | op in ops && op in watches && w in watches[op].waiters && Doomed(w, abandoned) :: w
    }

    /** The watches once those of `ops` have been sifted: a watch left without waiters ends. */
    function Sifted(ops: set<nat>, abandoned: nat -> bool): map<nat, Watch> {
      map op | op in watches && (op in ops ==> Kept(watches[op].waiters, abandoned) != []) ::
        if op in ops then watches[op].(waiters := Kept(watches[op].waiters, abandoned)) else watches[op]
    }

    function WakeAbandoned(abandoned: nat -> bool): Signal {
      SiftedOn(watches.Keys, abandoned)
    }

    function WaitingOn(ops: set<nat>): set<nat> {
      set op, w | op in ops && op in watches && w in watches[op].waiters :: w
    }

    /** The signal once the watches of `ops` have been sifted. */
    function SiftedOn(ops: set<nat>, abandoned: nat -> bool): Signal {
      Woken(DoomedOn(ops, abandoned), true).(watches := Sifted(ops, abandoned))
    }

    /** The signal once fire has drained the watches of `ops`. */
    function Drained(ops: set<nat>): Signal {
      Woken(WaitingOn(ops), true).(watches := watches - ops, firing := true)
    }

    /** The critical section of fire. */
    function Fire(): Signal {
      Woken(WaitingOn(watches.Keys), true).(watches := map[], firing := true)
    }

    // ----- parkers -----

    function Park(p: nat): Signal
      requires p < |parkers|
    {
      if !parkers[p].parked && parkers[p].pending == 0 then
        this.(parkers := parkers[p := parkers[p].(parked := true)], parked := parked + 1, gen := gen + 1)
      else this
    }

    /** signal when delta is 1 and received when it is -1. */
    function Unpark(p: nat, delta: int): Signal
      requires p < |parkers| && parkers[p].pending + delta >= 0
    {
      this.(parkers := parkers[p := Parker(false, parkers[p].pending + delta)],
            parked := if parkers[p].parked then parked - 1 else parked, gen := gen + 1)
    }

    // ----- futures and gates -----

    /** registerFuture. */
    function Register(): Signal {
      this.(futures := futures + [Future(if firing then Some(true) else None, [])])
    }

    function Settle(f: nat, suspended: bool): Signal
      requires f < |futures|
    {
      if futures[f].outcome.Some? then this
      else Woken(Members(futures[f].waiters), false).(futures := futures[f := Future(Some(suspended), [])])
    }

    /** Future.park for one future, awaitAnySettled for several. */
    function AwaitFutures(fs: set<nat>): (Signal, Awaited)
      requires forall f :: f in fs ==> f < |futures|
    {
      if fs == {} || exists f :: f in fs && futures[f].outcome.Some? then (this, AlreadyReady)
      else
        var s := NewWaiter(OnFutures(fs), None, false);
        (s.(futures := seq(|futures|, f requires 0 <= f < |futures| =>
                         if f in fs then futures[f].(waiters := futures[f].waiters + [|waiters|]) else futures[f])),
         Parked)
    }

    /** awaitAnySettled takes its woken waiter off the futures that have not settled. */
    function Forget(w: nat): Signal {
      this.(futures := seq(|futures|, f requires 0 <= f < |futures| =>
                         futures[f].(waiters := Without(futures[f].waiters, w))))
    }

    function MarkAwaited(g: nat): Signal
      requires g < |gates|
    {
      if gates[g].awaited then this
      else
        var attached := Members(gates[g].waiters);
        this.(waiters := seq(|waiters|, i requires 0 <= i < |waiters| =>
                           if i in attached then waiters[i].(detached := false) else waiters[i]),
              gates := gates[g := Gate(true, [])], gen := gen + 1)
    }

    /** shouldSuspendLocked without a commitment; busy and ended are read from outside the signal. */
    predicate ShouldSuspend(busy: bool, ended: bool) {
      !firing && watches != map[] && (ended || (active - parked <= 0 && executing == 0 && !busy))
    }
  }

  // ----- waking in any order -----

  lemma SleepingSplits(s: Signal, A: set<nat>, B: set<nat>, suspended: bool)
    ensures |s.Sleeping(A + B)| == |s.Sleeping(A)| + |s.Woken(A, suspended).Sleeping(B)|
  {
    var t := s.Woken(A, suspended);
    assert forall w :: w in t.Sleeping(B) <==> w in s.Sleeping(B) && w !in s.Sleeping(A);
    assert s.Sleeping(A + B) == s.Sleeping(A) + t.Sleeping(B);
    assert s.Sleeping(A) !! t.Sleeping(B);
  }

  lemma WokenTwice(s: Signal, A: set<nat>, B: set<nat>, suspended: bool)
    ensures s.Woken(A, suspended).Woken(B, suspended) == s.Woken(A + B, suspended)
  {
    SleepingSplits(s, A, B, suspended);
    var once, both := s.Woken(A, suspended).Woken(B, suspended).waiters, s.Woken(A + B, suspended).waiters;
    assert |once| == |both|;
    assert forall i :: 0 <= i < |both| ==> once[i] == both[i];
    assert once == both;
  }

  lemma WokenNone(s: Signal, suspended: bool)
    ensures s.Woken({}, suspended) == s
  {
    assert s.Sleeping({}) == {};
    assert s.Woken({}, suspended).waiters == s.waiters;
  }

  /** Waking depends on the waiters alone. */
  lemma WokenWith(s: Signal, W: set<nat>, ws: map<nat, Watch>, firing: bool, suspended: bool)
    ensures s.(watches := ws, firing := firing).Woken(W, suspended) ==
            s.Woken(W, suspended).(watches := ws, firing := firing)
  {
    assert s.(watches := ws, firing := firing).Sleeping(W) == s.Sleeping(W);
  }

  lemma DrainedNone(s: Signal)
    ensures s.Drained({}) == s.(firing := true)
  {
    WokenNone(s, true);
    assert s.WaitingOn({}) == {} && s.watches - {} == s.watches;
  }

  lemma DrainedAll(s: Signal)
    ensures s.Drained(s.watches.Keys) == s.Fire()
  {
    assert s.watches - s.watches.Keys == map[];
  }

  lemma SiftedNone(s: Signal, abandoned: nat -> bool)
    ensures s.SiftedOn({}, abandoned) == s
  {
    SiftNothing(s, abandoned);
  }

  lemma WaitingMore(s: Signal, done: set<nat>, op: nat)
    requires op in s.watches
    ensures s.WaitingOn(done + {op}) == s.WaitingOn(done) + Members(s.watches[op].waiters)
  {
  }

  lemma DoomedMore(s: Signal, done: set<nat>, op: nat, abandoned: nat -> bool)
    requires op in s.watches
    ensures s.DoomedOn(done + {op}, abandoned) ==
            s.DoomedOn(done, abandoned) + s.DoomedAmong(s.watches[op].waiters, abandoned)
  {
  }

  lemma FireStep(s: Signal, done: set<nat>, op: nat, ws: map<nat, Watch>, later: map<nat, Watch>)
    requires op in s.watches
    ensures s.Woken(s.WaitingOn(done), true).(watches := ws, firing := true)
             .Woken(Members(s.watches[op].waiters), true).(watches := later) ==
            s.Woken(s.WaitingOn(done + {op}), true).(watches := later, firing := true)
  {
    var W, M := s.WaitingOn(done), Members(s.watches[op].waiters);
    WokenWith(s.Woken(W, true), M, ws, true, true);
    WokenTwice(s, W, M, true);
    WaitingMore(s, done, op);
  }

  lemma SiftStep(s: Signal, done: set<nat>, op: nat, ws: map<nat, Watch>, later: map<nat, Watch>,
                 abandoned: nat -> bool)
    requires op in s.watches
    ensures var t := s.Woken(s.DoomedOn(done, abandoned), true).(watches := ws);
            t.Woken(t.DoomedAmong(s.watches[op].waiters, abandoned), true).(watches := later) ==
            s.Woken(s.DoomedOn(done + {op}, abandoned), true).(watches := later)
  {
    var W, D := s.DoomedOn(done, abandoned), s.DoomedAmong(s.watches[op].waiters, abandoned);
    var t := s.Woken(W, true).(watches := ws);
    SameDoom(s, t, W, ws, abandoned, s.watches[op].waiters);
    WokenWith(s.Woken(W, true), D, ws, s.firing, true);
    WokenTwice(s, W, D, true);
    DoomedMore(s, done, op, abandoned);
  }

  lemma SiftedMore(s: Signal, done: set<nat>, op: nat, abandoned: nat -> bool)
    requires op in s.watches && op !in done
    ensures var kept := s.Kept(s.watches[op].waiters, abandoned); var ws := s.Sifted(done, abandoned);
            op in ws && ws[op] == s.watches[op] &&
            s.Sifted(done + {op}, abandoned) == if kept == [] then ws - {op} else ws[op := ws[op].(waiters := kept)]
  {
  }

  lemma SiftOne(s: Signal, ws: seq<nat>, i: nat, abandoned: nat -> bool)
    requires i < |ws|
    ensures s.DoomedAmong(ws[..i + 1], abandoned) ==
            s.DoomedAmong(ws[..i], abandoned) + (if s.Doomed(ws[i], abandoned) then {ws[i]} else {})
    ensures s.Kept(ws[..i + 1], abandoned) ==
            s.Kept(ws[..i], abandoned) + (if s.Doomed(ws[i], abandoned) then [] else [ws[i]])
  {
    assert ws[..i + 1][..i] == ws[..i];
    assert ws[..i + 1] == ws[..i] + [ws[i]];
  }

  lemma SiftNothing(s: Signal, abandoned: nat -> bool)
    ensures s.Woken(s.DoomedOn({}, abandoned), true) == s && s.Sifted({}, abandoned) == s.watches
  {
    assert s.DoomedOn({}, abandoned) == {};
    WokenNone(s, true);
  }

  /** Waking changes no handle, so it changes neither who is doomed nor who is kept. */
  lemma {:induction false} SameDoom(s: Signal, t: Signal, W: set<nat>, ws: map<nat, Watch>, abandoned: nat -> bool,
                                    list: seq<nat>)
    requires t == s.Woken(W, true).(watches := ws)
    ensures t.DoomedAmong(list, abandoned) == s.DoomedAmong(list, abandoned)
    ensures t.Kept(list, abandoned) == s.Kept(list, abandoned)
  {
    assert forall w :: t.Doomed(w, abandoned) == s.Doomed(w, abandoned);
    if list != [] {
      SameDoom(s, t, W, ws, abandoned, list[..|list| - 1]);
    }
  }

  // ----- the object -----

  ghost predicate WaitersExist(watches: map<nat, Watch>, n: nat) {
    forall op, w :: op in watches && w in watches[op].waiters ==> w < n
  }

  /** Whoever woke in between was not told to suspend, and nobody else changed. */
  ghost predicate WokenPlainly(before: seq<Waiter>, after: seq<Waiter>) {
    |before| == |after| &&
    forall w :: 0 <= w < |before| ==>
      after[w] == before[w] ||
      (!before[w].woken && after[w] == before[w].(woken := true, parked := false, suspended := false))
  }

  class SuspendSignal {
    var waiters: seq<Waiter>
    var watches: map<nat, Watch>
    var parkers: seq<Parker>
    var futures: seq<Future>
    var gates: seq<Gate>
    var parked: int
    var gen: nat
    var active: int
    var executing: nat
    var firing: bool

    function View(): Signal
      reads this
    {
      Signal(waiters, watches, parkers, futures, gates, parked, gen, active, executing, firing)
    }

    method WakeLocked(w: nat, suspended: bool)
      requires w < |waiters|
      modifies this
      ensures View() == old(View()).Woken({w}, suspended)
    {
      ghost var before := View();
      if waiters[w].woken {
        assert before.Sleeping({w}) == {};
        assert before.Woken({w}, suspended).waiters == waiters;
        return;
      }
      var counted := waiters[w].parked;
      waiters := waiters[w := waiters[w].(woken := true, parked := false, suspended := suspended)];
      if counted {
        parked := parked - 1;
        gen := gen + 1;
      }
      assert before.Sleeping({w}) == if counted then {w} else {};
      assert before.Woken({w}, suspended).waiters == waiters;
    }

    method WakeAll(ws: seq<nat>, suspended: bool)
      requires forall w :: w in ws ==> w < |waiters|
      modifies this
      ensures View() == old(View()).Woken(Members(ws), suspended)
    {
      ghost var before := View();
      WokenNone(before, suspended);
      ghost var done: set<nat> := {};
      for i := 0 to |ws|
        invariant done == Members(ws[..i])
        invariant View() == before.Woken(done, suspended) && |waiters| == |before.waiters|
      {
        WokenTwice(before, done, {ws[i]}, suspended);
        assert ws[i] in ws;
        WakeLocked(ws[i], suspended);
        assert ws[..i + 1] == ws[..i] + [ws[i]];
        done := done + {ws[i]};
      }
      assert ws[..|ws|] == ws;
      assert done == Members(ws);
    }

    method AwaitOperation(dueSuffices: nat -> bool, op: nat, record: Option<Status>, handle: Option<nat>,
                          abandoned: bool, detached: bool, gate: Option<nat>) returns (r: Awaited)
      requires gate.Some? ==> gate.value < |gates|
      modifies this
      ensures (View(), r) == old(View()).AwaitOperation(dueSuffices, op, record, handle, abandoned, detached, gate)
    {
      if firing || abandoned {
        return Refused;
      }
      if Ready(dueSuffices, op, record) {
        return AlreadyReady;
      }
      var gated := gate.Some? && !gates[gate.value].awaited;
      var w := |waiters|;
      waiters := waiters + [Waiter(OnOperation(op), handle, true, false, false, detached || gated)];
      parked := parked + 1;
      gen := gen + 1;
      if gated {
        gates := gates[gate.value := gates[gate.value].(waiters := gates[gate.value].waiters + [w])];
      }
      var watch := if op in watches then watches[op] else Watch([], record);
      watches := watches[op := watch.(waiters := watch.waiters + [w])];
      r := Parked;
    }

    /** One operation of a response. */
    method MatchLocked(dueSuffices: nat -> bool, op: nat, st: Status)
      requires WaitersExist(watches, |waiters|)
      modifies this
      ensures View() == old(View()).MatchOne(dueSuffices, op, st) && WaitersExist(watches, |waiters|)
      ensures WokenPlainly(old(waiters), waiters)
    {
      if op in watches {
        if Ready(dueSuffices, op, Some(st)) {
          WakeAll(watches[op].waiters, false);
          watches := watches - {op};
        } else if watches[op].status != Some(st) {
          watches := watches[op := watches[op].(status := Some(st))];
          gen := gen + 1;
        }
      }
    }

    method OnStateMerged(dueSuffices: nat -> bool, ops: seq<(nat, Status)>)
      requires WaitersExist(watches, |waiters|)
      modifies this
      ensures View() == old(View()).Match(dueSuffices, ops)
      ensures WokenPlainly(old(waiters), waiters)
    {
      ghost var goal := View().Match(dueSuffices, ops);
      var i := 0;
      while i < |ops|
        invariant 0 <= i <= |ops| && View().Match(dueSuffices, ops[i..]) == goal
        invariant WaitersExist(watches, |waiters|) && WokenPlainly(old(waiters), waiters)
      {
        assert ops[i..][1..] == ops[i + 1..];
        MatchLocked(dueSuffices, ops[i].0, ops[i].1);
        i := i + 1;
      }
    }

    /** The inner loop: the doomed waiters of one watch are woken, the others kept. */
    method Sift(ws: seq<nat>, abandoned: nat -> bool) returns (kept: seq<nat>)
      requires forall w :: w in ws ==> w < |waiters|
      modifies this
      ensures View() == old(View()).Woken(old(View()).DoomedAmong(ws, abandoned), true)
      ensures kept == old(View()).Kept(ws, abandoned)
    {
      ghost var before := View();
      ghost var done: set<nat> := {};
      kept := [];
      WokenNone(before, true);
      for i := 0 to |ws|
        invariant done == before.DoomedAmong(ws[..i], abandoned) && kept == before.Kept(ws[..i], abandoned)
        invariant View() == before.Woken(done, true) && |waiters| == |before.waiters|
      {
        var w := ws[i];
        SiftOne(before, ws, i, abandoned);
        assert w in ws && waiters[w].handle == before.waiters[w].handle;
        if waiters[w].handle.Some? && abandoned(waiters[w].handle.value) {
          WokenTwice(before, done, {w}, true);
          WakeLocked(w, true);
          done := done + {w};
        } else {
          kept := kept + [w];
        }
      }
      assert ws[..|ws|] == ws;
    }

    /** One watch of wakeAbandoned; `before` and `done` say where its loop stands. */
    method SiftWatch(op: nat, abandoned: nat -> bool, ghost before: Signal, ghost done: set<nat>)
      requires op in before.watches && op !in done && View() == before.SiftedOn(done, abandoned)
      requires WaitersExist(before.watches, |before.waiters|)
      modifies this
      ensures View() == before.SiftedOn(done + {op}, abandoned)
    {
      ghost var ws := watches;
      SiftedMore(before, done, op, abandoned);
      SameDoom(before, View(), before.DoomedOn(done, abandoned), ws, abandoned, watches[op].waiters);
      var kept := Sift(watches[op].waiters, abandoned);
      watches := if |kept| == 0 then watches - {op} else watches[op := watches[op].(waiters := kept)];
      SiftStep(before, done, op, ws, watches, abandoned);
    }

    method WakeAbandoned(abandoned: nat -> bool)
      requires WaitersExist(watches, |waiters|)
      modifies this
      ensures View() == old(View()).WakeAbandoned(abandoned)
    {
      ghost var before := View();
      var todo := watches.Keys;
      ghost var done: set<nat> := {};
      SiftedNone(before, abandoned);
      while todo != {}
        invariant done <= before.watches.Keys && todo == before.watches.Keys - done
        invariant View() == before.SiftedOn(done, abandoned)
        decreases |todo|
      {
        var op :| op in todo;
        SiftWatch(op, abandoned, before, done);
        todo := todo - {op};
        done := done + {op};
      }
      assert done == before.watches.Keys;
    }

    /** One watch of fire's loop. */
    method DrainWatch(op: nat, ghost before: Signal, ghost done: set<nat>)
      requires op in before.watches && op !in done && View() == before.Drained(done)
      requires WaitersExist(before.watches, |before.waiters|)
      modifies this
      ensures View() == before.Drained(done + {op})
    {
      ghost var ws := watches;
      WakeAll(watches[op].waiters, true);
      watches := watches - {op};
      assert watches == before.watches - (done + {op});
      FireStep(before, done, op, ws, watches);
    }

    /** fire's critical section. */
    method FireLocked()
      requires WaitersExist(watches, |waiters|)
      modifies this
      ensures View() == old(View()).Fire()
    {
      ghost var before := View();
      firing := true;
      var todo := watches.Keys;
      ghost var done: set<nat> := {};
      DrainedNone(before);
      while todo != {}
        invariant done <= before.watches.Keys && todo == before.watches.Keys - done
        invariant View() == before.Drained(done)
        decreases |todo|
      {
        var op :| op in todo;
        DrainWatch(op, before, done);
        todo := todo - {op};
        done := done + {op};
      }
      assert done == before.watches.Keys;
      DrainedAll(before);
    }

    method Park(p: nat)
      requires p < |parkers|
      modifies this
      ensures View() == old(View()).Park(p)
    {
      if !parkers[p].parked && parkers[p].pending == 0 {
        parkers := parkers[p := parkers[p].(parked := true)];
        parked := parked + 1;
        gen := gen + 1;
      }
    }

    method SignalParker(p: nat)
      requires p < |parkers|
      modifies this
      ensures View() == old(View()).Unpark(p, 1)
    {
      if parkers[p].parked {
        parked := parked - 1;
      }
      parkers := parkers[p := Parker(false, parkers[p].pending + 1)];
      gen := gen + 1;
    }

    method Received(p: nat)
      requires p < |parkers| && parkers[p].pending > 0
      modifies this
      ensures View() == old(View()).Unpark(p, -1)
    {
      if parkers[p].parked {
        parked := parked - 1;
      }
      parkers := parkers[p := Parker(false, parkers[p].pending - 1)];
      gen := gen + 1;
    }

    method Settle(f: nat, suspended: bool)
      requires f < |futures| && forall w :: w in futures[f].waiters ==> w < |waiters|
      modifies this
      ensures View() == old(View()).Settle(f, suspended)
    {
      if futures[f].outcome.Some? {
        return;
      }
      var ws := futures[f].waiters;
      WakeAll(ws, false);
      futures := futures[f := Future(Some(suspended), [])];
    }

    method RegisterFuture() returns (f: nat)
      modifies this
      ensures View() == old(View()).Register() && f == |old(futures)|
    {
      f := |futures|;
      futures := futures + [Future(if firing then Some(true) else None, [])];
    }

    /** Future.park for one future, awaitAnySettled for several, up to the point where the goroutine blocks. */
    method AwaitSettlement(fs: set<nat>) returns (r: Awaited)
      requires forall f :: f in fs ==> f < |futures|
      modifies this
      ensures (View(), r) == old(View()).AwaitFutures(fs)
    {
      var unchecked := fs;
      while unchecked != {}
        invariant unchecked <= fs && forall f :: f in fs && f !in unchecked ==> futures[f].outcome.None?
        decreases |unchecked|
      {
        var f :| f in unchecked;
        if futures[f].outcome.Some? {
          return AlreadyReady;
        }
        unchecked := unchecked - {f};
      }
      if fs == {} {
        return AlreadyReady;
      }
      ghost var before := futures;
      var w := |waiters|;
      waiters := waiters + [Waiter(OnFutures(fs), None, true, false, false, false)];
      parked := parked + 1;
      gen := gen + 1;
      for f := 0 to |futures|
        invariant |futures| == |before|
        invariant forall k :: 0 <= k < f && k in fs ==> futures[k] == before[k].(waiters := before[k].waiters + [w])
        invariant forall k :: 0 <= k < |futures| && (k >= f || k !in fs) ==> futures[k] == before[k]
        invariant View() == old(View()).NewWaiter(OnFutures(fs), None, false).(futures := futures)
      {
        if f in fs {
          futures := futures[f := futures[f].(waiters := futures[f].waiters + [w])];
        }
      }
      assert old(View()).AwaitFutures(fs).1 == Parked;
      assert futures == old(View()).AwaitFutures(fs).0.futures;
      r := Parked;
    }

    /** awaitAnySettled, once woken: the waiter is taken off the futures that still list it. */
    method ForgetWaiter(w: nat)
      modifies this
      ensures View() == old(View()).Forget(w)
    {
      ghost var before := futures;
      for f := 0 to |futures|
        invariant |futures| == |before|
        invariant forall k :: 0 <= k < f ==> futures[k] == before[k].(waiters := Without(before[k].waiters, w))
        invariant forall k :: f <= k < |futures| ==> futures[k] == before[k]
        invariant View() == old(View()).(futures := futures)
      {
        futures := futures[f := futures[f].(waiters := Without(futures[f].waiters, w))];
      }
    }

    method MarkAwaited(g: nat)
      requires g < |gates| && forall w :: w in gates[g].waiters ==> w < |waiters|
      modifies this
      ensures View() == old(View()).MarkAwaited(g)
    {
      if gates[g].awaited {
        return;
      }
      var ws := gates[g].waiters;
      ghost var before := waiters;
      for i := 0 to |ws|
        invariant |waiters| == |before|
        invariant forall k :: 0 <= k < |before| ==>
          waiters[k] == if k in ws[..i] then before[k].(detached := false) else before[k]
        invariant View() == old(View()).(waiters := waiters)
      {
        assert ws[..i + 1] == ws[..i] + [ws[i]] && ws[i] in ws;
        waiters := waiters[ws[i] := waiters[ws[i]].(detached := false)];
      }
      assert ws[..|ws|] == ws;
      gates := gates[g := Gate(true, [])];
      gen := gen + 1;
      assert waiters == old(View()).MarkAwaited(g).waiters;
    }
  }
}
