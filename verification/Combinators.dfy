/** The combinators' loops over futures that settle in any order; ReadOrder says in which order they are read. */
module Combinators {
  import opened ReadOrder

  datatype Option<+T> = None | Some(value: T)

  /** What a future settled with. */
  datatype Outcome = Value(value: int) | Failure(error: int) | Suspension

  datatype AnyResult = Winner(value: int) | AllFailed(errors: seq<int>) | AnySuspended

  // ----- the barrier of All and Join -----

  datatype Barrier = Passed | FirstError(error: int) | BarrierSuspended

  /** The first outcome that is not a value, from i on; |fs| when there is none. */
  function FirstTrouble(fs: seq<Outcome>, i: nat): (k: nat)
    requires i <= |fs|
    ensures i <= k <= |fs| && (k < |fs| ==> !fs[k].Value?) && forall j :: i <= j < k ==> fs[j].Value?
    decreases |fs| - i
  {
    if i == |fs| || !fs[i].Value? then i else FirstTrouble(fs, i + 1)
  }

  function FirstFailure(fs: seq<Outcome>, i: nat): (k: nat)
    requires i <= |fs|
    ensures i <= k <= |fs| && (k < |fs| ==> fs[k].Failure?) && forall j :: i <= j < k ==> !fs[j].Failure?
    decreases |fs| - i
  {
    if i == |fs| || fs[i].Failure? then i else FirstFailure(fs, i + 1)
  }

  function FirstSuspension(fs: seq<Outcome>, i: nat): (k: nat)
    requires i <= |fs|
    ensures i <= k <= |fs| && (k < |fs| ==> fs[k].Suspension?) && forall j :: i <= j < k ==> !fs[j].Suspension?
    decreases |fs| - i
  {
    if i == |fs| || fs[i].Suspension? then i else FirstSuspension(fs, i + 1)
  }

  /**
    awaitBarrier. A suspension is the outcome unless, with failFast, a failure came before it in order; `awaited`
    counts the futures waited for, and only a failure under failFast leaves any out.
   */
  method AwaitBarrier(fs: seq<Outcome>, failFast: bool) returns (r: Barrier, awaited: nat)
    ensures r.Passed? <==> forall i :: 0 <= i < |fs| ==> fs[i].Value?
    ensures r.BarrierSuspended? <==>
              exists i :: 0 <= i < |fs| && fs[i].Suspension? &&
                (failFast ==> FirstTrouble(fs, 0) == FirstSuspension(fs, 0))
    ensures r.FirstError? ==> FirstFailure(fs, 0) < |fs| && r.error == fs[FirstFailure(fs, 0)].error
    ensures awaited == if failFast && r.FirstError? then FirstFailure(fs, 0) + 1 else |fs|
  {
    var firstErr: Option<int> := None;
    var sawSuspend := false;
    var i := 0;
    while i < |fs|
      invariant 0 <= i <= |fs|
      invariant sawSuspend <==> exists j :: 0 <= j < i && fs[j].Suspension?
      invariant FirstSuspension(fs, 0) == if sawSuspend then FirstSuspension(fs, 0) else FirstSuspension(fs, i)
      invariant sawSuspend ==>
                  FirstSuspension(fs, 0) < i && (failFast ==> FirstTrouble(fs, 0) == FirstSuspension(fs, 0))
      invariant !sawSuspend && failFast ==> FirstTrouble(fs, 0) == FirstTrouble(fs, i)
      invariant !failFast && firstErr.None? ==> FirstFailure(fs, 0) == FirstFailure(fs, i)
      invariant !failFast && firstErr.Some? ==>
                  FirstFailure(fs, 0) < i && firstErr.value == fs[FirstFailure(fs, 0)].error
      invariant failFast && !sawSuspend ==> firstErr.None? && FirstFailure(fs, 0) == FirstFailure(fs, i)
    {
      match fs[i] {
        case Value(_) =>
        case Suspension =>
          sawSuspend := true;
        case Failure(e) =>
          if failFast && !sawSuspend {
            return FirstError(e), i + 1;
          }
          if firstErr.None? {
            firstErr := Some(e);
          }
      }
      i := i + 1;
    }
    awaited := |fs|;
    r := if sawSuspend then BarrierSuspended else if firstErr.Some? then FirstError(firstErr.value) else Passed;
  }

  // ----- passes over the pending futures -----

  /** awaitAnySettled: returns as soon as some pending future, number k, has settled. */
  method AwaitAnySettled(sched: Schedule, pending: seq<nat>, now: nat) returns (later: nat, ghost k: nat)
    requires pending != []
    ensures later >= now && k < |pending| && sched.settlesAt(pending[k]) <= later
    ensures later == Wake(sched, pending, now)
  {
    later, k := if sched.settlesAt(pending[0]) > now then sched.settlesAt(pending[0]) else now, 0;
    for i := 1 to |pending|
      invariant later >= now && k < |pending| && sched.settlesAt(pending[k]) <= later
      invariant later == Wake(sched, pending[..i], now)
    {
      assert pending[..i + 1][..i] == pending[..i];
      if sched.settlesAt(pending[i]) < later {
        later, k := if sched.settlesAt(pending[i]) > now then sched.settlesAt(pending[i]) else now, i;
      }
    }
    assert pending[..|pending|] == pending;
  }

  lemma LookUnfolds(sched: Schedule, rest: seq<nat>, start: nat, now: nat, looks: nat, taken: seq<Read>, keep: seq<nat>)
    requires rest != []
    ensures var t := now + sched.delay(looks); var later := PassOver(sched, rest[1..], start, t, looks + 1);
            PassOver(sched, rest, start, now, looks).After(taken, keep) ==
            if sched.settlesAt(rest[0]) <= t then later.After(taken + [Read(rest[0], start, t)], keep)
            else later.After(taken, keep + [rest[0]])
  {
    var t := now + sched.delay(looks);
    var later := PassOver(sched, rest[1..], start, t, looks + 1);
    assert taken + ([Read(rest[0], start, t)] + later.taken) == (taken + [Read(rest[0], start, t)]) + later.taken;
    assert keep + ([rest[0]] + later.kept) == (keep + [rest[0]]) + later.kept;
  }

  // ----- Any -----

  predicate IsFailure(fs: seq<Outcome>, i: nat) {
    i < |fs| && fs[i].Failure?
  }

  predicate IsSuspension(fs: seq<Outcome>, i: nat) {
    i < |fs| && fs[i].Suspension?
  }

  /** Position k of the order read is a suspension, and only failures were read before it. */
  ghost predicate SuspendedFirst(fs: seq<Outcome>, obs: seq<Read>, k: nat) {
    k < |obs| && IsSuspension(fs, obs[k].f) && forall m :: 0 <= m < k ==> IsFailure(fs, obs[m].f)
  }

  ghost predicate WonBy(fs: seq<Outcome>, obs: seq<Read>, v: int) {
    obs != [] && obs[|obs| - 1].f < |fs| && fs[obs[|obs| - 1].f] == Value(v) &&
    forall k :: 0 <= k < |obs| - 1 ==> IsFailure(fs, obs[k].f)
  }

  /** What Any has learnt: only failures, recorded at their positions, or a suspension with only failures before it. */
  ghost predicate Learnt(fs: seq<Outcome>, obs: seq<Read>, errs: seq<int>, sawSuspend: bool) {
    |errs| == |fs| &&
    if sawSuspend then exists k :: SuspendedFirst(fs, obs, k)
    else forall k :: 0 <= k < |obs| ==> IsFailure(fs, obs[k].f) && fs[obs[k].f].error == errs[obs[k].f]
  }

  lemma LearnOne(fs: seq<Outcome>, obs: seq<Read>, errs: seq<int>, sawSuspend: bool, r: Read)
    requires Learnt(fs, obs, errs, sawSuspend) && r.f < |fs|
    ensures sawSuspend ==> Learnt(fs, obs + [r], errs, true)
    ensures fs[r.f].Suspension? ==> Learnt(fs, obs + [r], errs, true)
    ensures fs[r.f].Failure? && !Lists(obs, r.f) ==> Learnt(fs, obs + [r], errs[r.f := fs[r.f].error], sawSuspend)
  {
    if sawSuspend {
      var k :| SuspendedFirst(fs, obs, k);
      assert SuspendedFirst(fs, obs + [r], k);
    } else if fs[r.f].Suspension? {
      assert SuspendedFirst(fs, obs + [r], |obs|);
    }
  }

  /** One settled future is read; a success read before any suspension wins. */
  method ReadNext(fs: seq<Outcome>, f: nat, errs0: seq<int>, saw0: bool, ghost obs0: seq<Read>, ghost r: Read)
    returns (won: Option<int>, errs: seq<int>, saw: bool)
    requires f < |fs| && r.f == f && !Lists(obs0, f) && Learnt(fs, obs0, errs0, saw0)
    ensures if won.Some? then WonBy(fs, obs0 + [r], won.value) else Learnt(fs, obs0 + [r], errs, saw)
  {
    LearnOne(fs, obs0, errs0, saw0, r);
    won, errs, saw := None, errs0, saw0;
    match fs[f] {
      case Value(v) =>
        if !saw0 {
          won := Some(v);
        }
      case Suspension =>
        saw := true;
      case Failure(e) =>
        errs := errs0[f := e];
    }
  }

  /** `all` lists every future once and begins with what was read and what this pass reads. */
  ghost predicate Continues(all: seq<Read>, n: nat, obs: seq<Read>, more: seq<Read>) {
    Distinct(all) && Below(all, n) && obs + more <= all
  }

  /** The next future of an order that lists each once is a new one. */
  lemma NextIsNew(all: seq<Read>, n: nat, obs: seq<Read>, r: Read, more: seq<Read>)
    requires Continues(all, n, obs, [r] + more)
    ensures r.f < n && !Lists(obs, r.f)
    ensures Continues(all, n, obs + [r], more)
  {
    assert (obs + [r]) + more == obs + ([r] + more);
    assert all[|obs|] == r && forall i :: 0 <= i < |obs| ==> all[i] == obs[i];
  }

  /** A prefix of what the pass reads, up to the future that decides. */
  ghost predicate CutShort(obs: seq<Read>, obs0: seq<Read>, taken: seq<Read>) {
    |obs0| < |obs| && obs <= obs0 + taken
  }

  /** Where pass p, begun at `start`, stands: it has read obs after obs0 and kept keep; rest is still to be
      looked at. */
  ghost predicate Standing(sched: Schedule, p: Pass, start: nat, rest: seq<nat>, now: nat, looks: nat, obs0: seq<Read>,
                           obs: seq<Read>, keep: seq<nat>, all: seq<Read>, n: nat) {
    obs0 <= obs && p == PassOver(sched, rest, start, now, looks).After(obs[|obs0|..], keep) &&
    Continues(all, n, obs, PassOver(sched, rest, start, now, looks).taken)
  }

  lemma StandsReading(sched: Schedule, p: Pass, start: nat, rest: seq<nat>, now: nat, looks: nat, obs0: seq<Read>,
                      obs: seq<Read>, keep: seq<nat>, all: seq<Read>, n: nat)
    requires rest != [] && Standing(sched, p, start, rest, now, looks, obs0, obs, keep, all, n)
    requires sched.settlesAt(rest[0]) <= now + sched.delay(looks)
    ensures var t := now + sched.delay(looks); var r := Read(rest[0], start, t);
            rest[0] < n && !Lists(obs, rest[0]) && CutShort(obs + [r], obs0, p.taken) &&
            Standing(sched, p, start, rest[1..], t, looks + 1, obs0, obs + [r], keep, all, n)
  {
    var t := now + sched.delay(looks);
    var r := Read(rest[0], start, t);
    var later := PassOver(sched, rest[1..], start, t, looks + 1);
    LookUnfolds(sched, rest, start, now, looks, obs[|obs0|..], keep);
    NextIsNew(all, n, obs, r, later.taken);
    ReadsSoFar(obs0, obs, r, later.taken);
  }

  lemma ReadsSoFar(obs0: seq<Read>, obs: seq<Read>, r: Read, later: seq<Read>)
    requires obs0 <= obs
    ensures (obs + [r])[|obs0|..] == obs[|obs0|..] + [r] && obs0 <= obs + [r]
    ensures CutShort(obs + [r], obs0, (obs[|obs0|..] + [r]) + later)
  {
    assert obs0 + ((obs[|obs0|..] + [r]) + later) == (obs + [r]) + later;
  }

  lemma StandsKeeping(sched: Schedule, p: Pass, start: nat, rest: seq<nat>, now: nat, looks: nat, obs0: seq<Read>,
                      obs: seq<Read>, keep: seq<nat>, all: seq<Read>, n: nat)
    requires rest != [] && Standing(sched, p, start, rest, now, looks, obs0, obs, keep, all, n)
    requires sched.settlesAt(rest[0]) > now + sched.delay(looks)
    ensures Standing(sched, p, start, rest[1..], now + sched.delay(looks), looks + 1, obs0, obs, keep + [rest[0]], all,
                     n)
  {
    LookUnfolds(sched, rest, start, now, looks, obs[|obs0|..], keep);
  }

  lemma StandsFirst(sched: Schedule, p: Pass, start: nat, rest: seq<nat>, looks: nat, obs0: seq<Read>, all: seq<Read>,
                    n: nat)
    requires p == PassOver(sched, rest, start, start, looks) && Continues(all, n, obs0, p.taken)
    ensures Standing(sched, p, start, rest, start, looks, obs0, obs0, [], all, n)
  {
    assert obs0[|obs0|..] == [] && [] + p.taken == p.taken && [] + p.kept == p.kept;
  }

  lemma StandsLast(sched: Schedule, p: Pass, start: nat, now: nat, looks: nat, obs0: seq<Read>, obs: seq<Read>,
                   keep: seq<nat>, all: seq<Read>, n: nat)
    requires Standing(sched, p, start, [], now, looks, obs0, obs, keep, all, n)
    ensures p == Pass(p.taken, keep, now, looks) && obs == obs0 + p.taken
  {
  }

  /** One look of a pass: a future that has not settled moves to the front, over one already read. */
  method LookAt(sched: Schedule, pending: array<nat>, kept0: nat, j: nat, n: nat, now0: nat, looks0: nat,
                ghost p: Pass, ghost start: nat, ghost obs0: seq<Read>, ghost obs: seq<Read>, ghost all: seq<Read>,
                ghost size: nat)
    returns (settled: bool, kept: nat, now: nat, looks: nat)
    requires kept0 <= j < n <= pending.Length
    requires Standing(sched, p, start, pending[j..n], now0, looks0, obs0, obs, pending[..kept0], all, size)
    modifies pending
    ensures kept == (if settled then kept0 else kept0 + 1)
    ensures settled == (sched.settlesAt(old(pending[j])) <= now)
    ensures var f := old(pending[j]); var read := if settled then obs + [Read(f, start, now)] else obs;
            Standing(sched, p, start, pending[j + 1..n], now, looks, obs0, read, pending[..kept], all, size) &&
            (settled ==> f < size && !Lists(obs, f) && CutShort(read, obs0, p.taken))
  {
    now, looks, kept := now0 + sched.delay(looks0), looks0 + 1, kept0;
    assert pending[j..n][1..] == pending[j + 1..n];
    settled := sched.settlesAt(pending[j]) <= now;
    if settled {
      StandsReading(sched, p, start, pending[j..n], now0, looks0, obs0, obs, pending[..kept0], all, size);
    } else {
      StandsKeeping(sched, p, start, pending[j..n], now0, looks0, obs0, obs, pending[..kept0], all, size);
      ghost var front := pending[..kept0];
      pending[kept0] := pending[j];
      kept := kept0 + 1;
      assert pending[..kept] == front + [old(pending[j])];
      assert pending[j + 1..n] == old(pending[j + 1..n]);
    }
  }

  method AnyLook(sched: Schedule, fs: seq<Outcome>, pending: array<nat>, kept0: nat, j: nat, n: nat, errs0: seq<int>,
                 saw0: bool, now0: nat, looks0: nat, ghost p: Pass, ghost start: nat, ghost obs0: seq<Read>,
                 ghost read: seq<Read>, ghost all: seq<Read>)
    returns (won: Option<int>, kept: nat, errs: seq<int>, saw: bool, now: nat, looks: nat, ghost obs: seq<Read>)
    requires kept0 <= j < n <= pending.Length && Learnt(fs, read, errs0, saw0)
    requires Standing(sched, p, start, pending[j..n], now0, looks0, obs0, read, pending[..kept0], all, |fs|)
    modifies pending
    ensures if won.Some? then WonBy(fs, obs, won.value) && CutShort(obs, obs0, p.taken)
            else kept <= j + 1 && Learnt(fs, obs, errs, saw) &&
                 Standing(sched, p, start, pending[j + 1..n], now, looks, obs0, obs, pending[..kept], all, |fs|)
  {
    var f := pending[j];
    var settled: bool;
    won, errs, saw, obs := None, errs0, saw0, read;
    settled, kept, now, looks := LookAt(sched, pending, kept0, j, n, now0, looks0, p, start, obs0, read, all, |fs|);
    if settled {
      won, errs, saw := ReadNext(fs, f, errs0, saw0, read, Read(f, start, now));
      obs := read + [Read(f, start, now)];
    }
  }

  /**
    One pass of Any over the first n pending futures: those that have settled when they are looked at are read in
    input order, up to a winner; without one, all of them are, and the others are kept at the front.
   */
  method AnyPass(sched: Schedule, fs: seq<Outcome>, pending: array<nat>, n: nat, errs0: seq<int>, saw0: bool,
                 start: nat, looks0: nat, ghost obs0: seq<Read>, ghost all: seq<Read>)
    returns (won: Option<int>, kept: nat, errs: seq<int>, saw: bool, now: nat, looks: nat, ghost obs: seq<Read>)
    requires n <= pending.Length && Learnt(fs, obs0, errs0, saw0)
    requires Continues(all, |fs|, obs0, PassOver(sched, pending[..n], start, start, looks0).taken)
    modifies pending
    ensures var p := PassOver(sched, old(pending[..n]), start, start, looks0);
            if won.Some? then WonBy(fs, obs, won.value) && CutShort(obs, obs0, p.taken)
            else kept <= n && p == Pass(p.taken, pending[..kept], now, looks) && obs == obs0 + p.taken &&
                 Learnt(fs, obs, errs, saw)
  {
    ghost var p := PassOver(sched, pending[..n], start, start, looks0);
    won, kept, errs, saw, now, looks, obs := None, 0, errs0, saw0, start, looks0, obs0;
    assert pending[0..n] == pending[..n] && pending[..0] == [];
    StandsFirst(sched, p, start, pending[..n], looks0, obs0, all, |fs|);
    for j := 0 to n
      invariant kept <= j && won.None? && Learnt(fs, obs, errs, saw)
      invariant Standing(sched, p, start, pending[j..n], now, looks, obs0, obs, pending[..kept], all, |fs|)
    {
      won, kept, errs, saw, now, looks, obs :=
        AnyLook(sched, fs, pending, kept, j, n, errs, saw, now, looks, p, start, obs0, obs, all);
      if won.Some? {
        return;
      }
    }
    StandsLast(sched, p, start, now, looks, obs0, obs, pending[..kept], all, |fs|);
  }

  lemma PassBegins(all: seq<Read>, n: nat, obs: seq<Read>, taken: seq<Read>, rest: seq<Read>)
    requires Distinct(all) && Below(all, n) && all == obs + (taken + rest)
    ensures Continues(all, n, obs, taken) && all == (obs + taken) + rest
  {
    assert all == (obs + taken) + rest;
  }

  /** What is left of the order `all` after obs. */
  ghost predicate Ahead(sched: Schedule, all: seq<Read>, size: nat, obs: seq<Read>, pending: seq<nat>, now: nat,
                        looks: nat) {
    Distinct(all) && Below(all, size) && all == obs + Reads(sched, pending, now, looks)
  }

  /** A wait and the pass after it. */
  method AnyRound(sched: Schedule, fs: seq<Outcome>, pending: array<nat>, n: nat, errs0: seq<int>, saw0: bool,
                  now0: nat, looks0: nat, ghost obs0: seq<Read>, ghost all: seq<Read>)
    returns (won: Option<int>, kept: nat, errs: seq<int>, saw: bool, now: nat, looks: nat, ghost obs: seq<Read>)
    requires 0 < n <= pending.Length && Learnt(fs, obs0, errs0, saw0)
    requires Ahead(sched, all, |fs|, obs0, pending[..n], now0, looks0)
    modifies pending
    ensures if won.Some? then WonBy(fs, obs, won.value) && obs <= all
            else kept < n && Learnt(fs, obs, errs, saw) && Ahead(sched, all, |fs|, obs, pending[..kept], now, looks)
  {
    ghost var p := NextPass(sched, pending[..n], now0, looks0);
    PassBegins(all, |fs|, obs0, p.taken, Reads(sched, p.kept, p.now, p.looks));
    var start, _ := AwaitAnySettled(sched, pending[..n], now0);
    won, kept, errs, saw, now, looks, obs := AnyPass(sched, fs, pending, n, errs0, saw0, start, looks0, obs0, all);
  }

  /** Once every future is read, each failed one has its error at its position, or a suspension came first. */
  lemma AllRead(sched: Schedule, fs: seq<Outcome>, obs: seq<Read>, errs: seq<int>, saw: bool)
    requires Learnt(fs, obs, errs, saw) && obs == Order(sched, |fs|)
    ensures !saw ==> forall i :: 0 <= i < |fs| ==> fs[i] == Failure(errs[i])
  {
    OrderIsPermutation(sched, |fs|);
    forall i: nat | i < |fs| ensures saw || fs[i] == Failure(errs[i]) {
      assert Lists(obs, i);
    }
  }

  /**
    Any: futures are read in the order of ReadOrder, up to the first success if only failures were read before it; a
    suspension read first drains every future; if all failed, error i is future i's.
   */
  method AnyOf(sched: Schedule, fs: seq<Outcome>) returns (r: AnyResult, ghost obs: seq<Read>)
    ensures match r
            case Winner(v) => exists k :: 0 < k <= |fs| && WonBy(fs, Order(sched, |fs|)[..k], v)
            case AllFailed(errors) => |errors| == |fs| && forall i :: 0 <= i < |fs| ==> fs[i] == Failure(errors[i])
            case AnySuspended => exists k :: SuspendedFirst(fs, Order(sched, |fs|), k)
    ensures obs <= Order(sched, |fs|) && if r.Winner? then WonBy(fs, obs, r.value) else |obs| == |fs|
  {
    var pending := new nat[|fs|](i => i);
    var errs: seq<int> := seq(|fs|, _ => 0);
    var n: nat, now: nat, looks: nat, sawSuspend := |fs|, 0, 0, false;
    ghost var all := Order(sched, |fs|);
    obs := [];
    OrderIsPermutation(sched, |fs|);
    assert pending[..n] == Inputs(|fs|);
    while n > 0
      invariant n <= |fs| == pending.Length && Learnt(fs, obs, errs, sawSuspend)
      invariant Ahead(sched, all, |fs|, obs, pending[..n], now, looks)
      decreases n
    {
      var won: Option<int>;
      won, n, errs, sawSuspend, now, looks, obs :=
        AnyRound(sched, fs, pending, n, errs, sawSuspend, now, looks, obs, all);
      if won.Some? {
        assert all[..|obs|] == obs;
        return Winner(won.value), obs;
      }
    }
    AllRead(sched, fs, obs, errs, sawSuspend);
    r := if sawSuspend then AnySuspended else AllFailed(errs);
  }

  // ----- Race -----

  /** Nothing was read, or the first future read had suspended. */
  ghost predicate OnlySuspension(fs: seq<Outcome>, obs: seq<Read>) {
    obs == [] || IsSuspension(fs, obs[0].f)
  }

  ghost predicate DecidedBy(fs: seq<Outcome>, obs: seq<Read>, o: Outcome) {
    |obs| == 1 && obs[0].f < |fs| && o == fs[obs[0].f] && !o.Suspension?
  }

  /** One settled future is read; the first decides unless it is a suspension. */
  method RaceNext(fs: seq<Outcome>, f: nat, saw0: bool, ghost obs0: seq<Read>, ghost r: Read)
    returns (won: Option<Outcome>, saw: bool)
    requires f < |fs| && r.f == f && OnlySuspension(fs, obs0) && saw0 == (obs0 != [])
    ensures if won.Some? then DecidedBy(fs, obs0 + [r], won.value) else OnlySuspension(fs, obs0 + [r]) && saw
  {
    won, saw := None, true;
    if !fs[f].Suspension? && !saw0 {
      won := Some(fs[f]);
    }
  }

  method RaceLook(sched: Schedule, fs: seq<Outcome>, pending: array<nat>, kept0: nat, j: nat, n: nat, saw0: bool,
                  now0: nat, looks0: nat, ghost p: Pass, ghost start: nat, ghost obs0: seq<Read>,
                  ghost read: seq<Read>, ghost all: seq<Read>)
    returns (won: Option<Outcome>, kept: nat, saw: bool, now: nat, looks: nat, ghost obs: seq<Read>)
    requires kept0 <= j < n <= pending.Length && OnlySuspension(fs, read) && saw0 == (read != [])
    requires Standing(sched, p, start, pending[j..n], now0, looks0, obs0, read, pending[..kept0], all, |fs|)
    modifies pending
    ensures if won.Some? then DecidedBy(fs, obs, won.value) && CutShort(obs, obs0, p.taken)
            else kept <= j + 1 && OnlySuspension(fs, obs) && saw == (obs != []) &&
                 Standing(sched, p, start, pending[j + 1..n], now, looks, obs0, obs, pending[..kept], all, |fs|)
  {
    var f := pending[j];
    var settled: bool;
    won, saw, obs := None, saw0, read;
    settled, kept, now, looks := LookAt(sched, pending, kept0, j, n, now0, looks0, p, start, obs0, read, all, |fs|);
    if settled {
      won, saw := RaceNext(fs, f, saw0, read, Read(f, start, now));
      obs := read + [Read(f, start, now)];
    }
  }

  /** One pass of Race: the first future read decides; after a suspension the others are only drained. */
  method RacePass(sched: Schedule, fs: seq<Outcome>, pending: array<nat>, n: nat, saw0: bool, start: nat, looks0: nat,
                  ghost obs0: seq<Read>, ghost all: seq<Read>)
    returns (won: Option<Outcome>, kept: nat, saw: bool, now: nat, looks: nat, ghost obs: seq<Read>)
    requires n <= pending.Length && OnlySuspension(fs, obs0) && saw0 == (obs0 != [])
    requires Continues(all, |fs|, obs0, PassOver(sched, pending[..n], start, start, looks0).taken)
    modifies pending
    ensures var p := PassOver(sched, old(pending[..n]), start, start, looks0);
            if won.Some? then DecidedBy(fs, obs, won.value) && CutShort(obs, obs0, p.taken)
            else kept <= n && p == Pass(p.taken, pending[..kept], now, looks) && obs == obs0 + p.taken &&
                 OnlySuspension(fs, obs) && saw == (obs != [])
  {
    ghost var p := PassOver(sched, pending[..n], start, start, looks0);
    won, kept, saw, now, looks, obs := None, 0, saw0, start, looks0, obs0;
    assert pending[0..n] == pending[..n] && pending[..0] == [];
    StandsFirst(sched, p, start, pending[..n], looks0, obs0, all, |fs|);
    for j := 0 to n
      invariant kept <= j && won.None? && OnlySuspension(fs, obs) && saw == (obs != [])
      invariant Standing(sched, p, start, pending[j..n], now, looks, obs0, obs, pending[..kept], all, |fs|)
    {
      won, kept, saw, now, looks, obs :=
        RaceLook(sched, fs, pending, kept, j, n, saw, now, looks, p, start, obs0, obs, all);
      if won.Some? {
        return;
      }
    }
    StandsLast(sched, p, start, now, looks, obs0, obs, pending[..kept], all, |fs|);
  }

  method RaceRound(sched: Schedule, fs: seq<Outcome>, pending: array<nat>, n: nat, saw0: bool, now0: nat, looks0: nat,
                   ghost obs0: seq<Read>, ghost all: seq<Read>)
    returns (won: Option<Outcome>, kept: nat, saw: bool, now: nat, looks: nat, ghost obs: seq<Read>)
    requires 0 < n <= pending.Length && OnlySuspension(fs, obs0) && saw0 == (obs0 != [])
    requires Ahead(sched, all, |fs|, obs0, pending[..n], now0, looks0)
    modifies pending
    ensures if won.Some? then DecidedBy(fs, obs, won.value) && obs <= all
            else kept < n && OnlySuspension(fs, obs) && saw == (obs != []) &&
                 Ahead(sched, all, |fs|, obs, pending[..kept], now, looks)
  {
    ghost var p := NextPass(sched, pending[..n], now0, looks0);
    PassBegins(all, |fs|, obs0, p.taken, Reads(sched, p.kept, p.now, p.looks));
    var start, _ := AwaitAnySettled(sched, pending[..n], now0);
    won, kept, saw, now, looks, obs := RacePass(sched, fs, pending, n, saw0, start, looks0, obs0, all);
  }

  /**
    Race: the outcome of the future that ReadOrder reads first. A suspension drains the others; with no futures there
    is no outcome.
   */
  method RaceOf(sched: Schedule, fs: seq<Outcome>) returns (r: Option<Outcome>, ghost obs: seq<Read>)
    ensures r.None? <==> fs == []
    ensures r.Some? ==> var first := Order(sched, |fs|)[0].f; first < |fs| && r.value == fs[first]
    ensures obs <= Order(sched, |fs|) && |obs| == if r.None? || r.value.Suspension? then |fs| else 1
  {
    obs := [];
    if |fs| == 0 {
      return None, [];
    }
    var pending := new nat[|fs|](i => i);
    var n: nat, now: nat, looks: nat, sawSuspend := |fs|, 0, 0, false;
    ghost var all := Order(sched, |fs|);
    OrderIsPermutation(sched, |fs|);
    assert pending[..n] == Inputs(|fs|);
    while n > 0
      invariant n <= |fs| == pending.Length && OnlySuspension(fs, obs) && sawSuspend == (obs != [])
      invariant Ahead(sched, all, |fs|, obs, pending[..n], now, looks)
      decreases n
    {
      r, n, sawSuspend, now, looks, obs := RaceRound(sched, fs, pending, n, sawSuspend, now, looks, obs, all);
      if r.Some? {
        return;
      }
    }
    r := Some(Suspension);
  }
}
