/** The operation at which an invocation suspends, and the histories in which the next one lists it as updated. */
module ReplayStops {
  import opened Ids
  import opened ReplayModel
  import opened ReplaySoundness
  import opened ReplayHistories
  import opened ReplayLiveness

  /** The invoke a suspended run awaits. */
  ghost function StoppedAt(p: Program, fuel: nat, path: Id, n: nat, mode: Mode, inv: Invocation): Id
    requires Exec(p, fuel, path, n, mode, inv).end == Suspended
    decreases fuel, 0
  {
    var id := path + [n];
    var claimed := ClaimMode(mode, id, inv.log);
    var sub := Step(p, fuel - 1, id, claimed, inv);
    if sub.end.Done? then
      StoppedAt(p.then_(sub.end.outcome), fuel - 1, path, n + 1, ObserveMode(claimed, id, inv), inv)
    else HeadStop(p, fuel - 1, id, claimed, inv)
  }

  ghost function HeadStop(p: Program, fuel: nat, id: Id, mode: Mode, inv: Invocation): Id
    requires (p.Invoke? || p.Child?) && Step(p, fuel, id, mode, inv).end == Suspended
    decreases fuel, 1
  {
    if p.Invoke? then id
    else
      assert Step(p, fuel, id, mode, inv) == RunChild(p.name, p.subType, p.options, p.body, fuel, id, mode, inv);
      StoppedAt(p.body, fuel, id, 1, ChildReplayMode(id, Lookup(inv.log, id), inv.log), inv)
  }

  ghost predicate OpenIn(log: Log, x: Id) {
    x in log && OpenInvoke(log[x])
  }

  /** The run awaits an invoke of its own that stays open in the log it leaves. */
  ghost predicate AwaitsOpen(p: Program, fuel: nat, path: Id, n: nat, mode: Mode, inv: Invocation) {
    var r := Exec(p, fuel, path, n, mode, inv);
    r.end == Suspended ==>
      var x := StoppedAt(p, fuel, path, n, mode, inv);
      In(x, path, n) && !inv.wakes(x) && OpenIn(Apply(inv.log, r.events), x)
  }

  lemma {:induction false} StopsAtOpenInvoke(p: Program, fuel: nat, path: Id, n: nat, mode: Mode, inv: Invocation)
    requires mode != SucceededContext && Direct(p, fuel, path, n, inv.world).Some?
    requires Fits(p, fuel, path, n, inv.log, inv.world) && RepeatsClose(p, fuel, path, n, inv.log, inv.world)
    ensures AwaitsOpen(p, fuel, path, n, mode, inv)
    decreases fuel, 0
  {
    if p.Invoke? || p.Child? {
      var id := path + [n];
      var claimed := ClaimMode(mode, id, inv.log);
      var sub := Step(p, fuel - 1, id, claimed, inv);
      OneStep(p, fuel - 1, id, claimed, inv);
      if sub.end.Done? {
        var rest, later := p.then_(sub.end.outcome), ObserveMode(claimed, id, inv);
        StopsAtOpenInvoke(rest, fuel - 1, path, n + 1, later, inv);
        if Exec(p, fuel, path, n, mode, inv).end == Suspended {
          OpenBeyond(p, fuel, path, n, mode, inv);
        }
      } else {
        StopsAtHead(p, fuel - 1, id, claimed, inv);
        OpenWithin(p, fuel, path, n, mode, inv);
      }
    }
  }

  ghost predicate HeadAwaitsOpen(p: Program, fuel: nat, id: Id, mode: Mode, inv: Invocation)
    requires p.Invoke? || p.Child?
  {
    Step(p, fuel, id, mode, inv).end == Suspended &&
    var x := HeadStop(p, fuel, id, mode, inv);
    id <= x && !inv.wakes(x) && OpenIn(Apply(inv.log, Step(p, fuel, id, mode, inv).events), x)
  }

  lemma OpenWithin(p: Program, fuel: nat, path: Id, n: nat, mode: Mode, inv: Invocation)
    requires (p.Invoke? || p.Child?) && fuel > 0
    requires HeadAwaitsOpen(p, fuel - 1, path + [n], ClaimMode(mode, path + [n], inv.log), inv)
    ensures AwaitsOpen(p, fuel, path, n, mode, inv)
  {
    var id := path + [n];
    var sub := Step(p, fuel - 1, id, ClaimMode(mode, id, inv.log), inv);
    var r := Exec(p, fuel, path, n, mode, inv);
    InSplits(HeadStop(p, fuel - 1, id, ClaimMode(mode, id, inv.log), inv), path, n);
    assert r.events == sub.events && r.end == Suspended;
  }

  /** The head's updates do not touch what the code after it awaits. */
  lemma OpenBeyond(p: Program, fuel: nat, path: Id, n: nat, mode: Mode, inv: Invocation)
    requires (p.Invoke? || p.Child?) && fuel > 0 && Exec(p, fuel, path, n, mode, inv).end == Suspended
    requires var id := path + [n]; var claimed := ClaimMode(mode, id, inv.log);
             var sub := Step(p, fuel - 1, id, claimed, inv);
             sub.end.Done? && AwaitsOpen(p.then_(sub.end.outcome), fuel - 1, path, n + 1,
                                         ObserveMode(claimed, id, inv), inv)
    ensures AwaitsOpen(p, fuel, path, n, mode, inv)
  {
    var id := path + [n];
    var claimed := ClaimMode(mode, id, inv.log);
    var sub := Step(p, fuel - 1, id, claimed, inv);
    var rest, later := p.then_(sub.end.outcome), ObserveMode(claimed, id, inv);
    var tail := Exec(rest, fuel - 1, path, n + 1, later, inv);
    StepWritesUnder(p, fuel - 1, id, claimed, inv);
    WritesIn(rest, fuel - 1, path, n + 1, later, inv);
    Disjoint(inv.log, id, path, n, sub.events, tail.events);
    var x := StoppedAt(p, fuel, path, n, mode, inv);
    InSplits(x, path, n);
    assert Exec(p, fuel, path, n, mode, inv).events == sub.events + tail.events;
    assert Same(Apply(inv.log, tail.events), Apply(inv.log, sub.events + tail.events), x);
  }

  lemma {:induction false} StopsAtHead(p: Program, fuel: nat, id: Id, mode: Mode, inv: Invocation)
    requires (p.Invoke? || p.Child?) && mode != SucceededContext && DirectStep(p, fuel, id, inv.world).Some?
    requires FitsStep(p, fuel, id, inv.log, inv.world) && RepeatsCloseStep(p, fuel, id, inv.log, inv.world)
    requires Step(p, fuel, id, mode, inv).end == Suspended
    ensures HeadAwaitsOpen(p, fuel, id, mode, inv)
    decreases fuel, 1
  {
    var sub := Step(p, fuel, id, mode, inv);
    if p.Invoke? {
      assert sub == RunInvoke(p.name, p.invoke, id, mode, inv);
    } else {
      assert sub == RunChild(p.name, p.subType, p.options, p.body, fuel, id, mode, inv);
      if id in inv.log && inv.log[id].status.Terminal() {
        if inv.log[id].replayChildren {
          Rerun(p.body, fuel, id, 1, inv);
        }
      } else {
        StopsAtOpenInvoke(p.body, fuel, id, 1, ChildReplayMode(id, Lookup(inv.log, id), inv.log), inv);
        OpenInside(p, fuel, id, mode, inv);
      }
    }
  }

  /** The START of a child does not touch what its body awaits. */
  lemma OpenInside(p: Program, fuel: nat, id: Id, mode: Mode, inv: Invocation)
    requires p.Child? && Step(p, fuel, id, mode, inv).end == Suspended
    requires !(id in inv.log && inv.log[id].status.Terminal())
    requires AwaitsOpen(p.body, fuel, id, 1, ChildReplayMode(id, Lookup(inv.log, id), inv.log), inv)
    ensures HeadAwaitsOpen(p, fuel, id, mode, inv)
  {
    var log := inv.log;
    var nested := ChildReplayMode(id, Lookup(log, id), log);
    var inner := Exec(p.body, fuel, id, 1, nested, inv);
    var sub := Step(p, fuel, id, mode, inv);
    assert sub == RunChild(p.name, p.subType, p.options, p.body, fuel, id, mode, inv);
    WritesIn(p.body, fuel, id, 1, nested, inv);
    Beneath(log, id, ContextStarted(p.name, p.subType), Opening(p, id, log), inner.events);
    var x := StoppedAt(p.body, fuel, id, 1, nested, inv);
    assert Same(Apply(log, inner.events), Apply(log, Opening(p, id, log) + inner.events), x);
  }

  /** Each later invocation lists the operation at which the one before it stopped. */
  ghost predicate Listed(p: Program, fuel: nat, invs: seq<Invocation>) {
    forall i :: 0 <= i < |invs| - 1 && Invoked(p, fuel, invs[i]).end == Suspended ==>
      StoppedAt(p, fuel, [], 1, RootMode(invs[i].log), invs[i]) in invs[i + 1].updated * invs[i + 1].log.Keys
  }
}
