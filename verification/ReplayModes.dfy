/** How a context's mode moves within one invocation. */
module ReplayModes {
  import opened Ids
  import opened ReplayModel
  import opened ReplaySoundness

  /** Every visit is of the context itself, from operation n on, or of a context beneath such an operation. */
  ghost predicate VisitsIn(visits: seq<Visit>, path: Id, n: nat) {
    forall v :: v in visits ==>
      (v.segment.path == path && v.segment.n >= n) || In(v.segment.path, path, n)
  }

  ghost predicate VisitsUnder(visits: seq<Visit>, id: Id) {
    forall v :: v in visits ==> id <= v.segment.path
  }

  lemma {:induction false} ExecVisits(p: Program, fuel: nat, path: Id, n: nat, mode: Mode, inv: Invocation)
    ensures VisitsIn(Exec(p, fuel, path, n, mode, inv).visits, path, n)
    decreases fuel, 0
  {
    if (p.Invoke? || p.Child?) && fuel > 0 {
      var id := path + [n];
      var claimed := ClaimMode(mode, id, inv.log);
      var sub := Step(p, fuel - 1, id, claimed, inv);
      StepVisits(p, fuel - 1, id, claimed, inv);
      forall v | v in sub.visits ensures In(v.segment.path, path, n) {
        InSplits(v.segment.path, path, n);
      }
      if sub.end.Done? {
        ExecVisits(p.then_(sub.end.outcome), fuel - 1, path, n + 1, ObserveMode(claimed, id, inv), inv);
      }
    }
  }

  lemma {:induction false} StepVisits(p: Program, fuel: nat, id: Id, mode: Mode, inv: Invocation)
    requires p.Invoke? || p.Child?
    ensures VisitsUnder(Step(p, fuel, id, mode, inv).visits, id)
    decreases fuel, 1
  {
    if p.Child? {
      assert Step(p, fuel, id, mode, inv) == RunChild(p.name, p.subType, p.options, p.body, fuel, id, mode, inv);
      ExecVisits(p.body, fuel, id, 1, SucceededContext, inv);
      ExecVisits(p.body, fuel, id, 1, ChildReplayMode(id, Lookup(inv.log, id), inv.log), inv);
    }
  }

  /** Once code of a context ran live, all later code of that context in the invocation does. */
  ghost predicate LiveStaysLive(visits: seq<Visit>) {
    forall i, j :: 0 <= i < j < |visits| && visits[i].segment.path == visits[j].segment.path && visits[i].live ==>
      visits[j].live
  }

  ghost predicate LiveOn(visits: seq<Visit>, path: Id) {
    forall v :: v in visits && v.segment.path == path ==> v.live
  }

  lemma Concatenated(here: Visit, sub: seq<Visit>, tail: seq<Visit>, path: Id, n: nat)
    requires here.segment == Segment(path, n) && VisitsUnder(sub, path + [n]) && VisitsIn(tail, path, n + 1)
    requires LiveStaysLive(sub) && LiveStaysLive(tail) && (here.live ==> LiveOn(tail, path))
    ensures LiveStaysLive([here] + sub + tail)
    ensures here.live ==> LiveOn([here] + sub + tail, path)
  {
    var all := [here] + sub + tail;
    forall v, u | v in sub && u in tail ensures v.segment.path != u.segment.path {
      InSplits(u.segment.path, path, n);
      InSplits(v.segment.path, path, n);
    }
    assert forall k :: 0 < k < 1 + |sub| ==> all[k] in sub;
    assert forall k :: 1 + |sub| <= k < |all| ==> all[k] in tail;
    assert forall k :: 0 < k < 1 + |sub| ==> all[k] == sub[k - 1] && all[k].segment.path != path;
    assert forall k :: 1 + |sub| <= k < |all| ==> all[k] == tail[k - 1 - |sub|];
  }

  /** A context's mode only ever moves from replay to live, in every context of every invocation. */
  lemma {:induction false} ModeOnlyMovesToLive(p: Program, fuel: nat, path: Id, n: nat, mode: Mode, inv: Invocation)
    ensures LiveStaysLive(Exec(p, fuel, path, n, mode, inv).visits)
    ensures mode == Execution ==> LiveOn(Exec(p, fuel, path, n, mode, inv).visits, path)
    ensures mode == SucceededContext ==>
              forall v :: v in Exec(p, fuel, path, n, mode, inv).visits && v.segment.path == path ==> !v.live
    decreases fuel, 0
  {
    if (p.Invoke? || p.Child?) && fuel > 0 {
      var id := path + [n];
      var claimed := ClaimMode(mode, id, inv.log);
      var sub := Step(p, fuel - 1, id, claimed, inv);
      var here := Visit(Segment(path, n), mode == Execution);
      StepVisits(p, fuel - 1, id, claimed, inv);
      StepMovesToLive(p, fuel - 1, id, claimed, inv);
      if sub.end.Done? {
        var next := p.then_(sub.end.outcome);
        var later := ObserveMode(claimed, id, inv);
        ModeOnlyMovesToLive(next, fuel - 1, path, n + 1, later, inv);
        ExecVisits(next, fuel - 1, path, n + 1, later, inv);
        Concatenated(here, sub.visits, Exec(next, fuel - 1, path, n + 1, later, inv).visits, path, n);
      } else {
        Concatenated(here, sub.visits, [], path, n);
        assert [here] + sub.visits + [] == [here] + sub.visits;
      }
    }
  }

  lemma {:induction false} StepMovesToLive(p: Program, fuel: nat, id: Id, mode: Mode, inv: Invocation)
    requires p.Invoke? || p.Child?
    ensures LiveStaysLive(Step(p, fuel, id, mode, inv).visits)
    decreases fuel, 1
  {
    if p.Child? {
      assert Step(p, fuel, id, mode, inv) == RunChild(p.name, p.subType, p.options, p.body, fuel, id, mode, inv);
      ModeOnlyMovesToLive(p.body, fuel, id, 1, SucceededContext, inv);
      ModeOnlyMovesToLive(p.body, fuel, id, 1, ChildReplayMode(id, Lookup(inv.log, id), inv.log), inv);
    }
  }
}
