/** Code that changed under a history: whatever the log, operations are recorded in order, so a replay gets to each. */
module ReplayChanges {
  import opened Ids
  import opened ReplayModel
  import opened ReplaySoundness
  import opened ReplayHistories
  import opened ReplayLiveness
  import opened ReplayTwice
  import opened ReplayDivergence

  // ----- order of the log -----

  /** Nothing is recorded after an operation that is not complete, in any context that is not recorded itself. */
  ghost predicate Ordered(p: Program, fuel: nat, path: Id, n: nat, log: Log, w: World)
    requires Direct(p, fuel, path, n, w).Some?
    decreases fuel, 0
  {
    (p.Invoke? || p.Child?) ==>
      var id := path + [n];
      OrderedStep(p, fuel - 1, id, log, w) && (NoneFrom(log, path, n + 1) || WholeStep(p, fuel - 1, id, log, w)) &&
      Ordered(p.then_(DirectStep(p, fuel - 1, id, w).value), fuel - 1, path, n + 1, log, w)
  }

  ghost predicate OrderedStep(p: Program, fuel: nat, id: Id, log: Log, w: World)
    requires p.Invoke? || p.Child?
    requires DirectStep(p, fuel, id, w).Some?
    decreases fuel, 1
  {
    p.Child? && !(id in log && log[id].status.Terminal()) ==> Ordered(p.body, fuel, id, 1, log, w)
  }

  lemma {:induction false} OrderedFrame(p: Program, fuel: nat, path: Id, n: nat, a: Log, b: Log, w: World)
    requires Direct(p, fuel, path, n, w).Some? && Agree(a, b, path, n) && Ordered(p, fuel, path, n, a, w)
    ensures Ordered(p, fuel, path, n, b, w)
    decreases fuel, 0
  {
    if p.Invoke? || p.Child? {
      var id := path + [n];
      forall x ensures In(x, path, n) <==> id <= x || In(x, path, n + 1) { InSplits(x, path, n); }
      OrderedFrameStep(p, fuel - 1, id, a, b, w);
      NoneAgree(a, b, path, n + 1);
      if WholeStep(p, fuel - 1, id, a, w) {
        WholeFrameStep(p, fuel - 1, id, a, b, w);
      }
      OrderedFrame(p.then_(DirectStep(p, fuel - 1, id, w).value), fuel - 1, path, n + 1, a, b, w);
    }
  }

  lemma NoneAgree(a: Log, b: Log, path: Id, n: nat)
    requires Agree(a, b, path, n)
    ensures NoneFrom(a, path, n) == NoneFrom(b, path, n)
  {
    forall x ensures In(x, path, n) ==> (x in a <==> x in b) {
      assert In(x, path, n) ==> Same(a, b, x);
    }
  }

  lemma {:induction false} OrderedFrameStep(p: Program, fuel: nat, id: Id, a: Log, b: Log, w: World)
    requires p.Invoke? || p.Child?
    requires DirectStep(p, fuel, id, w).Some? && AgreeUnder(a, b, id) && OrderedStep(p, fuel, id, a, w)
    ensures OrderedStep(p, fuel, id, b, w)
    decreases fuel, 1
  {
    assert Same(a, b, id);
    if p.Child? && !(id in a && a[id].status.Terminal()) {
      assert forall x :: In(x, id, 1) ==> id <= x;
      OrderedFrame(p.body, fuel, id, 1, a, b, w);
    }
  }

  lemma {:induction false} NoneIsOrdered(p: Program, fuel: nat, path: Id, n: nat, log: Log, w: World)
    requires Direct(p, fuel, path, n, w).Some? && NoneFrom(log, path, n)
    ensures Ordered(p, fuel, path, n, log, w)
    decreases fuel
  {
    if p.Invoke? || p.Child? {
      var id := path + [n];
      forall x ensures In(x, path, n) <==> id <= x || In(x, path, n + 1) { InSplits(x, path, n); }
      if p.Child? {
        forall x ensures In(x, id, 1) ==> id <= x { InSplits(x, path, n); }
        NoneIsOrdered(p.body, fuel - 1, id, 1, log, w);
      }
      NoneIsOrdered(p.then_(DirectStep(p, fuel - 1, id, w).value), fuel - 1, path, n + 1, log, w);
    }
  }

  // ----- a complete operation is quiet -----

  lemma {:induction false} WholeIsQuiet(p: Program, fuel: nat, path: Id, n: nat, mode: Mode, inv: Invocation)
    requires mode != SucceededContext && Direct(p, fuel, path, n, inv.world).Some?
    requires Whole(p, fuel, path, n, inv.log, inv.world)
    ensures var r := Exec(p, fuel, path, n, mode, inv); r.violated || r.events == []
    decreases fuel, 0
  {
    if p.Invoke? || p.Child? {
      var id := path + [n];
      var claimed := ClaimMode(mode, id, inv.log);
      WholeStepReplays(p, fuel - 1, id, claimed, inv);
      WholeStepIsQuiet(p, fuel - 1, id, claimed, inv);
      if !Step(p, fuel - 1, id, claimed, inv).violated {
        WholeIsQuiet(p.then_(DirectStep(p, fuel - 1, id, inv.world).value), fuel - 1, path, n + 1,
                     ObserveMode(claimed, id, inv), inv);
      }
    }
  }

  lemma {:induction false} WholeStepIsQuiet(p: Program, fuel: nat, id: Id, mode: Mode, inv: Invocation)
    requires p.Invoke? || p.Child?
    requires mode != SucceededContext && DirectStep(p, fuel, id, inv.world).Some?
    requires WholeStep(p, fuel, id, inv.log, inv.world)
    ensures var r := Step(p, fuel, id, mode, inv); r.violated || r.events == []
    decreases fuel, 1
  {
    if p.Child? {
      var w := inv.world;
      var record := FinishRecord(p.name, p.subType, p.options, Direct(p.body, fuel, id, 1, w).value);
      var r := Step(p, fuel, id, mode, inv);
      assert r == RunChild(p.name, p.subType, p.options, p.body, fuel, id, mode, inv);
      if record.None? {
        var nested := ChildReplayMode(id, Lookup(inv.log, id), inv.log);
        WholeIsQuiet(p.body, fuel, id, 1, nested, inv);
        WholeReplays(p.body, fuel, id, 1, nested, inv);
      } else if record.value.replayChildren {
        Rerun(p.body, fuel, id, 1, inv);
      }
    }
  }

  // ----- invocations keep the order -----

  ghost predicate PrefixesOrdered(p: Program, fuel: nat, path: Id, n: nat, log: Log, events: seq<Event>, w: World)
    requires Direct(p, fuel, path, n, w).Some?
  {
    forall m :: 0 <= m <= |events| ==> Ordered(p, fuel, path, n, Apply(log, events[..m]), w)
  }

  ghost predicate PrefixesOrderedStep(p: Program, fuel: nat, id: Id, log: Log, events: seq<Event>, w: World)
    requires p.Invoke? || p.Child?
    requires DirectStep(p, fuel, id, w).Some?
  {
    forall m :: 0 <= m <= |events| ==> OrderedStep(p, fuel, id, Apply(log, events[..m]), w)
  }

  lemma OrderedSequenced(p: Program, fuel: nat, path: Id, n: nat, log: Log, head: seq<Event>, more: seq<Event>,
                         w: World)
    requires (p.Invoke? || p.Child?) && Direct(p, fuel, path, n, w).Some?
    requires forall e :: e in head ==> path + [n] <= e.id
    requires forall e :: e in more ==> In(e.id, path, n + 1)
    requires OrderedStep(p, fuel - 1, path + [n], Apply(log, head), w)
    requires NoneFrom(Apply(log, more), path, n + 1) || WholeStep(p, fuel - 1, path + [n], Apply(log, head), w)
    requires Ordered(p.then_(DirectStep(p, fuel - 1, path + [n], w).value), fuel - 1, path, n + 1, Apply(log, more), w)
    ensures Ordered(p, fuel, path, n, Apply(log, head + more), w)
  {
    var id, all := path + [n], Apply(log, head + more);
    Disjoint(log, id, path, n, head, more);
    OrderedFrameStep(p, fuel - 1, id, Apply(log, head), all, w);
    NoneAgree(Apply(log, more), all, path, n + 1);
    if WholeStep(p, fuel - 1, id, Apply(log, head), w) {
      WholeFrameStep(p, fuel - 1, id, Apply(log, head), all, w);
    }
    OrderedFrame(p.then_(DirectStep(p, fuel - 1, id, w).value), fuel - 1, path, n + 1, Apply(log, more), all, w);
  }

  lemma WholeSequenced(p: Program, fuel: nat, path: Id, n: nat, log: Log, head: seq<Event>, tail: seq<Event>, w: World)
    requires (p.Invoke? || p.Child?) && Direct(p, fuel, path, n, w).Some?
    requires forall e :: e in head ==> path + [n] <= e.id
    requires forall e :: e in tail ==> In(e.id, path, n + 1)
    requires WholeStep(p, fuel - 1, path + [n], Apply(log, head), w)
    requires Whole(p.then_(DirectStep(p, fuel - 1, path + [n], w).value), fuel - 1, path, n + 1, Apply(log, tail), w)
    ensures Whole(p, fuel, path, n, Apply(log, head + tail), w)
  {
    var id, all := path + [n], Apply(log, head + tail);
    Disjoint(log, id, path, n, head, tail);
    WholeFrameStep(p, fuel - 1, id, Apply(log, head), all, w);
    WholeFrame(p.then_(DirectStep(p, fuel - 1, id, w).value), fuel - 1, path, n + 1, Apply(log, tail), all, w);
  }

  /** What an invocation does to an ordered log. */
  ghost predicate KeepsOrder(p: Program, fuel: nat, path: Id, n: nat, inv: Invocation, r: Run)
    requires Direct(p, fuel, path, n, inv.world).Some?
  {
    PrefixesOrdered(p, fuel, path, n, inv.log, r.events, inv.world) &&
    (r.end.Done? ==> Whole(p, fuel, path, n, Apply(inv.log, r.events), inv.world))
  }

  ghost predicate KeepsOrderStep(p: Program, fuel: nat, id: Id, inv: Invocation, r: Run)
    requires p.Invoke? || p.Child?
    requires DirectStep(p, fuel, id, inv.world).Some?
  {
    PrefixesOrderedStep(p, fuel, id, inv.log, r.events, inv.world) &&
    (r.end.Done? ==> WholeStep(p, fuel, id, Apply(inv.log, r.events), inv.world))
  }

  lemma {:induction false} ExecKeepsOrder(p: Program, fuel: nat, path: Id, n: nat, mode: Mode, inv: Invocation)
    requires mode != SucceededContext && Direct(p, fuel, path, n, inv.world).Some?
    requires Fits(p, fuel, path, n, inv.log, inv.world) && RepeatsClose(p, fuel, path, n, inv.log, inv.world)
    requires Ordered(p, fuel, path, n, inv.log, inv.world)
    ensures KeepsOrder(p, fuel, path, n, inv, Exec(p, fuel, path, n, mode, inv))
    decreases fuel, 0
  {
    if p.Invoke? || p.Child? {
      var id := path + [n];
      var claimed := ClaimMode(mode, id, inv.log);
      var sub := Step(p, fuel - 1, id, claimed, inv);
      OneStep(p, fuel - 1, id, claimed, inv);
      StepKeepsOrder(p, fuel - 1, id, claimed, inv);
      if sub.end.Done? {
        ExecKeepsOrder(p.then_(DirectStep(p, fuel - 1, id, inv.world).value), fuel - 1, path, n + 1,
                       ObserveMode(claimed, id, inv), inv);
        PastHeadOrdered(p, fuel, path, n, mode, inv);
      } else {
        AtHeadOrdered(p, fuel, path, n, claimed, inv, |sub.events|);
        InHeadOrdered(p, fuel, path, n, mode, inv);
      }
    }
  }

  /** While the head runs, nothing is recorded beyond it, or it records nothing. */
  lemma AtHeadOrdered(p: Program, fuel: nat, path: Id, n: nat, claimed: Mode, inv: Invocation, m: nat)
    requires (p.Invoke? || p.Child?) && claimed != SucceededContext && Direct(p, fuel, path, n, inv.world).Some?
    requires Ordered(p, fuel, path, n, inv.log, inv.world)
    requires var sub := Step(p, fuel - 1, path + [n], claimed, inv);
             !sub.violated && m <= |sub.events| &&
             PrefixesOrderedStep(p, fuel - 1, path + [n], inv.log, sub.events, inv.world)
    ensures Ordered(p, fuel, path, n, Apply(inv.log, Step(p, fuel - 1, path + [n], claimed, inv).events[..m]),
                    inv.world)
  {
    var id := path + [n];
    var sub := Step(p, fuel - 1, id, claimed, inv);
    var head := sub.events[..m];
    StepWritesUnder(p, fuel - 1, id, claimed, inv);
    if WholeStep(p, fuel - 1, id, inv.log, inv.world) {
      WholeStepIsQuiet(p, fuel - 1, id, claimed, inv);
    }
    assert head + [] == head && Apply(inv.log, []) == inv.log;
    OrderedSequenced(p, fuel, path, n, inv.log, head, [], inv.world);
  }

  lemma InHeadOrdered(p: Program, fuel: nat, path: Id, n: nat, mode: Mode, inv: Invocation)
    requires (p.Invoke? || p.Child?) && mode != SucceededContext && Direct(p, fuel, path, n, inv.world).Some?
    requires Ordered(p, fuel, path, n, inv.log, inv.world)
    requires var sub := Step(p, fuel - 1, path + [n], ClaimMode(mode, path + [n], inv.log), inv);
             !sub.violated && !sub.end.Done? &&
             PrefixesOrderedStep(p, fuel - 1, path + [n], inv.log, sub.events, inv.world)
    ensures KeepsOrder(p, fuel, path, n, inv, Exec(p, fuel, path, n, mode, inv))
  {
    var claimed := ClaimMode(mode, path + [n], inv.log);
    var r, sub := Exec(p, fuel, path, n, mode, inv), Step(p, fuel - 1, path + [n], claimed, inv);
    assert r.events == sub.events && r.end == sub.end;
    forall m | 0 <= m <= |r.events| ensures Ordered(p, fuel, path, n, Apply(inv.log, r.events[..m]), inv.world) {
      AtHeadOrdered(p, fuel, path, n, claimed, inv, m);
    }
  }

  lemma PastHeadOrdered(p: Program, fuel: nat, path: Id, n: nat, mode: Mode, inv: Invocation)
    requires (p.Invoke? || p.Child?) && mode != SucceededContext && Direct(p, fuel, path, n, inv.world).Some?
    requires Ordered(p, fuel, path, n, inv.log, inv.world)
    requires var id := path + [n]; var claimed := ClaimMode(mode, id, inv.log);
             var sub := Step(p, fuel - 1, id, claimed, inv);
             var rest := p.then_(DirectStep(p, fuel - 1, id, inv.world).value);
             !sub.violated && sub.end == Done(DirectStep(p, fuel - 1, id, inv.world).value) &&
             KeepsOrderStep(p, fuel - 1, id, inv, sub) &&
             KeepsOrder(rest, fuel - 1, path, n + 1, inv,
                        Exec(rest, fuel - 1, path, n + 1, ObserveMode(claimed, id, inv), inv))
    ensures KeepsOrder(p, fuel, path, n, inv, Exec(p, fuel, path, n, mode, inv))
  {
    var id, w := path + [n], inv.world;
    var claimed := ClaimMode(mode, id, inv.log);
    var sub := Step(p, fuel - 1, id, claimed, inv);
    var rest := p.then_(DirectStep(p, fuel - 1, id, w).value);
    var tail := Exec(rest, fuel - 1, path, n + 1, ObserveMode(claimed, id, inv), inv);
    var r := Exec(p, fuel, path, n, mode, inv);
    StepWritesUnder(p, fuel - 1, id, claimed, inv);
    WritesIn(rest, fuel - 1, path, n + 1, ObserveMode(claimed, id, inv), inv);
    assert r.events == sub.events + tail.events && r.end == tail.end;
    forall m | 0 <= m <= |r.events| ensures Ordered(p, fuel, path, n, Apply(inv.log, r.events[..m]), w) {
      if m <= |sub.events| {
        assert r.events[..m] == sub.events[..m];
        AtHeadOrdered(p, fuel, path, n, claimed, inv, m);
      } else {
        OrderedBeyond(p, fuel, path, n, inv.log, sub.events, tail.events, w, m);
      }
    }
    if r.end.Done? {
      WholeSequenced(p, fuel, path, n, inv.log, sub.events, tail.events, w);
    }
  }

  lemma OrderedBeyond(p: Program, fuel: nat, path: Id, n: nat, log: Log, head: seq<Event>, tail: seq<Event>, w: World,
                      m: nat)
    requires (p.Invoke? || p.Child?) && Direct(p, fuel, path, n, w).Some? && |head| < m <= |head| + |tail|
    requires forall e :: e in head ==> path + [n] <= e.id
    requires forall e :: e in tail ==> In(e.id, path, n + 1)
    requires PrefixesOrderedStep(p, fuel - 1, path + [n], log, head, w)
    requires WholeStep(p, fuel - 1, path + [n], Apply(log, head), w)
    requires PrefixesOrdered(p.then_(DirectStep(p, fuel - 1, path + [n], w).value), fuel - 1, path, n + 1, log, tail, w)
    ensures Ordered(p, fuel, path, n, Apply(log, (head + tail)[..m]), w)
  {
    var more := tail[..m - |head|];
    assert (head + tail)[..m] == head + more && head[..|head|] == head;
    OrderedSequenced(p, fuel, path, n, log, head, more, w);
  }

  lemma {:induction false} StepKeepsOrder(p: Program, fuel: nat, id: Id, mode: Mode, inv: Invocation)
    requires (p.Invoke? || p.Child?) && mode != SucceededContext && DirectStep(p, fuel, id, inv.world).Some?
    requires FitsStep(p, fuel, id, inv.log, inv.world) && RepeatsCloseStep(p, fuel, id, inv.log, inv.world)
    requires OrderedStep(p, fuel, id, inv.log, inv.world)
    ensures KeepsOrderStep(p, fuel, id, inv, Step(p, fuel, id, mode, inv))
    decreases fuel, 1
  {
    var r := Step(p, fuel, id, mode, inv);
    OneStep(p, fuel, id, mode, inv);
    if p.Child? {
      assert r == RunChild(p.name, p.subType, p.options, p.body, fuel, id, mode, inv);
      if id in inv.log && inv.log[id].status.Terminal() {
        if inv.log[id].replayChildren {
          Rerun(p.body, fuel, id, 1, inv);
        }
        assert r.events == [] && Apply(inv.log, []) == inv.log;
      } else {
        ExecKeepsOrder(p.body, fuel, id, 1, ChildReplayMode(id, Lookup(inv.log, id), inv.log), inv);
        OneInvocation(p.body, fuel, id, 1, ChildReplayMode(id, Lookup(inv.log, id), inv.log), inv);
        BodyKeepsOrder(p, fuel, id, mode, inv);
      }
    }
  }

  /** What the code says of an unfinished child whose body kept the order. */
  ghost predicate BodyRan(p: Program, fuel: nat, id: Id, inv: Invocation)
    requires p.Child? && DirectStep(p, fuel, id, inv.world).Some?
  {
    var nested := Exec(p.body, fuel, id, 1, ChildReplayMode(id, Lookup(inv.log, id), inv.log), inv);
    !(id in inv.log && inv.log[id].status.Terminal()) && FitsStep(p, fuel, id, inv.log, inv.world) &&
    OrderedStep(p, fuel, id, inv.log, inv.world) && !nested.violated &&
    KeepsOrder(p.body, fuel, id, 1, inv, nested) && Faithful(p.body, fuel, id, 1, inv, nested)
  }

  lemma BodyPrefixOrdered(p: Program, fuel: nat, id: Id, inv: Invocation, m: nat)
    requires p.Child? && DirectStep(p, fuel, id, inv.world).Some? && BodyRan(p, fuel, id, inv)
    requires var nested := Exec(p.body, fuel, id, 1, ChildReplayMode(id, Lookup(inv.log, id), inv.log), inv);
             m <= |Opening(p, id, inv.log) + nested.events|
    ensures var nested := Exec(p.body, fuel, id, 1, ChildReplayMode(id, Lookup(inv.log, id), inv.log), inv);
            OrderedStep(p, fuel, id, Apply(inv.log, (Opening(p, id, inv.log) + nested.events)[..m]), inv.world)
  {
    var w, log, begin := inv.world, inv.log, Opening(p, id, inv.log);
    var mode := ChildReplayMode(id, Lookup(log, id), log);
    var nested := Exec(p.body, fuel, id, 1, mode, inv);
    if m < |begin| {
      assert (begin + nested.events)[..m] == [];
    } else {
      var some := nested.events[..m - |begin|];
      assert (begin + nested.events)[..m] == begin + some;
      WritesIn(p.body, fuel, id, 1, mode, inv);
      Beneath(log, id, ContextStarted(p.name, p.subType), begin, some);
      OrderedFrame(p.body, fuel, id, 1, Apply(log, some), Apply(log, begin + some), w);
    }
  }

  /** A child that ends without a final record leaves its START and all that its body recorded. */
  lemma UnrecordedIsWhole(p: Program, fuel: nat, id: Id, inv: Invocation)
    requires p.Child? && DirectStep(p, fuel, id, inv.world).Some? && BodyRan(p, fuel, id, inv)
    requires Exec(p.body, fuel, id, 1, ChildReplayMode(id, Lookup(inv.log, id), inv.log), inv).end.Done?
    ensures var nested := Exec(p.body, fuel, id, 1, ChildReplayMode(id, Lookup(inv.log, id), inv.log), inv);
            var after := Apply(inv.log, Opening(p, id, inv.log) + nested.events);
            id in after && Whole(p.body, fuel, id, 1, after, inv.world)
  {
    var w, log, begin := inv.world, inv.log, Opening(p, id, inv.log);
    var mode := ChildReplayMode(id, Lookup(log, id), log);
    var nested := Exec(p.body, fuel, id, 1, mode, inv);
    WritesIn(p.body, fuel, id, 1, mode, inv);
    Beneath(log, id, ContextStarted(p.name, p.subType), begin, nested.events);
    WholeFrame(p.body, fuel, id, 1, Apply(log, nested.events), Apply(log, begin + nested.events), w);
  }

  lemma ChildEvents(p: Program, fuel: nat, id: Id, mode: Mode, inv: Invocation)
    requires p.Child? && mode != SucceededContext && DirectStep(p, fuel, id, inv.world).Some? &&
             BodyRan(p, fuel, id, inv)
    ensures var nested := Exec(p.body, fuel, id, 1, ChildReplayMode(id, Lookup(inv.log, id), inv.log), inv);
            var r := Step(p, fuel, id, mode, inv);
            var record := FinishRecord(p.name, p.subType, p.options, Direct(p.body, fuel, id, 1, inv.world).value);
            var finish := if nested.end.Done? && record.Some? then [Event(Finish, id, record.value)] else [];
            r.events == (Opening(p, id, inv.log) + nested.events) + finish && (r.end.Done? <==> nested.end.Done?)
  {
    assert Step(p, fuel, id, mode, inv) == RunChild(p.name, p.subType, p.options, p.body, fuel, id, mode, inv);
  }

  lemma BodyKeepsOrder(p: Program, fuel: nat, id: Id, mode: Mode, inv: Invocation)
    requires p.Child? && mode != SucceededContext && DirectStep(p, fuel, id, inv.world).Some? &&
             BodyRan(p, fuel, id, inv)
    requires var r := Step(p, fuel, id, mode, inv); !r.violated && FaithfulStep(p, fuel, id, inv, r)
    ensures KeepsOrderStep(p, fuel, id, inv, Step(p, fuel, id, mode, inv))
  {
    var nested := Exec(p.body, fuel, id, 1, ChildReplayMode(id, Lookup(inv.log, id), inv.log), inv);
    var r, open := Step(p, fuel, id, mode, inv), Opening(p, id, inv.log) + nested.events;
    ChildEvents(p, fuel, id, mode, inv);
    forall m | 0 <= m <= |r.events| ensures OrderedStep(p, fuel, id, Apply(inv.log, r.events[..m]), inv.world) {
      if m <= |open| {
        assert r.events[..m] == open[..m];
        BodyPrefixOrdered(p, fuel, id, inv, m);
      } else {
        assert r.events[..m] == r.events && CompleteStep(p, fuel, id, Apply(inv.log, r.events), inv.world);
      }
    }
    if r.end.Done? {
      UnrecordedIsWhole(p, fuel, id, inv);
      assert open + [] == open;
    }
  }

  // ----- the service keeps the order -----

  lemma {:induction false} ServiceKeepsWhole(p: Program, fuel: nat, path: Id, n: nat, a: Log, b: Log, w: World)
    requires Direct(p, fuel, path, n, w).Some? && ServiceActs(a, b, w) && Unshadowed(a, path)
    requires Whole(p, fuel, path, n, a, w)
    ensures Whole(p, fuel, path, n, b, w)
    decreases fuel, 0
  {
    if p.Invoke? || p.Child? {
      var id := path + [n];
      UnshadowedStep(a, path, n);
      ServiceKeepsWholeStep(p, fuel - 1, id, a, b, w);
      ServiceKeepsWhole(p.then_(DirectStep(p, fuel - 1, id, w).value), fuel - 1, path, n + 1, a, b, w);
    }
  }

  lemma {:induction false} ServiceKeepsWholeStep(p: Program, fuel: nat, id: Id, a: Log, b: Log, w: World)
    requires (p.Invoke? || p.Child?) && DirectStep(p, fuel, id, w).Some? && ServiceActs(a, b, w)
    requires !Shadowed(a, id) && (!StoredResult(a, id) ==> Unshadowed(a, id)) && WholeStep(p, fuel, id, a, w)
    ensures WholeStep(p, fuel, id, b, w)
    decreases fuel, 1
  {
    ServiceKeepsStep(p, fuel, id, a, b, w);
    if p.Child? && FinishRecord(p.name, p.subType, p.options, Direct(p.body, fuel, id, 1, w).value).None? {
      ServiceKeepsWhole(p.body, fuel, id, 1, a, b, w);
    }
  }

  lemma {:induction false} ServiceKeepsOrder(p: Program, fuel: nat, path: Id, n: nat, a: Log, b: Log, w: World)
    requires Direct(p, fuel, path, n, w).Some? && ServiceActs(a, b, w) && Unshadowed(a, path)
    requires Ordered(p, fuel, path, n, a, w)
    ensures Ordered(p, fuel, path, n, b, w)
    decreases fuel, 0
  {
    if p.Invoke? || p.Child? {
      var id := path + [n];
      UnshadowedStep(a, path, n);
      ServiceKeepsOrderStep(p, fuel - 1, id, a, b, w);
      if WholeStep(p, fuel - 1, id, a, w) {
        ServiceKeepsWholeStep(p, fuel - 1, id, a, b, w);
      }
      ServiceKeepsOrder(p.then_(DirectStep(p, fuel - 1, id, w).value), fuel - 1, path, n + 1, a, b, w);
    }
  }

  lemma {:induction false} ServiceKeepsOrderStep(p: Program, fuel: nat, id: Id, a: Log, b: Log, w: World)
    requires (p.Invoke? || p.Child?) && DirectStep(p, fuel, id, w).Some? && ServiceActs(a, b, w)
    requires !Shadowed(a, id) && (!StoredResult(a, id) ==> Unshadowed(a, id)) && OrderedStep(p, fuel, id, a, w)
    ensures OrderedStep(p, fuel, id, b, w)
    decreases fuel, 1
  {
    if p.Child? && !(id in b && b[id].status.Terminal()) {
      ServiceKeepsOrder(p.body, fuel, id, 1, a, b, w);
    }
  }

  /** Every log that any history reaches records operations in order. */
  lemma {:induction false} ReachableIsOrdered(p: Program, fuel: nat, w: World, turns: seq<Turn>, logs: seq<Log>, i: nat)
    requires Direct(p, fuel, [], 1, w).Some? && Rerunnable(p, fuel, [], 1, w)
    requires History(p, fuel, w, turns, logs) && i < |logs|
    ensures Ordered(p, fuel, [], 1, logs[i], w)
  {
    if i == 0 {
      NoneIsOrdered(p, fuel, [], 1, logs[0], w);
    } else {
      ReachableIsOrdered(p, fuel, w, turns, logs, i - 1);
      ReachableFits(p, fuel, w, turns, logs, i - 1);
      var a, b := logs[i - 1], logs[i];
      assert Takes(p, fuel, w, turns[i - 1], a, b);
      match turns[i - 1]
      case Invokes(updated, wakes, kept) =>
        var inv := Invocation(a, updated, wakes, w);
        RerunnableRepeats(p, fuel, [], 1, a, w);
        ExecKeepsOrder(p, fuel, [], 1, RootMode(a), inv);
        assert b == Apply(a, Invoked(p, fuel, inv).events[..kept]);
      case Serves => ServiceKeepsOrder(p, fuel, [], 1, a, b, w);
    }
  }

  // ----- what a replay gets to -----

  /** A recorded result of an enclosing context spares the way to x. */
  ghost predicate Spared(log: Log, x: Id) {
    exists k: nat :: k < |x| && x[..k] in log && log[x[..k]].status.Terminal() && !log[x[..k]].replayChildren
  }

  lemma {:induction false} DiffersIn(p: Program, q: Program, fuel: nat, path: Id, n: nat, w: World, x: Id)
    requires Direct(p, fuel, path, n, w).Some? && DiffersAt(p, q, fuel, path, n, w, x)
    ensures In(x, path, n)
    decreases fuel
  {
    var id := path + [n];
    InSplits(x, path, n);
    if !(id <= x) {
      var d := DirectStep(p, fuel - 1, id, w).value;
      DiffersIn(p.then_(d), q.then_(d), fuel - 1, path, n + 1, w, x);
    }
  }

  lemma NotSpared(log: Log, id: Id, x: Id)
    requires id <= x && id != x && !Spared(log, x) && id in log && log[id].status.Terminal()
    ensures log[id].replayChildren
  {
    assert x[..|id|] == id;
  }

  lemma {:induction false} CompleteReaches(p: Program, q: Program, fuel: nat, path: Id, n: nat, log: Log, w: World,
                                           x: Id)
    requires Direct(p, fuel, path, n, w).Some? && DiffersAt(p, q, fuel, path, n, w, x)
    requires Complete(p, fuel, path, n, log, w) && Closes(p, fuel, path, n, w) && x in log && !Spared(log, x)
    ensures Reached(p, fuel, path, n, log, w, x)
    decreases fuel
  {
    var id := path + [n];
    if id <= x && x != id {
      NotSpared(log, id, x);
      CompleteReaches(p.body, q.body, fuel - 1, id, 1, log, w, x);
    } else if x != id {
      var d := DirectStep(p, fuel - 1, id, w).value;
      CompleteReaches(p.then_(d), q.then_(d), fuel - 1, path, n + 1, log, w, x);
    }
  }

  lemma {:induction false} OrderedReaches(p: Program, q: Program, fuel: nat, path: Id, n: nat, log: Log, w: World,
                                          x: Id)
    requires Direct(p, fuel, path, n, w).Some? && DiffersAt(p, q, fuel, path, n, w, x)
    requires Ordered(p, fuel, path, n, log, w) && Fits(p, fuel, path, n, log, w) && Rerunnable(p, fuel, path, n, w)
    requires x in log && !Spared(log, x)
    ensures Reached(p, fuel, path, n, log, w, x)
    decreases fuel
  {
    var id := path + [n];
    if id <= x && x != id {
      if id in log && log[id].status.Terminal() {
        NotSpared(log, id, x);
        CompleteReaches(p.body, q.body, fuel - 1, id, 1, log, w, x);
      } else {
        OrderedReaches(p.body, q.body, fuel - 1, id, 1, log, w, x);
      }
    } else if x != id {
      var d := DirectStep(p, fuel - 1, id, w).value;
      DiffersIn(p.then_(d), q.then_(d), fuel - 1, path, n + 1, w, x);
      OrderedReaches(p.then_(d), q.then_(d), fuel - 1, path, n + 1, log, w, x);
    }
  }

  /**
    Whatever history of p wrote the log, code that first differs from p at an operation recorded there, in its kind or
    its name, reports divergence, unless the recorded result of an enclosing context spares it the operation.
   */
  lemma ChangedCodeDiverges(p: Program, q: Program, fuel: nat, w: World, turns: seq<Turn>, logs: seq<Log>, i: nat,
                            inv: Invocation, x: Id)
    requires Direct(p, fuel, [], 1, w).Some? && Rerunnable(p, fuel, [], 1, w)
    requires History(p, fuel, w, turns, logs) && i < |logs| && inv.log == logs[i] && inv.world == w
    requires DiffersAt(p, q, fuel, [], 1, w, x) && x in logs[i] && !Spared(logs[i], x)
    ensures Invoked(q, fuel, inv).violated
  {
    ReachableFits(p, fuel, w, turns, logs, i);
    ReachableIsOrdered(p, fuel, w, turns, logs, i);
    OrderedReaches(p, q, fuel, [], 1, logs[i], w, x);
    ReachedDiverges(p, q, fuel, [], 1, RootMode(inv.log), inv, x);
  }
}
