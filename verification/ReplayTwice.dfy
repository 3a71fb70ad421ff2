/**
  When code runs live twice, or a re-run diverges: every handler that is not calm has a crash-free pair of
  invocations that shows it.

  The first invocation is answered everywhere but at one invoke, `y`; the second begins once `y` was answered and
  lists it as updated.
 */
module ReplayTwice {
  import opened Ids
  import opened ReplayModel
  import opened ReplaySoundness
  import opened ReplayHistories
  import opened ReplayLiveness
  import opened ReplayStops

  function But(log: Log, y: Id, w: World): Invocation {
    Invocation(log, {}, (id: Id) => id != y, w)
  }

  /** The invocation after one that left log and stopped at y. */
  function AnsweredAt(log: Log, y: Id, w: World): Invocation {
    Invocation(if y in log then log[y := Settled(log[y], w(y))] else log, {y}, (id: Id) => true, w)
  }

  /** The logs agree on the context from operation n on, but for y. */
  ghost predicate AgreeBut(a: Log, b: Log, path: Id, n: nat, y: Id) {
    forall x :: In(x, path, n) && x != y ==> Same(a, b, x)
  }

  // ----- what is not awaited does not matter -----

  ghost predicate WakeAlike(i: Invocation, j: Invocation, path: Id, n: nat) {
    forall id :: In(id, path, n) ==> i.wakes(id) == j.wakes(id)
  }

  lemma {:induction false} ExecWakes(p: Program, fuel: nat, path: Id, n: nat, mode: Mode, i: Invocation, j: Invocation)
    requires j == i.(wakes := j.wakes) && WakeAlike(i, j, path, n)
    ensures Exec(p, fuel, path, n, mode, i) == Exec(p, fuel, path, n, mode, j)
    decreases fuel, 0
  {
    if (p.Invoke? || p.Child?) && fuel > 0 {
      var id := path + [n];
      forall x ensures In(x, path, n) <==> id <= x || In(x, path, n + 1) { InSplits(x, path, n); }
      var claimed := ClaimMode(mode, id, i.log);
      StepWakes(p, fuel - 1, id, claimed, i, j);
      var sub := Step(p, fuel - 1, id, claimed, i);
      if sub.end.Done? {
        ExecWakes(p.then_(sub.end.outcome), fuel - 1, path, n + 1, ObserveMode(claimed, id, i), i, j);
      }
    }
  }

  lemma {:induction false} StepWakes(p: Program, fuel: nat, id: Id, mode: Mode, i: Invocation, j: Invocation)
    requires p.Invoke? || p.Child?
    requires j == i.(wakes := j.wakes) && forall x :: id <= x ==> i.wakes(x) == j.wakes(x)
    ensures Step(p, fuel, id, mode, i) == Step(p, fuel, id, mode, j)
    decreases fuel, 2
  {
    if p.Child? {
      assert forall x :: In(x, id, 1) ==> id <= x;
      var op := Lookup(i.log, id);
      ExecWakes(p.body, fuel, id, 1, SucceededContext, i, j);
      ExecWakes(p.body, fuel, id, 1, ChildReplayMode(id, op, i.log), i, j);
      assert Step(p, fuel, id, mode, i) == RunChild(p.name, p.subType, p.options, p.body, fuel, id, mode, i);
      assert Step(p, fuel, id, mode, j) == RunChild(p.name, p.subType, p.options, p.body, fuel, id, mode, j);
    }
  }

  /** The head operation of a first invocation that waits for nothing beneath it. */
  lemma HeadIsLive(p: Program, fuel: nat, path: Id, n: nat, y: Id, w: World)
    requires (p.Invoke? || p.Child?) && Direct(p, fuel, path, n, w).Some? && !(path + [n] <= y)
    ensures var r := Step(p, fuel - 1, path + [n], Execution, But(map[], y, w));
            r.events == LiveStepEvents(p, fuel - 1, path + [n], w) &&
            r.end == Done(DirectStep(p, fuel - 1, path + [n], w).value)
    ensures CompleteStep(p, fuel - 1, path + [n], Apply(map[], LiveStepEvents(p, fuel - 1, path + [n], w)), w)
    ensures FitsStep(p, fuel - 1, path + [n], Apply(map[], LiveStepEvents(p, fuel - 1, path + [n], w)), w)
  {
    var id := path + [n];
    EmptyLogFits(p, fuel, path, n, w);
    StepWakes(p, fuel - 1, id, Execution, But(map[], y, w), Awake(map[], w));
    OneStep(p, fuel - 1, id, Execution, Awake(map[], w));
    var events := LiveStepEvents(p, fuel - 1, id, w);
    assert events[..|events|] == events;
  }

  // ----- where the first invocation stops -----

  /** The first invoke the direct run awaits. */
  ghost function FirstAwait(p: Program, fuel: nat, path: Id, n: nat, w: World): Id
    requires Direct(p, fuel, path, n, w).Some? && MaySuspend(p, fuel, path, n, w)
    decreases fuel
  {
    var id := path + [n];
    if MaySuspendStep(p, fuel - 1, id, w) then
      if p.Child? then FirstAwait(p.body, fuel - 1, id, 1, w) else id
    else FirstAwait(p.then_(DirectStep(p, fuel - 1, id, w).value), fuel - 1, path, n + 1, w)
  }

  lemma {:induction false} FirstAwaitIn(p: Program, fuel: nat, path: Id, n: nat, w: World)
    requires Direct(p, fuel, path, n, w).Some? && MaySuspend(p, fuel, path, n, w)
    ensures In(FirstAwait(p, fuel, path, n, w), path, n)
    decreases fuel
  {
    var id := path + [n];
    InSplits(FirstAwait(p, fuel, path, n, w), path, n);
    if !MaySuspendStep(p, fuel - 1, id, w) {
      FirstAwaitIn(p.then_(DirectStep(p, fuel - 1, id, w).value), fuel - 1, path, n + 1, w);
    } else if p.Child? {
      FirstAwaitIn(p.body, fuel - 1, id, 1, w);
      InSplits(FirstAwait(p, fuel, path, n, w), path, n);
    }
  }

  function First(p: Program, fuel: nat, path: Id, n: nat, y: Id, w: World): Run {
    Exec(p, fuel, path, n, Execution, But(map[], y, w))
  }

  /** A first run that stops beyond its head: the head's updates, then the rest's. */
  lemma FirstPastHead(p: Program, fuel: nat, path: Id, n: nat, y: Id, w: World)
    requires (p.Invoke? || p.Child?) && Direct(p, fuel, path, n, w).Some? && !(path + [n] <= y)
    ensures var id := path + [n]; var rest := p.then_(DirectStep(p, fuel - 1, id, w).value);
            var r, tail := First(p, fuel, path, n, y, w), First(rest, fuel - 1, path, n + 1, y, w);
            r.events == LiveStepEvents(p, fuel - 1, id, w) + tail.events && r.end == tail.end &&
            forall v :: v in tail.visits ==> v in r.visits
  {
    HeadIsLive(p, fuel, path, n, y, w);
  }

  /** A first run that stops inside its head, a child. */
  lemma FirstInsideHead(p: Program, fuel: nat, path: Id, n: nat, y: Id, w: World)
    requires p.Child? && Direct(p, fuel, path, n, w).Some?
    requires First(p.body, fuel - 1, path + [n], 1, y, w).end == Suspended
    ensures var id := path + [n];
            var r, sub := First(p, fuel, path, n, y, w), First(p.body, fuel - 1, id, 1, y, w);
            r.end == Suspended && r.events == [Event(Start, id, ContextStarted(p.name, p.subType))] + sub.events &&
            forall v :: v in sub.visits ==> v in r.visits
  {
    var id, inv := path + [n], But(map[], y, w);
    assert ChildReplayMode(id, None, map[]) == Execution;
    assert Step(p, fuel - 1, id, Execution, inv) ==
           RunChild(p.name, p.subType, p.options, p.body, fuel - 1, id, Execution, inv);
  }

  lemma {:induction false} StopsAtFirstAwait(p: Program, fuel: nat, path: Id, n: nat, w: World)
    requires Direct(p, fuel, path, n, w).Some? && MaySuspend(p, fuel, path, n, w)
    ensures First(p, fuel, path, n, FirstAwait(p, fuel, path, n, w), w).end == Suspended
    decreases fuel
  {
    var id, y := path + [n], FirstAwait(p, fuel, path, n, w);
    if !MaySuspendStep(p, fuel - 1, id, w) {
      var rest := p.then_(DirectStep(p, fuel - 1, id, w).value);
      FirstAwaitIn(rest, fuel - 1, path, n + 1, w);
      InSplits(y, path, n);
      FirstPastHead(p, fuel, path, n, y, w);
      StopsAtFirstAwait(rest, fuel - 1, path, n + 1, w);
    } else if p.Child? {
      StopsAtFirstAwait(p.body, fuel - 1, id, 1, w);
      FirstInsideHead(p, fuel, path, n, y, w);
    } else {
      assert Step(p, fuel - 1, id, Execution, But(map[], y, w)) ==
             RunInvoke(p.name, p.invoke, id, Execution, But(map[], y, w));
    }
  }

  // ----- a log that records a whole run -----

  /** The log holds every final record the direct run writes, beneath children that write none too. */
  ghost predicate Whole(p: Program, fuel: nat, path: Id, n: nat, log: Log, w: World)
    requires Direct(p, fuel, path, n, w).Some?
    decreases fuel, 0
  {
    (p.Invoke? || p.Child?) ==>
      WholeStep(p, fuel - 1, path + [n], log, w) &&
      Whole(p.then_(DirectStep(p, fuel - 1, path + [n], w).value), fuel - 1, path, n + 1, log, w)
  }

  ghost predicate WholeStep(p: Program, fuel: nat, id: Id, log: Log, w: World)
    requires p.Invoke? || p.Child?
    requires DirectStep(p, fuel, id, w).Some?
    decreases fuel, 1
  {
    CompleteStep(p, fuel, id, log, w) &&
    (p.Child? && FinishRecord(p.name, p.subType, p.options, Direct(p.body, fuel, id, 1, w).value).None? ==>
      id in log && Whole(p.body, fuel, id, 1, log, w))
  }

  lemma {:induction false} WholeFrame(p: Program, fuel: nat, path: Id, n: nat, a: Log, b: Log, w: World)
    requires Direct(p, fuel, path, n, w).Some? && Agree(a, b, path, n) && Whole(p, fuel, path, n, a, w)
    ensures Whole(p, fuel, path, n, b, w)
    decreases fuel, 0
  {
    if p.Invoke? || p.Child? {
      var id := path + [n];
      forall x ensures In(x, path, n) <==> id <= x || In(x, path, n + 1) { InSplits(x, path, n); }
      WholeFrameStep(p, fuel - 1, id, a, b, w);
      WholeFrame(p.then_(DirectStep(p, fuel - 1, id, w).value), fuel - 1, path, n + 1, a, b, w);
    }
  }

  lemma {:induction false} WholeFrameStep(p: Program, fuel: nat, id: Id, a: Log, b: Log, w: World)
    requires p.Invoke? || p.Child?
    requires DirectStep(p, fuel, id, w).Some? && AgreeUnder(a, b, id) && WholeStep(p, fuel, id, a, w)
    ensures WholeStep(p, fuel, id, b, w)
    decreases fuel, 1
  {
    FrameStep(p, fuel, id, a, b, w);
    if p.Child? && FinishRecord(p.name, p.subType, p.options, Direct(p.body, fuel, id, 1, w).value).None? {
      assert Same(a, b, id) && forall x :: In(x, id, 1) ==> id <= x;
      WholeFrame(p.body, fuel, id, 1, a, b, w);
    }
  }

  lemma {:induction false} LiveLeavesWhole(p: Program, fuel: nat, path: Id, n: nat, w: World)
    requires Direct(p, fuel, path, n, w).Some?
    ensures Whole(p, fuel, path, n, Apply(map[], LiveEvents(p, fuel, path, n, w)), w)
    decreases fuel, 1
  {
    if p.Invoke? || p.Child? {
      var id := path + [n];
      var rest := p.then_(DirectStep(p, fuel - 1, id, w).value);
      var head, tail := LiveStepEvents(p, fuel - 1, id, w), LiveEvents(rest, fuel - 1, path, n + 1, w);
      LiveSplits(p, fuel, path, n, w);
      StepWritesUnder(p, fuel - 1, id, Execution, Awake(map[], w));
      WritesIn(rest, fuel - 1, path, n + 1, Execution, Awake(map[], w));
      Disjoint(map[], id, path, n, head, tail);
      LiveStepLeavesWhole(p, fuel, path, n, w);
      LiveLeavesWhole(rest, fuel - 1, path, n + 1, w);
      WholeFrameStep(p, fuel - 1, id, Apply(map[], head), Apply(map[], head + tail), w);
      WholeFrame(rest, fuel - 1, path, n + 1, Apply(map[], tail), Apply(map[], head + tail), w);
    }
  }

  lemma {:induction false} LiveStepLeavesWhole(p: Program, fuel: nat, path: Id, n: nat, w: World)
    requires (p.Invoke? || p.Child?) && Direct(p, fuel, path, n, w).Some?
    ensures WholeStep(p, fuel - 1, path + [n], Apply(map[], LiveStepEvents(p, fuel - 1, path + [n], w)), w)
    decreases fuel, 0
  {
    var id, inv := path + [n], Awake(map[], w);
    assert !(id <= []);
    HeadIsLive(p, fuel, path, n, [], w);
    if p.Child? && FinishRecord(p.name, p.subType, p.options, Direct(p.body, fuel - 1, id, 1, w).value).None? {
      LiveLeavesWhole(p.body, fuel - 1, id, 1, w);
      UnrecordedEvents(p, fuel - 1, id, w);
      WholeFrame(p.body, fuel - 1, id, 1, Apply(map[], LiveEvents(p.body, fuel - 1, id, 1, w)),
                 Apply(map[], LiveStepEvents(p, fuel - 1, id, w)), w);
    }
  }

  lemma UnrecordedEvents(p: Program, fuel: nat, id: Id, w: World)
    requires p.Child? && DirectStep(p, fuel, id, w).Some?
    requires FinishRecord(p.name, p.subType, p.options, Direct(p.body, fuel, id, 1, w).value).None?
    ensures Agree(Apply(map[], LiveEvents(p.body, fuel, id, 1, w)), Apply(map[], LiveStepEvents(p, fuel, id, w)), id, 1)
    ensures id in Apply(map[], LiveStepEvents(p, fuel, id, w))
  {
    var inv := Awake(map[], w);
    var nested := LiveEvents(p.body, fuel, id, 1, w);
    EmptyLogFits(p.body, fuel, id, 1, w);
    OneInvocation(p.body, fuel, id, 1, Execution, inv);
    assert ChildReplayMode(id, None, map[]) == Execution;
    assert Step(p, fuel, id, Execution, inv) == RunChild(p.name, p.subType, p.options, p.body, fuel, id, Execution,
                                                         inv);
    var begin := [Event(Start, id, ContextStarted(p.name, p.subType))];
    assert LiveStepEvents(p, fuel, id, w) == begin + nested;
    WritesIn(p.body, fuel, id, 1, Execution, inv);
    Beneath(map[], id, ContextStarted(p.name, p.subType), begin, nested);
  }

  /** Over the log of a whole run nothing suspends: the re-run is the direct run, or it diverges. */
  lemma {:induction false} WholeReplays(p: Program, fuel: nat, path: Id, n: nat, mode: Mode, inv: Invocation)
    requires mode != SucceededContext && Direct(p, fuel, path, n, inv.world).Some?
    requires Whole(p, fuel, path, n, inv.log, inv.world)
    ensures var r := Exec(p, fuel, path, n, mode, inv);
            r.violated || r.end == Done(Direct(p, fuel, path, n, inv.world).value)
    decreases fuel, 0
  {
    if p.Invoke? || p.Child? {
      var id := path + [n];
      var claimed := ClaimMode(mode, id, inv.log);
      WholeStepReplays(p, fuel - 1, id, claimed, inv);
      if !Step(p, fuel - 1, id, claimed, inv).violated {
        WholeReplays(p.then_(DirectStep(p, fuel - 1, id, inv.world).value), fuel - 1, path, n + 1,
                     ObserveMode(claimed, id, inv), inv);
      }
    }
  }

  lemma {:induction false} WholeStepReplays(p: Program, fuel: nat, id: Id, mode: Mode, inv: Invocation)
    requires p.Invoke? || p.Child?
    requires mode != SucceededContext && DirectStep(p, fuel, id, inv.world).Some?
    requires WholeStep(p, fuel, id, inv.log, inv.world)
    ensures var r := Step(p, fuel, id, mode, inv);
            (r.violated && !ClosesStep(p, fuel, id, inv.world)) ||
            r.end == Done(DirectStep(p, fuel, id, inv.world).value)
    ensures var r := Step(p, fuel, id, mode, inv);
            ClosesStep(p, fuel, id, inv.world) ==> !r.violated && Over(inv.log, id)
    decreases fuel, 1
  {
    if p.Child? {
      var w := inv.world;
      var record := FinishRecord(p.name, p.subType, p.options, Direct(p.body, fuel, id, 1, w).value);
      var r := Step(p, fuel, id, mode, inv);
      assert r == RunChild(p.name, p.subType, p.options, p.body, fuel, id, mode, inv);
      if record.None? {
        WholeReplays(p.body, fuel, id, 1, ChildReplayMode(id, Lookup(inv.log, id), inv.log), inv);
      } else if record.value.replayChildren {
        Rerun(p.body, fuel, id, 1, inv);
      }
    }
  }

  /** An operation that does not close diverges when met again, or its outcome is new again. */
  lemma HeadAgain(p: Program, fuel: nat, path: Id, n: nat, mode: Mode, inv: Invocation)
    requires (p.Invoke? || p.Child?) && mode != SucceededContext && Direct(p, fuel, path, n, inv.world).Some?
    requires AgreeUnder(Apply(map[], LiveStepEvents(p, fuel - 1, path + [n], inv.world)), inv.log, path + [n])
    ensures var id := path + [n]; var r := Step(p, fuel - 1, id, mode, inv);
            if ClosesStep(p, fuel - 1, id, inv.world)
            then !r.violated && r.end == Done(DirectStep(p, fuel - 1, id, inv.world).value)
            else r.violated || (r.end == Done(DirectStep(p, fuel - 1, id, inv.world).value) && NewOutcome(id, inv))
  {
    var id, w := path + [n], inv.world;
    LiveStepLeavesWhole(p, fuel, path, n, w);
    WholeFrameStep(p, fuel - 1, id, Apply(map[], LiveStepEvents(p, fuel - 1, id, w)), inv.log, w);
    WholeStepReplays(p, fuel - 1, id, mode, inv);
    if p.Child? && !ClosesStep(p, fuel - 1, id, w) {
      var record := FinishRecord(p.name, p.subType, p.options, Direct(p.body, fuel - 1, id, 1, w).value);
      if record.Some? {
        Rerun(p.body, fuel - 1, id, 1, inv);
        assert Step(p, fuel - 1, id, mode, inv) ==
               RunChild(p.name, p.subType, p.options, p.body, fuel - 1, id, mode, inv);
      }
    }
  }

  // ----- the culprit -----

  lemma {:induction false} UncalmSuspends(p: Program, fuel: nat, path: Id, n: nat, w: World)
    requires Direct(p, fuel, path, n, w).Some? && !Calm(p, fuel, path, n, w)
    ensures MaySuspend(p, fuel, path, n, w)
    decreases fuel
  {
    var id := path + [n];
    var rest := p.then_(DirectStep(p, fuel - 1, id, w).value);
    if !CalmStep(p, fuel - 1, id, w) {
      UncalmSuspends(p.body, fuel - 1, id, 1, w);
    } else if !Calm(rest, fuel - 1, path, n + 1, w) {
      UncalmSuspends(rest, fuel - 1, path, n + 1, w);
    }
  }

  /** The invoke after the first operation that spoils a handler. */
  ghost function Culprit(p: Program, fuel: nat, path: Id, n: nat, w: World): Id
    requires Direct(p, fuel, path, n, w).Some? && !Calm(p, fuel, path, n, w)
    decreases fuel
  {
    var id := path + [n];
    var rest := p.then_(DirectStep(p, fuel - 1, id, w).value);
    if !CalmStep(p, fuel - 1, id, w) then Culprit(p.body, fuel - 1, id, 1, w)
    else if !ClosesStep(p, fuel - 1, id, w) && MaySuspend(rest, fuel - 1, path, n + 1, w) then
      FirstAwait(rest, fuel - 1, path, n + 1, w)
    else Culprit(rest, fuel - 1, path, n + 1, w)
  }

  lemma {:induction false} CulpritIn(p: Program, fuel: nat, path: Id, n: nat, w: World)
    requires Direct(p, fuel, path, n, w).Some? && !Calm(p, fuel, path, n, w)
    ensures In(Culprit(p, fuel, path, n, w), path, n)
    decreases fuel
  {
    var id := path + [n];
    var rest := p.then_(DirectStep(p, fuel - 1, id, w).value);
    InSplits(Culprit(p, fuel, path, n, w), path, n);
    if !CalmStep(p, fuel - 1, id, w) {
      CulpritIn(p.body, fuel - 1, id, 1, w);
    } else if !ClosesStep(p, fuel - 1, id, w) && MaySuspend(rest, fuel - 1, path, n + 1, w) {
      FirstAwaitIn(rest, fuel - 1, path, n + 1, w);
    } else {
      CulpritIn(rest, fuel - 1, path, n + 1, w);
    }
  }

  lemma {:induction false} StopsAtCulprit(p: Program, fuel: nat, path: Id, n: nat, w: World)
    requires Direct(p, fuel, path, n, w).Some? && !Calm(p, fuel, path, n, w)
    ensures First(p, fuel, path, n, Culprit(p, fuel, path, n, w), w).end == Suspended
    decreases fuel
  {
    var id, y := path + [n], Culprit(p, fuel, path, n, w);
    var rest := p.then_(DirectStep(p, fuel - 1, id, w).value);
    if !CalmStep(p, fuel - 1, id, w) {
      StopsAtCulprit(p.body, fuel - 1, id, 1, w);
      FirstInsideHead(p, fuel, path, n, y, w);
    } else {
      if !ClosesStep(p, fuel - 1, id, w) && MaySuspend(rest, fuel - 1, path, n + 1, w) {
        FirstAwaitIn(rest, fuel - 1, path, n + 1, w);
        StopsAtFirstAwait(rest, fuel - 1, path, n + 1, w);
      } else {
        CulpritIn(rest, fuel - 1, path, n + 1, w);
        StopsAtCulprit(rest, fuel - 1, path, n + 1, w);
      }
      InSplits(y, path, n);
      FirstPastHead(p, fuel, path, n, y, w);
    }
  }

  ghost predicate LiveAgain(first: seq<Visit>, again: seq<Visit>) {
    exists v :: v in again && v.live && Visited(first, v.segment)
  }

  /** A second run over what the first left diverges, or runs live what the first ran. */
  ghost predicate Spoiled(first: Run, again: Run) {
    again.violated || LiveAgain(first.visits, again.visits)
  }

  lemma SpoiledWithin(first: Run, again: Run, inner: Run, second: Run)
    requires Spoiled(inner, second) && (second.violated ==> again.violated)
    requires (forall v :: v in inner.visits ==> v in first.visits) &&
             (forall v :: v in second.visits ==> v in again.visits)
    ensures Spoiled(first, again)
  {
    if !second.violated {
      var v :| v in second.visits && v.live && Visited(inner.visits, v.segment);
      assert Visited(first.visits, v.segment);
    }
  }

  /** A second run past its head: a divergence of the head, or of the code after it, is the run's. */
  lemma AgainPastHead(p: Program, fuel: nat, path: Id, n: nat, mode: Mode, inv: Invocation)
    requires (p.Invoke? || p.Child?) && Direct(p, fuel, path, n, inv.world).Some?
    ensures var id := path + [n]; var claimed := ClaimMode(mode, id, inv.log);
            var sub, again := Step(p, fuel - 1, id, claimed, inv), Exec(p, fuel, path, n, mode, inv);
            (sub.violated ==> again.violated) && (forall v :: v in sub.visits ==> v in again.visits) &&
            (sub.end == Done(DirectStep(p, fuel - 1, id, inv.world).value) ==>
              var second := Exec(p.then_(sub.end.outcome), fuel - 1, path, n + 1, ObserveMode(claimed, id, inv), inv);
              (second.violated ==> again.violated) && forall v :: v in second.visits ==> v in again.visits)
  {
  }

  /** The log is what a first run that stopped at y left, but for the record of y. */
  ghost predicate LeftBut(p: Program, fuel: nat, path: Id, n: nat, y: Id, inv: Invocation) {
    AgreeBut(Apply(map[], First(p, fuel, path, n, y, inv.world).events), inv.log, path, n, y)
  }

  lemma {:induction false} CulpritSpoils(p: Program, fuel: nat, path: Id, n: nat, mode: Mode, inv: Invocation)
    requires Direct(p, fuel, path, n, inv.world).Some? && !Calm(p, fuel, path, n, inv.world) && mode != SucceededContext
    requires LeftBut(p, fuel, path, n, Culprit(p, fuel, path, n, inv.world), inv)
    ensures Spoiled(First(p, fuel, path, n, Culprit(p, fuel, path, n, inv.world), inv.world),
                    Exec(p, fuel, path, n, mode, inv))
    decreases fuel
  {
    var w, log := inv.world, inv.log;
    var id, y := path + [n], Culprit(p, fuel, path, n, w);
    if !CalmStep(p, fuel - 1, id, w) {
      StopsAtCulprit(p.body, fuel - 1, id, 1, w);
      CulpritIn(p.body, fuel - 1, id, 1, w);
      LeftInside(p, fuel, path, n, y, inv);
      CulpritSpoils(p.body, fuel - 1, id, 1, ChildReplayMode(id, Lookup(log, id), log), inv);
      SpoiledInside(p, fuel, path, n, y, mode, inv);
    } else {
      CulpritBeyond(p, fuel, path, n, w);
      LeftApart(p, fuel, path, n, y, inv);
      if ClosesStep(p, fuel - 1, id, w) {
        CulpritSpoils(p.then_(DirectStep(p, fuel - 1, id, w).value), fuel - 1, path, n + 1,
                      ObserveMode(ClaimMode(mode, id, log), id, inv), inv);
      }
      SpoiledBeyond(p, fuel, path, n, y, mode, inv);
    }
  }

  /** What the first run left of its head, a child, and beneath it. */
  lemma LeftInside(p: Program, fuel: nat, path: Id, n: nat, y: Id, inv: Invocation)
    requires p.Child? && Direct(p, fuel, path, n, inv.world).Some? && In(y, path + [n], 1)
    requires First(p.body, fuel - 1, path + [n], 1, y, inv.world).end == Suspended && LeftBut(p, fuel, path, n, y, inv)
    ensures var id := path + [n];
            id in inv.log && inv.log[id] == ContextStarted(p.name, p.subType) &&
                LeftBut(p.body, fuel - 1, id, 1, y, inv)
  {
    var w, log := inv.world, inv.log;
    var id, started := path + [n], ContextStarted(p.name, p.subType);
    var inner := First(p.body, fuel - 1, id, 1, y, w).events;
    FirstInsideHead(p, fuel, path, n, y, w);
    WritesIn(p.body, fuel - 1, id, 1, Execution, But(map[], y, w));
    var left := Apply(map[], First(p, fuel, path, n, y, w).events);
    Beneath(map[], id, started, [Event(Start, id, started)], inner);
    forall x | id <= x && x != y ensures Same(left, log, x) { InSplits(x, path, n); }
    assert Same(left, log, id);
    forall x | In(x, id, 1) && x != y ensures Same(Apply(map[], inner), log, x) {
      assert Same(Apply(map[], inner), left, x) && Same(left, log, x);
    }
  }

  /** What spoils the body of an unfinished child spoils the run. */
  lemma SpoiledInside(p: Program, fuel: nat, path: Id, n: nat, y: Id, mode: Mode, inv: Invocation)
    requires p.Child? && Direct(p, fuel, path, n, inv.world).Some? && mode != SucceededContext
    requires path + [n] in inv.log && inv.log[path + [n]] == ContextStarted(p.name, p.subType)
    requires var id := path + [n]; var inner := First(p.body, fuel - 1, id, 1, y, inv.world);
             inner.end == Suspended &&
             Spoiled(inner, Exec(p.body, fuel - 1, id, 1, ChildReplayMode(id, Lookup(inv.log, id), inv.log), inv))
    ensures Spoiled(First(p, fuel, path, n, y, inv.world), Exec(p, fuel, path, n, mode, inv))
  {
    var w, log, id := inv.world, inv.log, path + [n];
    FirstInsideHead(p, fuel, path, n, y, w);
    var claimed := ClaimMode(mode, id, log);
    var sub := Step(p, fuel - 1, id, claimed, inv);
    assert sub == RunChild(p.name, p.subType, p.options, p.body, fuel - 1, id, claimed, inv);
    var second := Exec(p.body, fuel - 1, id, 1, ChildReplayMode(id, Lookup(log, id), log), inv);
    assert sub.visits == second.visits && sub.violated == second.violated;
    AgainPastHead(p, fuel, path, n, mode, inv);
    SpoiledWithin(First(p, fuel, path, n, y, w), Exec(p, fuel, path, n, mode, inv),
                  First(p.body, fuel - 1, id, 1, y, w), second);
  }

  /** A head that does not close spoils the run; past one that does, what spoils the rest spoils the run. */
  lemma SpoiledBeyond(p: Program, fuel: nat, path: Id, n: nat, y: Id, mode: Mode, inv: Invocation)
    requires (p.Invoke? || p.Child?) && Direct(p, fuel, path, n, inv.world).Some? && mode != SucceededContext
    requires !(path + [n] <= y) && LeftBut(p, fuel, path, n, y, inv)
    requires var id := path + [n]; var rest := p.then_(DirectStep(p, fuel - 1, id, inv.world).value);
             ClosesStep(p, fuel - 1, id, inv.world) ==>
               Spoiled(First(rest, fuel - 1, path, n + 1, y, inv.world),
                       Exec(rest, fuel - 1, path, n + 1, ObserveMode(ClaimMode(mode, id, inv.log), id, inv), inv))
    ensures Spoiled(First(p, fuel, path, n, y, inv.world), Exec(p, fuel, path, n, mode, inv))
  {
    var w, id := inv.world, path + [n];
    LeftApart(p, fuel, path, n, y, inv);
    HeadAgain(p, fuel, path, n, ClaimMode(mode, id, inv.log), inv);
    if !ClosesStep(p, fuel - 1, id, w) {
      FreshAgain(p.then_(DirectStep(p, fuel - 1, id, w).value), fuel - 1, path, n + 1, y, inv, w);
    }
    SpoiledPastHead(p, fuel, path, n, y, mode, inv, w);
  }

  /** The code after an operation whose outcome is new again runs live again. */
  lemma FreshAgain(p: Program, fuel: nat, path: Id, n: nat, y: Id, inv: Invocation, w: World)
    ensures Spoiled(First(p, fuel, path, n, y, w), Exec(p, fuel, path, n, Execution, inv))
  {
    StartsHere(p, fuel, path, n, But(map[], y, w));
    StartsHere(p, fuel, path, n, inv);
  }

  lemma SpoiledPastHead(p: Program, fuel: nat, path: Id, n: nat, y: Id, mode: Mode, inv: Invocation, w: World)
    requires (p.Invoke? || p.Child?) && Direct(p, fuel, path, n, w).Some? && !(path + [n] <= y) && inv.world == w
    requires var id := path + [n]; var claimed := ClaimMode(mode, id, inv.log);
             var sub := Step(p, fuel - 1, id, claimed, inv);
             var rest := p.then_(DirectStep(p, fuel - 1, id, w).value);
             sub.violated ||
             (sub.end == Done(DirectStep(p, fuel - 1, id, w).value) &&
              Spoiled(First(rest, fuel - 1, path, n + 1, y, w),
                      Exec(rest, fuel - 1, path, n + 1, ObserveMode(claimed, id, inv), inv)))
    ensures Spoiled(First(p, fuel, path, n, y, w), Exec(p, fuel, path, n, mode, inv))
  {
    var id := path + [n];
    var claimed := ClaimMode(mode, id, inv.log);
    AgainPastHead(p, fuel, path, n, mode, inv);
    if !Step(p, fuel - 1, id, claimed, inv).violated {
      var rest := p.then_(DirectStep(p, fuel - 1, id, w).value);
      FirstPastHead(p, fuel, path, n, y, w);
      SpoiledWithin(First(p, fuel, path, n, y, w), Exec(p, fuel, path, n, mode, inv),
                    First(rest, fuel - 1, path, n + 1, y, w),
                    Exec(rest, fuel - 1, path, n + 1, ObserveMode(claimed, id, inv), inv));
    }
  }

  /** A culprit that is not beneath the head lies beyond it. */
  lemma CulpritBeyond(p: Program, fuel: nat, path: Id, n: nat, w: World)
    requires Direct(p, fuel, path, n, w).Some? && !Calm(p, fuel, path, n, w)
    requires (p.Invoke? || p.Child?) && CalmStep(p, fuel - 1, path + [n], w)
    ensures !(path + [n] <= Culprit(p, fuel, path, n, w))
    ensures var rest := p.then_(DirectStep(p, fuel - 1, path + [n], w).value);
            ClosesStep(p, fuel - 1, path + [n], w) ==>
              !Calm(rest, fuel - 1, path, n + 1, w) &&
              Culprit(p, fuel, path, n, w) == Culprit(rest, fuel - 1, path, n + 1, w)
  {
    var id, y := path + [n], Culprit(p, fuel, path, n, w);
    var rest := p.then_(DirectStep(p, fuel - 1, id, w).value);
    InSplits(y, path, n);
    if !ClosesStep(p, fuel - 1, id, w) && MaySuspend(rest, fuel - 1, path, n + 1, w) {
      FirstAwaitIn(rest, fuel - 1, path, n + 1, w);
    } else {
      CulpritIn(rest, fuel - 1, path, n + 1, w);
    }
  }

  /** What the first run left beneath its head and beyond it. */
  lemma LeftApart(p: Program, fuel: nat, path: Id, n: nat, y: Id, inv: Invocation)
    requires (p.Invoke? || p.Child?) && Direct(p, fuel, path, n, inv.world).Some? && !(path + [n] <= y)
    requires LeftBut(p, fuel, path, n, y, inv)
    ensures AgreeUnder(Apply(map[], LiveStepEvents(p, fuel - 1, path + [n], inv.world)), inv.log, path + [n])
    ensures var rest := p.then_(DirectStep(p, fuel - 1, path + [n], inv.world).value);
            LeftBut(rest, fuel - 1, path, n + 1, y, inv)
  {
    var w, log := inv.world, inv.log;
    var id := path + [n];
    var rest := p.then_(DirectStep(p, fuel - 1, id, w).value);
    var head, tail := LiveStepEvents(p, fuel - 1, id, w), First(rest, fuel - 1, path, n + 1, y, w).events;
    FirstPastHead(p, fuel, path, n, y, w);
    StepWritesUnder(p, fuel - 1, id, Execution, Awake(map[], w));
    WritesIn(rest, fuel - 1, path, n + 1, Execution, But(map[], y, w));
    Disjoint(map[], id, path, n, head, tail);
    var left := Apply(map[], head + tail);
    forall x | id <= x ensures Same(Apply(map[], head), log, x) {
      InSplits(x, path, n);
      assert Same(Apply(map[], head), left, x) && Same(left, log, x);
    }
    forall x | In(x, path, n + 1) && x != y ensures Same(Apply(map[], tail), log, x) {
      InSplits(x, path, n);
      assert Same(Apply(map[], tail), left, x) && Same(left, log, x);
    }
  }

  lemma StartsHere(p: Program, fuel: nat, path: Id, n: nat, inv: Invocation)
    ensures Visit(Segment(path, n), true) in Exec(p, fuel, path, n, Execution, inv).visits
    ensures Visited(Exec(p, fuel, path, n, Execution, inv).visits, Segment(path, n))
  {
    assert Exec(p, fuel, path, n, Execution, inv).visits[0] == Visit(Segment(path, n), true);
  }

  // ----- the theorems -----

  /** The pair of invocations that shows a handler is not calm: the second lists the invoke the first stopped at. */
  ghost function Pair(p: Program, fuel: nat, w: World): seq<Invocation>
    requires Direct(p, fuel, [], 1, w).Some? && !Calm(p, fuel, [], 1, w)
  {
    var y := Culprit(p, fuel, [], 1, w);
    [But(map[], y, w), AnsweredAt(LeftBy(p, fuel, But(map[], y, w)), y, w)]
  }

  /** Where the first invocation of the pair stops, and what it leaves. */
  lemma FirstOfPair(p: Program, fuel: nat, w: World)
    requires Direct(p, fuel, [], 1, w).Some? && !Calm(p, fuel, [], 1, w)
    ensures var y := Culprit(p, fuel, [], 1, w); var first := But(map[], y, w);
            !Invoked(p, fuel, first).violated && Invoked(p, fuel, first).end == Suspended &&
            StoppedAt(p, fuel, [], 1, Execution, first) == y && OpenIn(LeftBy(p, fuel, first), y) &&
            Fits(p, fuel, [], 1, LeftBy(p, fuel, first), w) && [] !in LeftBy(p, fuel, first)
  {
    var y := Culprit(p, fuel, [], 1, w);
    var first := But(map[], y, w);
    EmptyLogFits(p, fuel, [], 1, w);
    StopsAtCulprit(p, fuel, [], 1, w);
    StopsAtOpenInvoke(p, fuel, [], 1, Execution, first);
    OneInvocation(p, fuel, [], 1, Execution, first);
    WritesIn(p, fuel, [], 1, Execution, first);
    var events := Invoked(p, fuel, first).events;
    assert events[..|events|] == events;
    forall k | 0 <= k < |events| ensures events[k].id != [] {
      assert events[k] in events;
    }
    ApplyElsewhere(map[], events, []);
  }

  lemma AnswerFollows(log: Log, y: Id, w: World)
    requires OpenIn(log, y)
    ensures Follows(log, AnsweredAt(log, y, w)) && ServiceActs(log, AnsweredAt(log, y, w).log, w)
  {
  }

  lemma PairFollows(p: Program, fuel: nat, w: World)
    requires Direct(p, fuel, [], 1, w).Some? && !Calm(p, fuel, [], 1, w)
    ensures var pair := Pair(p, fuel, w);
            CrashFree(p, fuel, w, pair) && Listed(p, fuel, pair) &&
            !Invoked(p, fuel, pair[0]).violated && Fits(p, fuel, [], 1, pair[1].log, w)
  {
    var y := Culprit(p, fuel, [], 1, w);
    var left := LeftBy(p, fuel, But(map[], y, w));
    FirstOfPair(p, fuel, w);
    AnswerFollows(left, y, w);
    ServiceKeepsFit(p, fuel, [], 1, left, AnsweredAt(left, y, w).log, w);
  }

  lemma PairIsSpoiled(p: Program, fuel: nat, w: World)
    requires Direct(p, fuel, [], 1, w).Some? && !Calm(p, fuel, [], 1, w)
    ensures CrashFree(p, fuel, w, Pair(p, fuel, w)) && Listed(p, fuel, Pair(p, fuel, w))
    ensures Spoiled(Invoked(p, fuel, Pair(p, fuel, w)[0]), Invoked(p, fuel, Pair(p, fuel, w)[1]))
  {
    var second := Pair(p, fuel, w)[1];
    PairFollows(p, fuel, w);
    CulpritSpoils(p, fuel, [], 1, RootMode(second.log), second);
  }

  lemma SpoiledPairIsNotClean(p: Program, fuel: nat, first: Invocation, second: Invocation)
    requires Spoiled(Invoked(p, fuel, first), Invoked(p, fuel, second))
    ensures !Clean(p, fuel, [first, second])
    ensures !Invoked(p, fuel, second).violated ==> !LiveOnce(p, fuel, [first, second])
  {
    var invs := [first, second];
    if !Invoked(p, fuel, second).violated {
      var v :| v in Invoked(p, fuel, second).visits && v.live && Visited(Invoked(p, fuel, first).visits, v.segment);
      assert Visited(Invoked(p, fuel, invs[0]).visits, v.segment);
      assert VisitedBy(p, fuel, invs, 1, v.segment) && v in Invoked(p, fuel, invs[1]).visits;
    } else {
      assert Invoked(p, fuel, invs[1]).violated;
    }
  }

  ghost predicate LiveOnce(p: Program, fuel: nat, invs: seq<Invocation>) {
    forall i, v :: 0 <= i < |invs| && v in Invoked(p, fuel, invs[i]).visits ==>
      (v.live <==> !VisitedBy(p, fuel, invs, i, v.segment))
  }

  /**
    Every crash-free run of a handler is clean exactly when the handler is calm: in no context may the code after an
    operation that leaves no final record, or whose re-run would meet one, still suspend. The same holds of the runs in
    which each invocation lists the operation the one before it stopped at.
   */
  lemma CleanIffCalm(p: Program, fuel: nat, w: World)
    requires Direct(p, fuel, [], 1, w).Some?
    ensures (forall invs :: CrashFree(p, fuel, w, invs) ==> Clean(p, fuel, invs)) <==> Calm(p, fuel, [], 1, w)
    ensures (forall invs :: CrashFree(p, fuel, w, invs) && Listed(p, fuel, invs) ==> Clean(p, fuel, invs)) <==>
            Calm(p, fuel, [], 1, w)
  {
    if Calm(p, fuel, [], 1, w) {
      forall invs | CrashFree(p, fuel, w, invs) ensures Clean(p, fuel, invs) {
        LiveExactlyOnce(p, fuel, w, invs);
      }
    } else {
      var pair := Pair(p, fuel, w);
      PairIsSpoiled(p, fuel, w);
      SpoiledPairIsNotClean(p, fuel, pair[0], pair[1]);
    }
  }

  /** For a handler that never diverges, liveness alone has the same condition. */
  lemma LiveOnceIffCalm(p: Program, fuel: nat, w: World)
    requires Direct(p, fuel, [], 1, w).Some? && Rerunnable(p, fuel, [], 1, w)
    ensures (forall invs :: CrashFree(p, fuel, w, invs) ==> LiveOnce(p, fuel, invs)) <==> Calm(p, fuel, [], 1, w)
    ensures (forall invs :: CrashFree(p, fuel, w, invs) && Listed(p, fuel, invs) ==> LiveOnce(p, fuel, invs)) <==>
            Calm(p, fuel, [], 1, w)
  {
    if Calm(p, fuel, [], 1, w) {
      forall invs | CrashFree(p, fuel, w, invs) ensures LiveOnce(p, fuel, invs) {
        LiveExactlyOnce(p, fuel, w, invs);
        assert Clean(p, fuel, invs);
      }
    } else {
      var pair := Pair(p, fuel, w);
      PairIsSpoiled(p, fuel, w);
      PairFollows(p, fuel, w);
      RerunnableRepeats(p, fuel, [], 1, pair[1].log, w);
      OneInvocation(p, fuel, [], 1, RootMode(pair[1].log), pair[1]);
      SpoiledPairIsNotClean(p, fuel, pair[0], pair[1]);
    }
  }
}
