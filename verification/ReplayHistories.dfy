/** Whole executions: any number of invocations, each cut anywhere, with the service answering in between. */
module ReplayHistories {
  import opened Ids
  import opened ReplayModel
  import opened ReplaySoundness

  // ----- histories -----

  function RootMode(log: Log): Mode {
    if log == map[] then Execution else Replay
  }

  function Invoked(p: Program, fuel: nat, inv: Invocation): Run {
    Exec(p, fuel, [], 1, RootMode(inv.log), inv)
  }

  /** An ancestor of x is a context whose result is stored, so replay never looks at x again. */
  ghost predicate Shadowed(log: Log, x: Id) {
    exists k: nat :: k < |x| && StoredResult(log, x[..k])
  }

  ghost predicate StoredResult(log: Log, x: Id) {
    x in log && log[x].status == Succeeded && !log[x].replayChildren
  }

  /** What the service does on its own: it records answers of open invokes and may drop shadowed operations. */
  ghost predicate ServiceActs(a: Log, b: Log, w: World) {
    forall x ::
      (x in b ==> x in a && (b[x] == a[x] || (OpenInvoke(a[x]) && b[x] == Settled(a[x], w(x))))) &&
      (x in a && x !in b ==> Shadowed(a, x))
  }

  /** One turn: an invocation of which the first `kept` updates reached the log, or the service acting. */
  datatype Turn = Invokes(updated: set<Id>, wakes: Id -> bool, kept: nat) | Serves

  ghost predicate Takes(p: Program, fuel: nat, w: World, turn: Turn, a: Log, b: Log) {
    match turn
    case Invokes(updated, wakes, kept) =>
      var events := Invoked(p, fuel, Invocation(a, updated, wakes, w)).events;
      kept <= |events| && b == Apply(a, events[..kept])
    case Serves => ServiceActs(a, b, w)
  }

  ghost predicate History(p: Program, fuel: nat, w: World, turns: seq<Turn>, logs: seq<Log>) {
    |logs| == |turns| + 1 && logs[0] == map[] &&
    forall i :: 0 <= i < |turns| ==> Takes(p, fuel, w, turns[i], logs[i], logs[i + 1])
  }

  // ----- the service keeps a log fitting -----

  ghost predicate Unshadowed(log: Log, path: Id) {
    forall k: nat :: k <= |path| ==> !StoredResult(log, path[..k])
  }

  lemma UnshadowedStep(a: Log, path: Id, n: nat)
    requires Unshadowed(a, path)
    ensures !Shadowed(a, path + [n])
    ensures !StoredResult(a, path + [n]) ==> Unshadowed(a, path + [n])
  {
    forall k: nat | k <= |path| ensures !StoredResult(a, (path + [n])[..k]) {
      assert (path + [n])[..k] == path[..k];
    }
    assert (path + [n])[..|path| + 1] == path + [n];
  }

  lemma {:induction false} ServiceKeepsFit(p: Program, fuel: nat, path: Id, n: nat, a: Log, b: Log, w: World)
    requires Direct(p, fuel, path, n, w).Some?
    requires ServiceActs(a, b, w) && Unshadowed(a, path)
    ensures Fits(p, fuel, path, n, a, w) ==> Fits(p, fuel, path, n, b, w)
    ensures Complete(p, fuel, path, n, a, w) ==> Complete(p, fuel, path, n, b, w)
    decreases fuel, 0
  {
    if p.Invoke? || p.Child? {
      var id := path + [n];
      UnshadowedStep(a, path, n);
      ServiceKeepsStep(p, fuel - 1, id, a, b, w);
      ServiceKeepsFit(p.then_(DirectStep(p, fuel - 1, id, w).value), fuel - 1, path, n + 1, a, b, w);
    }
  }

  lemma {:induction false} ServiceKeepsStep(p: Program, fuel: nat, id: Id, a: Log, b: Log, w: World)
    requires p.Invoke? || p.Child?
    requires DirectStep(p, fuel, id, w).Some?
    requires ServiceActs(a, b, w) && !Shadowed(a, id)
    requires !StoredResult(a, id) ==> Unshadowed(a, id)
    ensures FitsStep(p, fuel, id, a, w) ==> FitsStep(p, fuel, id, b, w)
    ensures CompleteStep(p, fuel, id, a, w) ==> CompleteStep(p, fuel, id, b, w)
    decreases fuel, 1
  {
    if p.Child? && !StoredResult(a, id) {
      ServiceKeepsFit(p.body, fuel, id, 1, a, b, w);
    }
  }

  // ----- every reachable log fits -----

  lemma {:induction false} EmptyLogFits(p: Program, fuel: nat, path: Id, n: nat, w: World)
    requires Direct(p, fuel, path, n, w).Some?
    ensures Fits(p, fuel, path, n, map[], w) && RepeatsClose(p, fuel, path, n, map[], w)
    decreases fuel
  {
    if p.Invoke? || p.Child? {
      if p.Child? { EmptyLogFits(p.body, fuel - 1, path + [n], 1, w); }
      EmptyLogFits(p.then_(DirectStep(p, fuel - 1, path + [n], w).value), fuel - 1, path, n + 1, w);
    }
  }

  lemma {:induction false} ReachableFits(p: Program, fuel: nat, w: World, turns: seq<Turn>, logs: seq<Log>, i: nat)
    requires Direct(p, fuel, [], 1, w).Some? && Rerunnable(p, fuel, [], 1, w)
    requires History(p, fuel, w, turns, logs) && i < |logs|
    ensures Fits(p, fuel, [], 1, logs[i], w)
    ensures [] !in logs[i]
  {
    if i == 0 {
      EmptyLogFits(p, fuel, [], 1, w);
    } else {
      ReachableFits(p, fuel, w, turns, logs, i - 1);
      var a, b := logs[i - 1], logs[i];
      assert Takes(p, fuel, w, turns[i - 1], a, b);
      match turns[i - 1]
      case Invokes(updated, wakes, kept) =>
        var inv := Invocation(a, updated, wakes, w);
        RerunnableRepeats(p, fuel, [], 1, a, w);
        OneInvocation(p, fuel, [], 1, RootMode(a), inv);
        var events := Invoked(p, fuel, inv).events;
        WritesIn(p, fuel, [], 1, RootMode(a), inv);
        forall k | 0 <= k < kept ensures events[..kept][k].id != [] {
          assert events[k] in events;
        }
        ApplyElsewhere(a, events[..kept], []);
      case Serves =>
        ServiceKeepsFit(p, fuel, [], 1, a, b, w);
    }
  }

  // ----- the main theorems -----

  /** Any run, spread over any number of invocations, gives the outcome of the uninterrupted run or waits for an
      invoked function. It reports no divergence, and it completes once every invoked function answers. */
  lemma ReplayRefinesDirect(p: Program, fuel: nat, w: World, turns: seq<Turn>, logs: seq<Log>,
                            i: nat, updated: set<Id>, wakes: Id -> bool)
    requires Direct(p, fuel, [], 1, w).Some? && Rerunnable(p, fuel, [], 1, w)
    requires History(p, fuel, w, turns, logs) && i < |logs|
    ensures var r := Invoked(p, fuel, Invocation(logs[i], updated, wakes, w));
            !r.violated &&
            (r.end == Suspended || r.end == Done(Direct(p, fuel, [], 1, w).value)) &&
            ((forall id :: wakes(id)) ==> r.end.Done?)
  {
    ReachableFits(p, fuel, w, turns, logs, i);
    RerunnableRepeats(p, fuel, [], 1, logs[i], w);
    OneInvocation(p, fuel, [], 1, RootMode(logs[i]), Invocation(logs[i], updated, wakes, w));
  }

  ghost predicate StartsFresh(e: seq<Event>, log: Log) {
    (forall i :: 0 <= i < |e| && e[i].kind == Start ==> e[i].id !in log) &&
    (forall i, j :: 0 <= i < j < |e| && e[i].kind == Start && e[j].kind == Start ==> e[i].id != e[j].id)
  }

  lemma StartsFreshConcat(e: seq<Event>, f: seq<Event>, log: Log)
    requires StartsFresh(e, log) && StartsFresh(f, log)
    requires forall i, j :: 0 <= i < |e| && 0 <= j < |f| && f[j].kind == Start ==> e[i].id != f[j].id
    ensures StartsFresh(e + f, log)
  {
  }

  /** The SDK starts an operation only when the log has no record of it, and at most once per invocation. */
  lemma {:induction false} StartsOnlyUnrecorded(p: Program, fuel: nat, path: Id, n: nat, mode: Mode, inv: Invocation)
    ensures StartsFresh(Exec(p, fuel, path, n, mode, inv).events, inv.log)
    decreases fuel, 0
  {
    if (p.Invoke? || p.Child?) && fuel > 0 {
      var id := path + [n];
      var claimed := ClaimMode(mode, id, inv.log);
      var sub := Step(p, fuel - 1, id, claimed, inv);
      StepStartsOnlyUnrecorded(p, fuel - 1, id, claimed, inv);
      if sub.end.Done? {
        var next := p.then_(sub.end.outcome);
        var later := ObserveMode(claimed, id, inv);
        var tail := Exec(next, fuel - 1, path, n + 1, later, inv).events;
        StartsOnlyUnrecorded(next, fuel - 1, path, n + 1, later, inv);
        StepWritesUnder(p, fuel - 1, id, claimed, inv);
        WritesIn(next, fuel - 1, path, n + 1, later, inv);
        forall i, j | 0 <= i < |sub.events| && 0 <= j < |tail| ensures sub.events[i].id != tail[j].id {
          assert sub.events[i] in sub.events && tail[j] in tail;
          InSplits(tail[j].id, path, n);
        }
        StartsFreshConcat(sub.events, tail, inv.log);
      } else {
        assert Exec(p, fuel, path, n, mode, inv).events == sub.events;
      }
    }
  }

  lemma {:induction false} StepStartsOnlyUnrecorded(p: Program, fuel: nat, id: Id, mode: Mode, inv: Invocation)
    requires p.Invoke? || p.Child?
    ensures StartsFresh(Step(p, fuel, id, mode, inv).events, inv.log)
    decreases fuel, 1
  {
    if p.Child? {
      var op := Lookup(inv.log, id);
      var r := RunChild(p.name, p.subType, p.options, p.body, fuel, id, mode, inv);
      assert Step(p, fuel, id, mode, inv) == r;
      if op.Some? && op.value.status == Succeeded {
        StartsOnlyUnrecorded(p.body, fuel, id, 1, SucceededContext, inv);
      } else {
        var inner := ChildReplayMode(id, op, inv.log);
        var sub := Exec(p.body, fuel, id, 1, inner, inv);
        StartsOnlyUnrecorded(p.body, fuel, id, 1, inner, inv);
        WritesIn(p.body, fuel, id, 1, inner, inv);
        forall i | 0 <= i < |sub.events| ensures sub.events[i].id != id {
          assert sub.events[i] in sub.events;
        }
        var begin := Opening(p, id, inv.log);
        StartsFreshConcat(begin, sub.events, inv.log);
        if r.events != [] && sub.end.Done? {
          var record := FinishRecord(p.name, p.subType, p.options, sub.end.outcome);
          StartsFreshConcat(begin + sub.events,
                            if record.Some? then [Event(Finish, id, record.value)] else [], inv.log);
        }
      }
    }
  }

  // ----- when the code diverges -----

  /** An invocation depends on the log only where the code looks, and on nothing else but the mode of re-runs. */
  lemma {:induction false} ExecFrame(p: Program, fuel: nat, path: Id, n: nat, m: Mode, i: Invocation, m': Mode,
                                     i': Invocation)
    requires Agree(i.log, i'.log, path, n)
    requires i.wakes == i'.wakes && i.world == i'.world
    requires m == SucceededContext <==> m' == SucceededContext
    ensures var r, r' := Exec(p, fuel, path, n, m, i), Exec(p, fuel, path, n, m', i');
            r.events == r'.events && r.violated == r'.violated && r.end == r'.end
    decreases fuel, 0
  {
    if (p.Invoke? || p.Child?) && fuel > 0 {
      var id := path + [n];
      forall x ensures In(x, path, n) <==> id <= x || In(x, path, n + 1) { InSplits(x, path, n); }
      var c, c' := ClaimMode(m, id, i.log), ClaimMode(m', id, i'.log);
      StepFrame(p, fuel - 1, id, c, i, c', i');
      var sub := Step(p, fuel - 1, id, c, i);
      if sub.end.Done? {
        ExecFrame(p.then_(sub.end.outcome), fuel - 1, path, n + 1, ObserveMode(c, id, i), i, ObserveMode(c', id, i'),
                  i');
      }
    }
  }

  lemma {:induction false} StepFrame(p: Program, fuel: nat, id: Id, m: Mode, i: Invocation, m': Mode, i': Invocation)
    requires p.Invoke? || p.Child?
    requires AgreeUnder(i.log, i'.log, id)
    requires i.wakes == i'.wakes && i.world == i'.world
    requires m == SucceededContext <==> m' == SucceededContext
    ensures var r, r' := Step(p, fuel, id, m, i), Step(p, fuel, id, m', i');
            r.events == r'.events && r.violated == r'.violated && r.end == r'.end
    decreases fuel, 2
  {
    assert Same(i.log, i'.log, id);
    if p.Child? {
      ChildFrame(p, fuel, id, m, i, m', i');
    }
  }

  lemma {:induction false} ChildFrame(p: Program, fuel: nat, id: Id, m: Mode, i: Invocation, m': Mode, i': Invocation)
    requires p.Child?
    requires AgreeUnder(i.log, i'.log, id)
    requires i.wakes == i'.wakes && i.world == i'.world
    requires m == SucceededContext <==> m' == SucceededContext
    ensures var r := RunChild(p.name, p.subType, p.options, p.body, fuel, id, m, i);
            var r' := RunChild(p.name, p.subType, p.options, p.body, fuel, id, m', i');
            r.events == r'.events && r.violated == r'.violated && r.end == r'.end
    decreases fuel, 1
  {
    assert Same(i.log, i'.log, id);
    assert Agree(i.log, i'.log, id, 1);
    var op := Lookup(i.log, id);
    if !Consistent(op, CONTEXT, p.subType, p.name) || UnfinishedInSucceededContext(m, op) {
    } else if op.Some? && op.value.status == Succeeded {
      ExecFrame(p.body, fuel, id, 1, SucceededContext, i, SucceededContext, i');
    } else {
      ExecFrame(p.body, fuel, id, 1, ChildReplayMode(id, op, i.log), i, ChildReplayMode(id, op, i'.log), i');
    }
  }

  /** An invocation in which every awaited function answers. */
  function Awake(log: Log, w: World): Invocation {
    Invocation(log, {}, (id: Id) => true, w)
  }

  function LiveEvents(p: Program, fuel: nat, path: Id, n: nat, w: World): seq<Event> {
    Exec(p, fuel, path, n, Execution, Awake(map[], w)).events
  }

  function LiveStepEvents(p: Program, fuel: nat, id: Id, w: World): seq<Event>
    requires p.Invoke? || p.Child?
  {
    Step(p, fuel, id, Execution, Awake(map[], w)).events
  }

  lemma LiveSplits(p: Program, fuel: nat, path: Id, n: nat, w: World)
    requires (p.Invoke? || p.Child?) && Direct(p, fuel, path, n, w).Some?
    ensures LiveEvents(p, fuel, path, n, w) ==
            LiveStepEvents(p, fuel - 1, path + [n], w) +
            LiveEvents(p.then_(DirectStep(p, fuel - 1, path + [n], w).value), fuel - 1, path, n + 1, w)
  {
    var id := path + [n];
    EmptyLogFits(p, fuel, path, n, w);
    OneStep(p, fuel - 1, id, Execution, Awake(map[], w));
    assert ObserveMode(Execution, id, Awake(map[], w)) == Execution;
  }

  /** A handler that is not rerunnable has a cut of its first invocation after which the next one diverges. */
  lemma {:induction false} DivergingCut(p: Program, fuel: nat, path: Id, n: nat, w: World) returns (k: nat)
    requires Direct(p, fuel, path, n, w).Some? && !Rerunnable(p, fuel, path, n, w)
    ensures k <= |LiveEvents(p, fuel, path, n, w)|
    ensures DivergesAfter(p, fuel, path, n, w, LiveEvents(p, fuel, path, n, w)[..k])
    decreases fuel, 0
  {
    var id := path + [n];
    var first := LiveStepEvents(p, fuel - 1, id, w);
    var rest := p.then_(DirectStep(p, fuel - 1, id, w).value);
    var e := LiveEvents(p, fuel, path, n, w);
    LiveSplits(p, fuel, path, n, w);
    if !RerunnableStep(p, fuel - 1, id, w) {
      k := DivergingStepCut(p, fuel - 1, id, w);
      assert e[..k] == first[..k];
      DivergesAtHead(p, fuel, path, n, w, first[..k]);
    } else {
      var j := DivergingCut(rest, fuel - 1, path, n + 1, w);
      k := |first| + j;
      var tail := LiveEvents(rest, fuel - 1, path, n + 1, w);
      assert e[..k] == first + tail[..j];
      WritesIn(rest, fuel - 1, path, n + 1, Execution, Awake(map[], w));
      DivergesLater(p, fuel, path, n, w, tail[..j]);
    }
  }

  ghost predicate DivergesAfter(p: Program, fuel: nat, path: Id, n: nat, w: World, events: seq<Event>) {
    Exec(p, fuel, path, n, Execution, Awake(Apply(map[], events), w)).violated
  }

  ghost predicate StepDivergesAfter(p: Program, fuel: nat, id: Id, w: World, events: seq<Event>)
    requires p.Invoke? || p.Child?
  {
    Step(p, fuel, id, Execution, Awake(Apply(map[], events), w)).violated
  }

  lemma DivergesAtHead(p: Program, fuel: nat, path: Id, n: nat, w: World, events: seq<Event>)
    requires (p.Invoke? || p.Child?) && fuel > 0
    requires StepDivergesAfter(p, fuel - 1, path + [n], w, events)
    ensures DivergesAfter(p, fuel, path, n, w, events)
  {
  }

  lemma DivergesLater(p: Program, fuel: nat, path: Id, n: nat, w: World, more: seq<Event>)
    requires (p.Invoke? || p.Child?) && Direct(p, fuel, path, n, w).Some?
    requires RerunnableStep(p, fuel - 1, path + [n], w)
    requires forall e :: e in more ==> In(e.id, path, n + 1)
    requires DivergesAfter(p.then_(DirectStep(p, fuel - 1, path + [n], w).value), fuel - 1, path, n + 1, w, more)
    ensures DivergesAfter(p, fuel, path, n, w, LiveStepEvents(p, fuel - 1, path + [n], w) + more)
  {
    var id := path + [n];
    var first := LiveStepEvents(p, fuel - 1, id, w);
    var rest := p.then_(DirectStep(p, fuel - 1, id, w).value);
    StepWritesUnder(p, fuel - 1, id, Execution, Awake(map[], w));
    Disjoint(map[], id, path, n, first, more);
    var now := Awake(Apply(map[], first + more), w);
    HeadReplays(p, fuel, path, n, w, now);
    assert ObserveMode(Execution, id, now) == Execution;
    ExecFrame(rest, fuel - 1, path, n + 1, Execution, Awake(Apply(map[], more), w), Execution, now);
  }

  lemma HeadReplays(p: Program, fuel: nat, path: Id, n: nat, w: World, now: Invocation)
    requires (p.Invoke? || p.Child?) && Direct(p, fuel, path, n, w).Some?
    requires RerunnableStep(p, fuel - 1, path + [n], w)
    requires now == Awake(now.log, w)
    requires AgreeUnder(Apply(map[], LiveStepEvents(p, fuel - 1, path + [n], w)), now.log, path + [n])
    ensures var sub := Step(p, fuel - 1, path + [n], Execution, now);
            !sub.violated && sub.end == Done(DirectStep(p, fuel - 1, path + [n], w).value)
  {
    var id := path + [n];
    var first := LiveStepEvents(p, fuel - 1, id, w);
    EmptyLogFits(p, fuel, path, n, w);
    OneStep(p, fuel - 1, id, Execution, Awake(map[], w));
    assert first[..|first|] == first;
    FrameStep(p, fuel - 1, id, Apply(map[], first), now.log, w);
    RerunnableStepRepeats(p, fuel - 1, id, now.log, w);
    OneStep(p, fuel - 1, id, Execution, now);
  }

  lemma {:induction false} DivergingStepCut(p: Program, fuel: nat, id: Id, w: World) returns (k: nat)
    requires p.Invoke? || p.Child?
    requires DirectStep(p, fuel, id, w).Some? && !RerunnableStep(p, fuel, id, w)
    ensures k <= |LiveStepEvents(p, fuel, id, w)|
    ensures StepDivergesAfter(p, fuel, id, w, LiveStepEvents(p, fuel, id, w)[..k])
    decreases fuel, 1
  {
    var e := LiveStepEvents(p, fuel, id, w);
    EmptyLogFits(p.body, fuel, id, 1, w);
    if Rerunnable(p.body, fuel, id, 1, w) {
      k := |e|;
      assert e[..k] == e;
      OversizedDiverges(p, fuel, id, w);
    } else {
      var j := DivergingCut(p.body, fuel, id, 1, w);
      k := j + 1;
      BodyDiverges(p, fuel, id, w, j);
    }
  }

  lemma OversizedDiverges(p: Program, fuel: nat, id: Id, w: World)
    requires p.Child? && DirectStep(p, fuel, id, w).Some?
    requires !RerunnableStep(p, fuel, id, w) && Rerunnable(p.body, fuel, id, 1, w)
    ensures StepDivergesAfter(p, fuel, id, w, LiveStepEvents(p, fuel, id, w))
  {
    EmptyLogFits(p.body, fuel, id, 1, w);
    OneStep(p, fuel, id, Execution, Awake(map[], w));
    var done := Awake(Apply(map[], LiveStepEvents(p, fuel, id, w)), w);
    assert CompleteStep(p, fuel, id, done.log, w);
    Rerun(p.body, fuel, id, 1, done);
    assert RunChild(p.name, p.subType, p.options, p.body, fuel, id, Execution, done).violated;
  }

  lemma BodyDiverges(p: Program, fuel: nat, id: Id, w: World, j: nat)
    requires p.Child? && DirectStep(p, fuel, id, w).Some?
    requires j <= |LiveEvents(p.body, fuel, id, 1, w)|
    requires DivergesAfter(p.body, fuel, id, 1, w, LiveEvents(p.body, fuel, id, 1, w)[..j])
    ensures j < |LiveStepEvents(p, fuel, id, w)|
    ensures StepDivergesAfter(p, fuel, id, w, LiveStepEvents(p, fuel, id, w)[..j + 1])
  {
    var live := Awake(map[], w);
    var e := LiveStepEvents(p, fuel, id, w);
    var nested := LiveEvents(p.body, fuel, id, 1, w);
    var begin := Opening(p, id, map[]);
    EmptyLogFits(p.body, fuel, id, 1, w);
    OneInvocation(p.body, fuel, id, 1, Execution, live);
    assert ChildReplayMode(id, None, map[]) == Execution;
    assert RunChild(p.name, p.subType, p.options, p.body, fuel, id, Execution, live).events[..j + 1] ==
           begin + nested[..j];
    WritesIn(p.body, fuel, id, 1, Execution, live);
    Beneath(map[], id, ContextStarted(p.name, p.subType), begin, nested[..j]);
    var now := Awake(Apply(map[], e[..j + 1]), w);
    ExecFrame(p.body, fuel, id, 1, Execution, Awake(Apply(map[], nested[..j]), w),
              ChildReplayMode(id, Lookup(now.log, id), now.log), now);
    assert RunChild(p.name, p.subType, p.options, p.body, fuel, id, Execution, now).violated;
  }

  ghost predicate NeverDiverges(p: Program, fuel: nat, w: World) {
    forall turns, logs, i: nat, updated, wakes ::
      History(p, fuel, w, turns, logs) && i < |logs| ==>
        !Invoked(p, fuel, Invocation(logs[i], updated, wakes, w)).violated
  }

  /** No run ever reports divergence exactly when no oversized context holds an operation that writes no final
      record. */
  lemma NeverDivergesIffRerunnable(p: Program, fuel: nat, w: World)
    requires Direct(p, fuel, [], 1, w).Some?
    ensures NeverDiverges(p, fuel, w) <==> Rerunnable(p, fuel, [], 1, w)
  {
    if Rerunnable(p, fuel, [], 1, w) {
      forall turns, logs, i: nat, updated, wakes | History(p, fuel, w, turns, logs) && i < |logs|
        ensures !Invoked(p, fuel, Invocation(logs[i], updated, wakes, w)).violated
      {
        ReplayRefinesDirect(p, fuel, w, turns, logs, i, updated, wakes);
      }
    } else {
      var k := DivergingCut(p, fuel, [], 1, w);
      var all := (id: Id) => true;
      var first := Invoked(p, fuel, Invocation(map[], {}, all, w)).events;
      ExecFrame(p, fuel, [], 1, Execution, Awake(map[], w), Execution, Invocation(map[], {}, all, w));
      var log := Apply(map[], first[..k]);
      var turns, logs := [Invokes({}, all, k)], [map[], log];
      assert Takes(p, fuel, w, turns[0], logs[0], logs[1]);
      assert History(p, fuel, w, turns, logs);
      ExecFrame(p, fuel, [], 1, Execution, Awake(log, w), RootMode(log), Invocation(log, {}, all, w));
      assert Invoked(p, fuel, Invocation(logs[1], {}, all, w)).violated;
    }
  }
}
