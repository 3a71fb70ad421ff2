/**
  In which invocation each stretch of code runs live.

  A crash-free history loses no queued update and ends each invocation but the last suspended. `prev` is the log as
  the previous invocation left it, or None where no earlier invocation has been.
 */
module ReplayLiveness {
  import opened Ids
  import opened ReplayModel
  import opened ReplaySoundness
  import opened ReplayHistories
  import opened ReplayModes

  /** The direct run awaits some invoked function. */
  ghost predicate MaySuspend(p: Program, fuel: nat, path: Id, n: nat, w: World)
    requires Direct(p, fuel, path, n, w).Some?
    decreases fuel, 0
  {
    (p.Invoke? || p.Child?) &&
    (MaySuspendStep(p, fuel - 1, path + [n], w) ||
     MaySuspend(p.then_(DirectStep(p, fuel - 1, path + [n], w).value), fuel - 1, path, n + 1, w))
  }

  ghost predicate MaySuspendStep(p: Program, fuel: nat, id: Id, w: World)
    requires p.Invoke? || p.Child?
    requires DirectStep(p, fuel, id, w).Some?
    decreases fuel, 1
  {
    match p
    case Invoke(_, options, _) => options.input.Good?
    case Child(_, _, _, body, _) => MaySuspend(body, fuel, id, 1, w)
  }

  /**
    In every context, an operation after which the context may still suspend writes a final record, and so do the
    operations a re-run of it would meet.
   */
  ghost predicate Calm(p: Program, fuel: nat, path: Id, n: nat, w: World)
    requires Direct(p, fuel, path, n, w).Some?
    decreases fuel, 0
  {
    (p.Invoke? || p.Child?) ==>
      var id := path + [n];
      var rest := p.then_(DirectStep(p, fuel - 1, id, w).value);
      CalmStep(p, fuel - 1, id, w) && Calm(rest, fuel - 1, path, n + 1, w) &&
      (MaySuspend(rest, fuel - 1, path, n + 1, w) ==> ClosesStep(p, fuel - 1, id, w))
  }

  ghost predicate CalmStep(p: Program, fuel: nat, id: Id, w: World)
    requires p.Invoke? || p.Child?
    requires DirectStep(p, fuel, id, w).Some?
    decreases fuel, 1
  {
    p.Child? ==> Calm(p.body, fuel, id, 1, w)
  }

  // ----- segments -----

  /** s is a segment of the direct run. */
  ghost predicate AllSegments(p: Program, fuel: nat, path: Id, n: nat, w: World, s: Segment)
    requires Direct(p, fuel, path, n, w).Some?
    decreases fuel, 0
  {
    s == Segment(path, n) ||
    ((p.Invoke? || p.Child?) &&
     (AllSegmentsStep(p, fuel - 1, path + [n], w, s) ||
      AllSegments(p.then_(DirectStep(p, fuel - 1, path + [n], w).value), fuel - 1, path, n + 1, w, s)))
  }

  ghost predicate AllSegmentsStep(p: Program, fuel: nat, id: Id, w: World, s: Segment)
    requires p.Invoke? || p.Child?
    requires DirectStep(p, fuel, id, w).Some?
    decreases fuel, 1
  {
    p.Child? && AllSegments(p.body, fuel, id, 1, w, s)
  }

  ghost predicate Over(log: Log, id: Id) {
    id in log && log[id].status.Terminal()
  }

  /** s was run by the invocations that left the log: they went past an operation exactly when it is over. */
  ghost predicate Seen(p: Program, fuel: nat, path: Id, n: nat, log: Log, w: World, s: Segment)
    requires Direct(p, fuel, path, n, w).Some?
    decreases fuel, 0
  {
    s == Segment(path, n) ||
    ((p.Invoke? || p.Child?) &&
     (SeenStep(p, fuel - 1, path + [n], log, w, s) ||
      (Over(log, path + [n]) &&
       Seen(p.then_(DirectStep(p, fuel - 1, path + [n], w).value), fuel - 1, path, n + 1, log, w, s))))
  }

  ghost predicate SeenStep(p: Program, fuel: nat, id: Id, log: Log, w: World, s: Segment)
    requires p.Invoke? || p.Child?
    requires DirectStep(p, fuel, id, w).Some?
    decreases fuel, 1
  {
    p.Child? && id in log &&
    if Over(log, id) then AllSegmentsStep(p, fuel, id, w, s) else Seen(p.body, fuel, id, 1, log, w, s)
  }

  /** The invocation that left the log suspended in this context: at an operation that is not over, nothing after it
      was recorded, and a child it was in is suspended in turn. */
  ghost predicate Stopped(p: Program, fuel: nat, path: Id, n: nat, log: Log, w: World)
    requires Direct(p, fuel, path, n, w).Some?
    decreases fuel, 0
  {
    (p.Invoke? || p.Child?) && path + [n] in log &&
    if Over(log, path + [n]) then
      Stopped(p.then_(DirectStep(p, fuel - 1, path + [n], w).value), fuel - 1, path, n + 1, log, w)
    else
      NoneFrom(log, path, n + 1) && StoppedStep(p, fuel - 1, path + [n], log, w)
  }

  ghost predicate StoppedStep(p: Program, fuel: nat, id: Id, log: Log, w: World)
    requires p.Invoke? || p.Child?
    requires DirectStep(p, fuel, id, w).Some?
    decreases fuel, 1
  {
    p.Child? ==> Stopped(p.body, fuel, id, 1, log, w)
  }

  ghost predicate NoneFrom(log: Log, path: Id, n: nat) {
    forall x :: x in log ==> !In(x, path, n)
  }

  /** The service answered some open invokes since, which the invocation lists as updated, and dropped nothing that
      replay looks at. */
  ghost predicate Follows(prev: Log, inv: Invocation) {
    (forall x :: x in inv.log ==>
      x in prev &&
      (if x in inv.updated then OpenInvoke(prev[x]) && inv.log[x] == Settled(prev[x], inv.world(x))
       else inv.log[x] == prev[x])) &&
    (forall x :: x in prev && x !in inv.log ==> Shadowed(prev, x))
  }

  ghost predicate Resumes(p: Program, fuel: nat, path: Id, n: nat, mode: Mode, inv: Invocation, prev: Option<Log>)
    requires Direct(p, fuel, path, n, inv.world).Some?
  {
    match prev
    case None => mode == Execution && NoneFrom(inv.log, path, n)
    case Some(log) =>
      mode == Replay && Stopped(p, fuel, path, n, log, inv.world) && Follows(log, inv) && Unshadowed(log, path)
  }

  ghost predicate ResumesStep(p: Program, fuel: nat, id: Id, mode: Mode, inv: Invocation, prev: Option<Log>)
    requires p.Invoke? || p.Child?
    requires DirectStep(p, fuel, id, inv.world).Some?
  {
    match prev
    case None => mode == Execution && forall x :: x in inv.log ==> !(id <= x)
    case Some(log) =>
      mode == Replay && id in log && Follows(log, inv) && !Shadowed(log, id) &&
      (!StoredResult(log, id) ==> Unshadowed(log, id)) &&
      (!Over(log, id) ==> StoppedStep(p, fuel, id, log, inv.world))
  }

  ghost predicate Before(p: Program, fuel: nat, path: Id, n: nat, prev: Option<Log>, w: World, s: Segment)
    requires Direct(p, fuel, path, n, w).Some?
  {
    prev.Some? && Seen(p, fuel, path, n, prev.value, w, s)
  }

  ghost predicate BeforeStep(p: Program, fuel: nat, id: Id, prev: Option<Log>, w: World, s: Segment)
    requires p.Invoke? || p.Child?
    requires DirectStep(p, fuel, id, w).Some?
  {
    prev.Some? && SeenStep(p, fuel, id, prev.value, w, s)
  }

  ghost predicate Visited(visits: seq<Visit>, s: Segment) {
    exists v :: v in visits && v.segment == s
  }

  // ----- frames -----

  lemma {:induction false} SeenFrame(p: Program, fuel: nat, path: Id, n: nat, a: Log, b: Log, w: World, s: Segment)
    requires Direct(p, fuel, path, n, w).Some? && Agree(a, b, path, n)
    ensures Seen(p, fuel, path, n, a, w, s) == Seen(p, fuel, path, n, b, w, s)
    ensures Stopped(p, fuel, path, n, a, w) == Stopped(p, fuel, path, n, b, w)
    decreases fuel, 0
  {
    if p.Invoke? || p.Child? {
      var id := path + [n];
      forall x ensures In(x, path, n) <==> id <= x || In(x, path, n + 1) { InSplits(x, path, n); }
      assert Same(a, b, id);
      SeenFrameStep(p, fuel - 1, id, a, b, w, s);
      SeenFrame(p.then_(DirectStep(p, fuel - 1, id, w).value), fuel - 1, path, n + 1, a, b, w, s);
      assert NoneFrom(a, path, n + 1) == NoneFrom(b, path, n + 1) by {
        assert forall x :: In(x, path, n + 1) ==> Same(a, b, x);
      }
    }
  }

  lemma {:induction false} SeenFrameStep(p: Program, fuel: nat, id: Id, a: Log, b: Log, w: World, s: Segment)
    requires p.Invoke? || p.Child?
    requires DirectStep(p, fuel, id, w).Some? && AgreeUnder(a, b, id)
    ensures SeenStep(p, fuel, id, a, w, s) == SeenStep(p, fuel, id, b, w, s)
    ensures StoppedStep(p, fuel, id, a, w) == StoppedStep(p, fuel, id, b, w)
    decreases fuel, 1
  {
    assert Same(a, b, id);
    if p.Child? {
      assert Agree(a, b, id, 1);
      SeenFrame(p.body, fuel, id, 1, a, b, w, s);
    }
  }

  lemma SeenFrameAll(p: Program, fuel: nat, path: Id, n: nat, a: Log, b: Log, w: World)
    requires Direct(p, fuel, path, n, w).Some? && Agree(a, b, path, n)
    ensures forall s :: Seen(p, fuel, path, n, a, w, s) == Seen(p, fuel, path, n, b, w, s)
    ensures Stopped(p, fuel, path, n, a, w) == Stopped(p, fuel, path, n, b, w)
  {
    forall s ensures Seen(p, fuel, path, n, a, w, s) == Seen(p, fuel, path, n, b, w, s) {
      SeenFrame(p, fuel, path, n, a, b, w, s);
    }
    SeenFrame(p, fuel, path, n, a, b, w, Segment(path, n));
  }

  /** Segments lie where their operations do. */
  lemma {:induction false} SegmentsIn(p: Program, fuel: nat, path: Id, n: nat, w: World, s: Segment)
    requires Direct(p, fuel, path, n, w).Some? && AllSegments(p, fuel, path, n, w, s)
    ensures (s.path == path && s.n >= n) || In(s.path, path, n)
    decreases fuel
  {
    if s != Segment(path, n) {
      InSplits(s.path, path, n);
      if AllSegmentsStep(p, fuel - 1, path + [n], w, s) {
        SegmentsIn(p.body, fuel - 1, path + [n], 1, w, s);
      } else {
        SegmentsIn(p.then_(DirectStep(p, fuel - 1, path + [n], w).value), fuel - 1, path, n + 1, w, s);
      }
    }
  }

  lemma {:induction false} SeenIsSegment(p: Program, fuel: nat, path: Id, n: nat, log: Log, w: World, s: Segment)
    requires Direct(p, fuel, path, n, w).Some? && Seen(p, fuel, path, n, log, w, s)
    ensures AllSegments(p, fuel, path, n, w, s)
    decreases fuel
  {
    if s != Segment(path, n) {
      var id := path + [n];
      if SeenStep(p, fuel - 1, id, log, w, s) {
        if !Over(log, id) {
          SeenIsSegment(p.body, fuel - 1, id, 1, log, w, s);
        }
      } else {
        SeenIsSegment(p.then_(DirectStep(p, fuel - 1, id, w).value), fuel - 1, path, n + 1, log, w, s);
      }
    }
  }

  // ----- the visits of one invocation -----

  /** A re-run of a context whose result is recorded visits only segments run before, none of them live. */
  lemma {:induction false} RerunVisits(p: Program, fuel: nat, path: Id, n: nat, inv: Invocation, v: Visit)
    requires Direct(p, fuel, path, n, inv.world).Some? && Closes(p, fuel, path, n, inv.world)
    requires Complete(p, fuel, path, n, inv.log, inv.world)
    requires v in Exec(p, fuel, path, n, SucceededContext, inv).visits
    ensures !v.live && AllSegments(p, fuel, path, n, inv.world, v.segment)
    decreases fuel, 0
  {
    if p.Invoke? || p.Child? {
      var id := path + [n];
      var w := inv.world;
      RerunStep(p, fuel - 1, id, inv);
      var sub := Step(p, fuel - 1, id, SucceededContext, inv);
      if v in sub.visits {
        RerunStepVisits(p, fuel - 1, id, inv, v);
      } else if v != Visit(Segment(path, n), false) {
        RerunVisits(p.then_(DirectStep(p, fuel - 1, id, w).value), fuel - 1, path, n + 1, inv, v);
      }
    }
  }

  lemma {:induction false} RerunStepVisits(p: Program, fuel: nat, id: Id, inv: Invocation, v: Visit)
    requires p.Invoke? || p.Child?
    requires DirectStep(p, fuel, id, inv.world).Some? && ClosesStep(p, fuel, id, inv.world)
    requires CompleteStep(p, fuel, id, inv.log, inv.world)
    requires v in Step(p, fuel, id, SucceededContext, inv).visits
    ensures !v.live && AllSegmentsStep(p, fuel, id, inv.world, v.segment)
    decreases fuel, 1
  {
    if p.Child? {
      assert Step(p, fuel, id, SucceededContext, inv) ==
             RunChild(p.name, p.subType, p.options, p.body, fuel, id, SucceededContext, inv);
      RerunVisits(p.body, fuel, id, 1, inv, v);
    }
  }

  // ----- one invocation -----

  ghost predicate LiveIffNew(p: Program, fuel: nat, path: Id, n: nat, prev: Option<Log>, w: World, visits: seq<Visit>)
    requires Direct(p, fuel, path, n, w).Some?
  {
    forall v :: v in visits ==> v.live == !Before(p, fuel, path, n, prev, w, v.segment)
  }

  ghost predicate LiveIffNewStep(p: Program, fuel: nat, id: Id, prev: Option<Log>, w: World, visits: seq<Visit>)
    requires p.Invoke? || p.Child?
    requires DirectStep(p, fuel, id, w).Some?
  {
    forall v :: v in visits ==> v.live == !BeforeStep(p, fuel, id, prev, w, v.segment)
  }

  /** A finished run has touched every segment; a suspended one leaves a log that tells which it has touched. */
  ghost predicate Covers(p: Program, fuel: nat, path: Id, n: nat, prev: Option<Log>, inv: Invocation, r: Run)
    requires Direct(p, fuel, path, n, inv.world).Some?
  {
    var after := Apply(inv.log, r.events);
    (r.end.Done? ==> forall s ::
      (Before(p, fuel, path, n, prev, inv.world, s) || Visited(r.visits, s)) ==
      AllSegments(p, fuel, path, n, inv.world, s)) &&
    (r.end == Suspended ==> Stopped(p, fuel, path, n, after, inv.world) && forall s ::
      (Before(p, fuel, path, n, prev, inv.world, s) || Visited(r.visits, s)) ==
      Seen(p, fuel, path, n, after, inv.world, s))
  }

  ghost predicate CoversStep(p: Program, fuel: nat, id: Id, prev: Option<Log>, inv: Invocation, r: Run)
    requires p.Invoke? || p.Child?
    requires DirectStep(p, fuel, id, inv.world).Some?
  {
    var after := Apply(inv.log, r.events);
    (r.end.Done? ==> (ClosesStep(p, fuel, id, inv.world) ==> Over(after, id)) && forall s ::
      (BeforeStep(p, fuel, id, prev, inv.world, s) || Visited(r.visits, s)) ==
      AllSegmentsStep(p, fuel, id, inv.world, s)) &&
    (r.end == Suspended ==>
      (prev.Some? ==> !Over(prev.value, id)) && id in after && !Over(after, id) &&
      StoppedStep(p, fuel, id, after, inv.world) && forall s ::
        (BeforeStep(p, fuel, id, prev, inv.world, s) || Visited(r.visits, s)) ==
        SeenStep(p, fuel, id, after, inv.world, s))
  }

  /** What a claimed operation is recorded as: as the previous invocation left it, or answered by the service since. */
  lemma RecordFollows(prev: Log, inv: Invocation, id: Id)
    requires Follows(prev, inv) && id in prev && !Shadowed(prev, id)
    ensures id in inv.log
    ensures Over(prev, id) ==> inv.log[id] == prev[id] && id !in inv.updated
    ensures NewOutcome(id, inv) == !Over(prev, id)
  {
  }

  lemma InvokeCovers(p: Program, fuel: nat, id: Id, mode: Mode, inv: Invocation, prev: Option<Log>)
    requires p.Invoke? && FitsStep(p, fuel, id, inv.log, inv.world)
    requires ResumesStep(p, fuel, id, mode, inv, prev)
    ensures var r := Step(p, fuel, id, mode, inv); CoversStep(p, fuel, id, prev, inv, r) && r.visits == []
  {
    var r := Step(p, fuel, id, mode, inv);
    if prev.Some? {
      RecordFollows(prev.value, inv, id);
    }
    if |r.events| == 2 {
      ApplyTwo(inv.log, r.events);
    }
    assert forall s :: !Visited([], s);
  }

  lemma OverChildCovers(p: Program, fuel: nat, id: Id, mode: Mode, inv: Invocation, prev: Log)
    requires p.Child? && DirectStep(p, fuel, id, inv.world).Some?
    requires FitsStep(p, fuel, id, inv.log, inv.world) && ClosesStep(p, fuel, id, inv.world)
    requires ResumesStep(p, fuel, id, mode, inv, Some(prev)) && Over(prev, id)
    ensures var r := Step(p, fuel, id, mode, inv);
            CoversStep(p, fuel, id, Some(prev), inv, r) && LiveIffNewStep(p, fuel, id, Some(prev), inv.world, r.visits)
  {
    var w := inv.world;
    var r := Step(p, fuel, id, mode, inv);
    RecordFollows(prev, inv, id);
    OneStep(p, fuel, id, mode, inv);
    assert r == RunChild(p.name, p.subType, p.options, p.body, fuel, id, mode, inv);
    if inv.log[id].replayChildren {
      Rerun(p.body, fuel, id, 1, inv);
      forall v | v in r.visits ensures !v.live && AllSegmentsStep(p, fuel, id, w, v.segment) {
        RerunVisits(p.body, fuel, id, 1, inv, v);
      }
    }
    assert r.events == [] && r.end.Done?;
  }

  /** The mode and the earlier history a child's body starts with. */
  lemma BodyResumes(p: Program, fuel: nat, id: Id, mode: Mode, inv: Invocation, prev: Option<Log>)
    requires p.Child? && DirectStep(p, fuel, id, inv.world).Some? && FitsStep(p, fuel, id, inv.log, inv.world)
    requires ResumesStep(p, fuel, id, mode, inv, prev) && (prev.Some? ==> !Over(prev.value, id))
    ensures !Over(inv.log, id)
    ensures Resumes(p.body, fuel, id, 1, ChildReplayMode(id, Lookup(inv.log, id), inv.log), inv, prev)
  {
    match prev
    case None =>
      assert id + [1] !in inv.log;
      forall x | x in inv.log ensures !In(x, id, 1) {
        assert In(x, id, 1) ==> id <= x;
      }
    case Some(log) =>
      RecordFollows(log, inv, id);
      assert Stopped(p.body, fuel, id, 1, log, inv.world);
      UnshadowedStep(log, id, 1);
      RecordFollows(log, inv, id + [1]);
  }

  lemma BodyCovers(p: Program, fuel: nat, id: Id, mode: Mode, inv: Invocation, prev: Option<Log>)
    requires p.Child? && DirectStep(p, fuel, id, inv.world).Some?
    requires FitsStep(p, fuel, id, inv.log, inv.world) && RepeatsCloseStep(p, fuel, id, inv.log, inv.world)
    requires ResumesStep(p, fuel, id, mode, inv, prev) && (prev.Some? ==> !Over(prev.value, id))
    requires !Over(inv.log, id)
    requires var sub := Exec(p.body, fuel, id, 1, ChildReplayMode(id, Lookup(inv.log, id), inv.log), inv);
             Covers(p.body, fuel, id, 1, prev, inv, sub) && LiveIffNew(p.body, fuel, id, 1, prev, inv.world, sub.visits)
    ensures var r := Step(p, fuel, id, mode, inv);
            CoversStep(p, fuel, id, prev, inv, r) && LiveIffNewStep(p, fuel, id, prev, inv.world, r.visits)
  {
    var w, log := inv.world, inv.log;
    var inner := ChildReplayMode(id, Lookup(log, id), log);
    var sub := Exec(p.body, fuel, id, 1, inner, inv);
    var r := Step(p, fuel, id, mode, inv);
    assert r == RunChild(p.name, p.subType, p.options, p.body, fuel, id, mode, inv);
    assert forall s :: BeforeStep(p, fuel, id, prev, w, s) == Before(p.body, fuel, id, 1, prev, w, s);
    assert r.visits == sub.visits;
    WritesIn(p.body, fuel, id, 1, inner, inv);
    Beneath(log, id, ContextStarted(p.name, p.subType), Opening(p, id, log), sub.events);
    var begun := Apply(log, Opening(p, id, log) + sub.events);
    OneInvocation(p.body, fuel, id, 1, inner, inv);
    var all := Opening(p, id, log) + sub.events;
    if sub.end.Done? {
      var record := FinishRecord(p.name, p.subType, p.options, sub.end.outcome);
      var finish := if record.Some? then [Event(Finish, id, record.value)] else [];
      assert r.events == all + finish;
      ApplyAppend(log, all, finish);
      assert Over(Apply(log, r.events), id) || record.None?;
    } else {
      assert r.events == all;
      SeenFrameAll(p.body, fuel, id, 1, Apply(log, sub.events), begun, w);
    }
  }

  // ----- sequencing -----

  /** Whatever is beneath operation n is neither the segment before it nor anything after it. */
  lemma Regions(p: Program, fuel: nat, path: Id, n: nat, w: World, s: Segment)
    requires (p.Invoke? || p.Child?) && Direct(p, fuel, path, n, w).Some?
    ensures var id := path + [n]; var rest := p.then_(DirectStep(p, fuel - 1, id, w).value);
            (id <= s.path ==> s != Segment(path, n) && !AllSegments(rest, fuel - 1, path, n + 1, w, s)) &&
            ((s.path == path && s.n >= n + 1) || In(s.path, path, n + 1) ==>
               s != Segment(path, n) && !AllSegmentsStep(p, fuel - 1, id, w, s))
  {
    var id := path + [n];
    var rest := p.then_(DirectStep(p, fuel - 1, id, w).value);
    InSplits(s.path, path, n);
    if id <= s.path && AllSegments(rest, fuel - 1, path, n + 1, w, s) {
      SegmentsIn(rest, fuel - 1, path, n + 1, w, s);
    }
    if AllSegmentsStep(p, fuel - 1, id, w, s) {
      SegmentsIn(p.body, fuel - 1, id, 1, w, s);
      InSplits(s.path, path, n);
    }
  }

  lemma SeenStepIsSegment(p: Program, fuel: nat, id: Id, log: Log, w: World, s: Segment)
    requires (p.Invoke? || p.Child?) && DirectStep(p, fuel, id, w).Some? && SeenStep(p, fuel, id, log, w, s)
    ensures AllSegmentsStep(p, fuel, id, w, s)
  {
    if !Over(log, id) {
      SeenIsSegment(p.body, fuel, id, 1, log, w, s);
    }
  }

  /** The head operation was over already, or nothing after it was ever run. */
  ghost function After(prev: Option<Log>, id: Id): Option<Log> {
    if prev.Some? && Over(prev.value, id) then prev else None
  }

  lemma HeadResumes(p: Program, fuel: nat, path: Id, n: nat, mode: Mode, inv: Invocation, prev: Option<Log>)
    requires (p.Invoke? || p.Child?) && Direct(p, fuel, path, n, inv.world).Some?
    requires Resumes(p, fuel, path, n, mode, inv, prev)
    ensures ClaimMode(mode, path + [n], inv.log) == mode
    ensures ResumesStep(p, fuel - 1, path + [n], mode, inv, prev)
    ensures Resumes(p.then_(DirectStep(p, fuel - 1, path + [n], inv.world).value), fuel - 1, path, n + 1,
                    ObserveMode(mode, path + [n], inv), inv, After(prev, path + [n]))
  {
    var id := path + [n];
    forall x ensures In(x, path, n) <==> id <= x || In(x, path, n + 1) { InSplits(x, path, n); }
    if prev.Some? {
      UnshadowedStep(prev.value, path, n);
      RecordFollows(prev.value, inv, id);
    }
  }

  lemma {:induction false} RunsStep(p: Program, fuel: nat, id: Id, mode: Mode, inv: Invocation, prev: Option<Log>)
    requires p.Invoke? || p.Child?
    requires DirectStep(p, fuel, id, inv.world).Some?
    requires FitsStep(p, fuel, id, inv.log, inv.world) && RepeatsCloseStep(p, fuel, id, inv.log, inv.world)
    requires CalmStep(p, fuel, id, inv.world) && ResumesStep(p, fuel, id, mode, inv, prev)
    requires prev.Some? && Over(prev.value, id) ==> ClosesStep(p, fuel, id, inv.world)
    ensures var r := Step(p, fuel, id, mode, inv);
            CoversStep(p, fuel, id, prev, inv, r) && LiveIffNewStep(p, fuel, id, prev, inv.world, r.visits)
    decreases fuel, 1
  {
    if p.Invoke? {
      InvokeCovers(p, fuel, id, mode, inv, prev);
    } else if prev.Some? && Over(prev.value, id) {
      OverChildCovers(p, fuel, id, mode, inv, prev.value);
    } else {
      BodyResumes(p, fuel, id, mode, inv, prev);
      Runs(p.body, fuel, id, 1, ChildReplayMode(id, Lookup(inv.log, id), inv.log), inv, prev);
      BodyCovers(p, fuel, id, mode, inv, prev);
    }
  }

  /** The parts of a run: the code before the head operation, the operation, and the code after it. */
  ghost predicate Composed(r: Run, here: Visit, sub: Run, tail: Run) {
    r.events == sub.events + tail.events && r.visits == [here] + sub.visits + tail.visits && r.end == tail.end
  }

  lemma ComposedLive(p: Program, fuel: nat, path: Id, n: nat, mode: Mode, inv: Invocation, prev: Option<Log>,
                     sub: Run, tail: Run, r: Run)
    requires (p.Invoke? || p.Child?) && Direct(p, fuel, path, n, inv.world).Some?
    requires Composed(r, Visit(Segment(path, n), mode == Execution), sub, tail)
    requires mode == (if prev.None? then Execution else Replay)
    requires VisitsUnder(sub.visits, path + [n]) && VisitsIn(tail.visits, path, n + 1)
    requires LiveIffNewStep(p, fuel - 1, path + [n], prev, inv.world, sub.visits)
    requires LiveIffNew(p.then_(DirectStep(p, fuel - 1, path + [n], inv.world).value), fuel - 1, path, n + 1,
                        After(prev, path + [n]), inv.world, tail.visits)
    ensures LiveIffNew(p, fuel, path, n, prev, inv.world, r.visits)
  {
    var id, w := path + [n], inv.world;
    var rest := p.then_(DirectStep(p, fuel - 1, id, w).value);
    forall v | v in r.visits ensures v.live == !Before(p, fuel, path, n, prev, w, v.segment) {
      Regions(p, fuel, path, n, w, v.segment);
      if prev.Some? {
        if SeenStep(p, fuel - 1, id, prev.value, w, v.segment) {
          SeenStepIsSegment(p, fuel - 1, id, prev.value, w, v.segment);
        }
        if Seen(rest, fuel - 1, path, n + 1, prev.value, w, v.segment) {
          SeenIsSegment(rest, fuel - 1, path, n + 1, prev.value, w, v.segment);
        }
      }
    }
  }

  lemma ComposedCovers(p: Program, fuel: nat, path: Id, n: nat, inv: Invocation, prev: Option<Log>,
                       here: Visit, sub: Run, tail: Run, r: Run)
    requires (p.Invoke? || p.Child?) && Direct(p, fuel, path, n, inv.world).Some?
    requires Composed(r, here, sub, tail) && here.segment == Segment(path, n) && sub.end.Done?
    requires forall e :: e in sub.events ==> path + [n] <= e.id
    requires forall e :: e in tail.events ==> In(e.id, path, n + 1)
    requires CoversStep(p, fuel - 1, path + [n], prev, inv, sub)
    requires tail.end == Suspended ==> ClosesStep(p, fuel - 1, path + [n], inv.world)
    requires Covers(p.then_(DirectStep(p, fuel - 1, path + [n], inv.world).value), fuel - 1, path, n + 1,
                    After(prev, path + [n]), inv, tail)
    ensures Covers(p, fuel, path, n, prev, inv, r)
  {
    var id, w := path + [n], inv.world;
    var rest := p.then_(DirectStep(p, fuel - 1, id, w).value);
    var after := Apply(inv.log, r.events);
    Disjoint(inv.log, id, path, n, sub.events, tail.events);
    assert Same(Apply(inv.log, sub.events), after, id);
    forall s ensures Visited(r.visits, s) == (s == Segment(path, n) || Visited(sub.visits, s) ||
                                              Visited(tail.visits, s)) {
      VisitedParts(r.visits, here, sub.visits, tail.visits, s);
    }
    if tail.end == Suspended {
      SeenFrameAll(rest, fuel - 1, path, n + 1, Apply(inv.log, tail.events), after, w);
    }
  }

  lemma VisitedParts(all: seq<Visit>, here: Visit, sub: seq<Visit>, tail: seq<Visit>, s: Segment)
    requires all == [here] + sub + tail
    ensures Visited(all, s) == (s == here.segment || Visited(sub, s) || Visited(tail, s))
  {
    assert here in all;
    assert forall v :: v in all <==> v == here || v in sub || v in tail;
  }

  lemma SuspendedCovers(p: Program, fuel: nat, path: Id, n: nat, inv: Invocation, prev: Option<Log>,
                        here: Visit, sub: Run, r: Run)
    requires (p.Invoke? || p.Child?) && Direct(p, fuel, path, n, inv.world).Some?
    requires r.events == sub.events && r.visits == [here] + sub.visits && r.end == Suspended == sub.end
    requires here.segment == Segment(path, n) && NoneFrom(inv.log, path, n + 1)
    requires forall e :: e in sub.events ==> path + [n] <= e.id
    requires CoversStep(p, fuel - 1, path + [n], prev, inv, sub)
    ensures Covers(p, fuel, path, n, prev, inv, r)
  {
    var id := path + [n];
    var after := Apply(inv.log, r.events);
    assert [here] + sub.visits + [] == r.visits;
    forall s ensures Visited(r.visits, s) == (s == Segment(path, n) || Visited(sub.visits, s)) {
      VisitedParts(r.visits, here, sub.visits, [], s);
    }
    forall x | In(x, path, n + 1) ensures x !in after {
      forall i | 0 <= i < |sub.events| ensures sub.events[i].id != x {
        assert sub.events[i] in sub.events;
        InSplits(x, path, n);
      }
      ApplyElsewhere(inv.log, sub.events, x);
    }
  }

  /** What a run of this context, begun as `Resumes` says, does. */
  ghost predicate RunsAsNew(p: Program, fuel: nat, path: Id, n: nat, mode: Mode, inv: Invocation, prev: Option<Log>)
    requires Direct(p, fuel, path, n, inv.world).Some?
  {
    var r := Exec(p, fuel, path, n, mode, inv);
    Covers(p, fuel, path, n, prev, inv, r) && LiveIffNew(p, fuel, path, n, prev, inv.world, r.visits)
  }

  lemma RunsPastHead(p: Program, fuel: nat, path: Id, n: nat, mode: Mode, inv: Invocation, prev: Option<Log>)
    requires (p.Invoke? || p.Child?) && Direct(p, fuel, path, n, inv.world).Some?
    requires mode == (if prev.None? then Execution else Replay) && ClaimMode(mode, path + [n], inv.log) == mode
    requires var id := path + [n]; var sub := Step(p, fuel - 1, id, mode, inv);
             sub.end == Done(DirectStep(p, fuel - 1, id, inv.world).value) &&
             CoversStep(p, fuel - 1, id, prev, inv, sub) &&
             LiveIffNewStep(p, fuel - 1, id, prev, inv.world, sub.visits) &&
             RunsAsNew(p.then_(sub.end.outcome), fuel - 1, path, n + 1, ObserveMode(mode, id, inv), inv,
                       After(prev, id)) &&
             (Exec(p.then_(sub.end.outcome), fuel - 1, path, n + 1, ObserveMode(mode, id, inv), inv).end
              == Suspended ==>
               ClosesStep(p, fuel - 1, id, inv.world))
    ensures RunsAsNew(p, fuel, path, n, mode, inv, prev)
  {
    var id := path + [n];
    var here := Visit(Segment(path, n), mode == Execution);
    var sub := Step(p, fuel - 1, id, mode, inv);
    var rest, later := p.then_(sub.end.outcome), ObserveMode(mode, id, inv);
    var tail := Exec(rest, fuel - 1, path, n + 1, later, inv);
    var r := Exec(p, fuel, path, n, mode, inv);
    StepWritesUnder(p, fuel - 1, id, mode, inv);
    StepVisits(p, fuel - 1, id, mode, inv);
    WritesIn(rest, fuel - 1, path, n + 1, later, inv);
    ExecVisits(rest, fuel - 1, path, n + 1, later, inv);
    assert Composed(r, here, sub, tail);
    ComposedLive(p, fuel, path, n, mode, inv, prev, sub, tail, r);
    ComposedCovers(p, fuel, path, n, inv, prev, here, sub, tail, r);
  }

  lemma RunsIntoHead(p: Program, fuel: nat, path: Id, n: nat, mode: Mode, inv: Invocation, prev: Option<Log>)
    requires (p.Invoke? || p.Child?) && Direct(p, fuel, path, n, inv.world).Some?
    requires mode == (if prev.None? then Execution else Replay) && ClaimMode(mode, path + [n], inv.log) == mode
    requires NoneFrom(inv.log, path, n + 1)
    requires var id := path + [n]; var sub := Step(p, fuel - 1, id, mode, inv);
             sub.end == Suspended && CoversStep(p, fuel - 1, id, prev, inv, sub) &&
             LiveIffNewStep(p, fuel - 1, id, prev, inv.world, sub.visits)
    ensures RunsAsNew(p, fuel, path, n, mode, inv, prev)
  {
    var id := path + [n];
    var here := Visit(Segment(path, n), mode == Execution);
    var sub := Step(p, fuel - 1, id, mode, inv);
    var tail := Run([], [], false, Suspended);
    var r := Exec(p, fuel, path, n, mode, inv);
    StepWritesUnder(p, fuel - 1, id, mode, inv);
    StepVisits(p, fuel - 1, id, mode, inv);
    SuspendedCovers(p, fuel, path, n, inv, prev, here, sub, r);
    assert Composed(r, here, sub, tail);
    ComposedLive(p, fuel, path, n, mode, inv, prev, sub, tail, r);
  }

  /** A context that an earlier invocation left suspended awaits an invoked function. */
  lemma {:induction false} ResumesSuspends(p: Program, fuel: nat, path: Id, n: nat, mode: Mode, inv: Invocation,
                                           prev: Log)
    requires Direct(p, fuel, path, n, inv.world).Some? && Fits(p, fuel, path, n, inv.log, inv.world)
    requires Resumes(p, fuel, path, n, mode, inv, Some(prev))
    ensures MaySuspend(p, fuel, path, n, inv.world)
    decreases fuel
  {
    var id := path + [n];
    HeadResumes(p, fuel, path, n, mode, inv, Some(prev));
    RecordFollows(prev, inv, id);
    if Over(prev, id) {
      ResumesSuspends(p.then_(DirectStep(p, fuel - 1, id, inv.world).value), fuel - 1, path, n + 1,
                      ObserveMode(mode, id, inv), inv, prev);
    } else if p.Child? {
      BodyResumes(p, fuel - 1, id, mode, inv, Some(prev));
      ResumesSuspends(p.body, fuel - 1, id, 1, ChildReplayMode(id, Lookup(inv.log, id), inv.log), inv, prev);
    }
  }

  lemma {:induction false} StoppedSuspends(p: Program, fuel: nat, path: Id, n: nat, log: Log, w: World)
    requires Direct(p, fuel, path, n, w).Some? && Fits(p, fuel, path, n, log, w) && Stopped(p, fuel, path, n, log, w)
    ensures MaySuspend(p, fuel, path, n, w)
    decreases fuel
  {
    var id := path + [n];
    if Over(log, id) {
      StoppedSuspends(p.then_(DirectStep(p, fuel - 1, id, w).value), fuel - 1, path, n + 1, log, w);
    } else if p.Child? {
      StoppedSuspends(p.body, fuel - 1, id, 1, log, w);
    }
  }

  lemma {:induction false} FreshRepeats(p: Program, fuel: nat, path: Id, n: nat, log: Log, w: World)
    requires Direct(p, fuel, path, n, w).Some? && NoneFrom(log, path, n)
    ensures RepeatsClose(p, fuel, path, n, log, w)
    decreases fuel
  {
    if p.Invoke? || p.Child? {
      var id := path + [n];
      forall x ensures In(x, path, n) <==> id <= x || In(x, path, n + 1) { InSplits(x, path, n); }
      if p.Child? {
        FreshRepeats(p.body, fuel - 1, id, 1, log, w);
      }
      FreshRepeats(p.then_(DirectStep(p, fuel - 1, id, w).value), fuel - 1, path, n + 1, log, w);
    }
  }

  /** A calm handler resumes past operations that close. */
  lemma {:induction false} ResumesRepeats(p: Program, fuel: nat, path: Id, n: nat, mode: Mode, inv: Invocation,
                                          prev: Option<Log>)
    requires Direct(p, fuel, path, n, inv.world).Some? && Fits(p, fuel, path, n, inv.log, inv.world)
    requires Calm(p, fuel, path, n, inv.world) && Resumes(p, fuel, path, n, mode, inv, prev)
    ensures RepeatsClose(p, fuel, path, n, inv.log, inv.world)
    decreases fuel
  {
    if prev.None? {
      FreshRepeats(p, fuel, path, n, inv.log, inv.world);
    } else if p.Invoke? || p.Child? {
      var id := path + [n];
      var rest, later := p.then_(DirectStep(p, fuel - 1, id, inv.world).value), ObserveMode(mode, id, inv);
      HeadResumes(p, fuel, path, n, mode, inv, prev);
      RecordFollows(prev.value, inv, id);
      if Over(prev.value, id) {
        ResumesSuspends(rest, fuel - 1, path, n + 1, later, inv, prev.value);
      } else if p.Child? {
        BodyResumes(p, fuel - 1, id, mode, inv, prev);
        ResumesRepeats(p.body, fuel - 1, id, 1, ChildReplayMode(id, Lookup(inv.log, id), inv.log), inv, prev);
      }
      ResumesRepeats(rest, fuel - 1, path, n + 1, later, inv, After(prev, id));
    }
  }

  /** An operation that an earlier invocation went past before it suspended closes. */
  lemma PassedCloses(p: Program, fuel: nat, path: Id, n: nat, mode: Mode, inv: Invocation, prev: Option<Log>)
    requires (p.Invoke? || p.Child?) && Direct(p, fuel, path, n, inv.world).Some? && Calm(p, fuel, path, n, inv.world)
    requires Fits(p, fuel, path, n, inv.log, inv.world) && Resumes(p, fuel, path, n, mode, inv, prev)
    ensures prev.Some? && Over(prev.value, path + [n]) ==> ClosesStep(p, fuel - 1, path + [n], inv.world)
  {
    var id := path + [n];
    HeadResumes(p, fuel, path, n, mode, inv, prev);
    if prev.Some? && Over(prev.value, id) {
      ResumesSuspends(p.then_(DirectStep(p, fuel - 1, id, inv.world).value), fuel - 1, path, n + 1,
                      ObserveMode(mode, id, inv), inv, prev.value);
    }
  }

  lemma TailSuspends(p: Program, fuel: nat, path: Id, n: nat, mode: Mode, inv: Invocation, prev: Option<Log>)
    requires mode != SucceededContext && Direct(p, fuel, path, n, inv.world).Some?
    requires Fits(p, fuel, path, n, inv.log, inv.world) && RepeatsClose(p, fuel, path, n, inv.log, inv.world)
    requires RunsAsNew(p, fuel, path, n, mode, inv, prev)
    ensures Exec(p, fuel, path, n, mode, inv).end == Suspended ==> MaySuspend(p, fuel, path, n, inv.world)
  {
    var r := Exec(p, fuel, path, n, mode, inv);
    OneInvocation(p, fuel, path, n, mode, inv);
    if r.end == Suspended {
      assert r.events[..|r.events|] == r.events;
      StoppedSuspends(p, fuel, path, n, Apply(inv.log, r.events), inv.world);
    }
  }

  /** One invocation visits a segment live exactly when no earlier one ran it, and leaves a log that says so. */
  lemma {:induction false} Runs(p: Program, fuel: nat, path: Id, n: nat, mode: Mode, inv: Invocation, prev: Option<Log>)
    requires Direct(p, fuel, path, n, inv.world).Some? && Calm(p, fuel, path, n, inv.world)
    requires Fits(p, fuel, path, n, inv.log, inv.world) && RepeatsClose(p, fuel, path, n, inv.log, inv.world)
    requires Resumes(p, fuel, path, n, mode, inv, prev)
    ensures RunsAsNew(p, fuel, path, n, mode, inv, prev)
    decreases fuel, 0
  {
    if p.Invoke? || p.Child? {
      var id := path + [n];
      var rest, later := p.then_(DirectStep(p, fuel - 1, id, inv.world).value), ObserveMode(mode, id, inv);
      HeadResumes(p, fuel, path, n, mode, inv, prev);
      PassedCloses(p, fuel, path, n, mode, inv, prev);
      OneStep(p, fuel - 1, id, mode, inv);
      RunsStep(p, fuel - 1, id, mode, inv, prev);
      if Step(p, fuel - 1, id, mode, inv).end.Done? {
        Runs(rest, fuel - 1, path, n + 1, later, inv, After(prev, id));
        TailSuspends(rest, fuel - 1, path, n + 1, later, inv, After(prev, id));
        RunsPastHead(p, fuel, path, n, mode, inv, prev);
      } else {
        NothingRecordedLater(p, fuel, path, n, mode, inv, prev);
        RunsIntoHead(p, fuel, path, n, mode, inv, prev);
      }
    } else {
      OnlyVisit(Exec(p, fuel, path, n, mode, inv).visits, Segment(path, n));
    }
  }

  lemma OnlyVisit(visits: seq<Visit>, here: Segment)
    requires |visits| == 1 && visits[0].segment == here
    ensures forall s :: Visited(visits, s) <==> s == here
  {
    assert visits[0] in visits;
  }

  lemma NothingRecordedLater(p: Program, fuel: nat, path: Id, n: nat, mode: Mode, inv: Invocation, prev: Option<Log>)
    requires (p.Invoke? || p.Child?) && Direct(p, fuel, path, n, inv.world).Some?
    requires Resumes(p, fuel, path, n, mode, inv, prev) && (prev.Some? ==> !Over(prev.value, path + [n]))
    ensures NoneFrom(inv.log, path, n + 1)
  {
    forall x ensures In(x, path, n + 1) ==> In(x, path, n) { InSplits(x, path, n); }
  }

  // ----- whole histories -----

  function LeftBy(p: Program, fuel: nat, inv: Invocation): Log {
    Apply(inv.log, Invoked(p, fuel, inv).events)
  }

  /** Every invocation but the last suspends, all its updates reach the log, and the next one follows it. */
  ghost predicate CrashFree(p: Program, fuel: nat, w: World, invs: seq<Invocation>) {
    invs != [] && invs[0].log == map[] && (forall i :: 0 <= i < |invs| ==> invs[i].world == w) &&
    forall i :: 0 <= i < |invs| - 1 ==>
      Invoked(p, fuel, invs[i]).end == Suspended && Follows(LeftBy(p, fuel, invs[i]), invs[i + 1])
  }

  ghost predicate VisitedBy(p: Program, fuel: nat, invs: seq<Invocation>, n: nat, s: Segment)
    requires n <= |invs|
  {
    exists j :: 0 <= j < n && Visited(Invoked(p, fuel, invs[j]).visits, s)
  }

  ghost function Previous(p: Program, fuel: nat, invs: seq<Invocation>, i: nat): Option<Log>
    requires i < |invs|
  {
    if i == 0 then None else Some(LeftBy(p, fuel, invs[i - 1]))
  }

  /** Where invocation i stands: it resumes what the earlier ones left, and the log tells what they ran. */
  ghost predicate Told(p: Program, fuel: nat, w: World, invs: seq<Invocation>, i: nat)
    requires Direct(p, fuel, [], 1, w).Some? && i < |invs| && invs[i].world == w
  {
    Fits(p, fuel, [], 1, invs[i].log, w) && [] !in invs[i].log &&
    Resumes(p, fuel, [], 1, RootMode(invs[i].log), invs[i], Previous(p, fuel, invs, i)) &&
    forall s :: VisitedBy(p, fuel, invs, i, s) == Before(p, fuel, [], 1, Previous(p, fuel, invs, i), w, s)
  }

  lemma NextFits(p: Program, fuel: nat, w: World, inv: Invocation, next: Invocation, prev: Option<Log>)
    requires Direct(p, fuel, [], 1, w).Some? && Calm(p, fuel, [], 1, w) && inv.world == w == next.world
    requires Fits(p, fuel, [], 1, inv.log, w) && [] !in inv.log && Resumes(p, fuel, [], 1, RootMode(inv.log), inv, prev)
    requires Follows(LeftBy(p, fuel, inv), next)
    ensures Fits(p, fuel, [], 1, LeftBy(p, fuel, inv), w) && [] !in LeftBy(p, fuel, inv)
    ensures Fits(p, fuel, [], 1, next.log, w) && [] !in next.log
  {
    var r, left := Invoked(p, fuel, inv), LeftBy(p, fuel, inv);
    ResumesRepeats(p, fuel, [], 1, RootMode(inv.log), inv, prev);
    OneInvocation(p, fuel, [], 1, RootMode(inv.log), inv);
    assert r.events[..|r.events|] == r.events;
    WritesIn(p, fuel, [], 1, RootMode(inv.log), inv);
    forall k | 0 <= k < |r.events| ensures r.events[k].id != [] {
      assert r.events[k] in r.events;
    }
    ApplyElsewhere(inv.log, r.events, []);
    assert ServiceActs(left, next.log, w);
    ServiceKeepsFit(p, fuel, [], 1, left, next.log, w);
  }

  lemma NextVisited(p: Program, fuel: nat, invs: seq<Invocation>, i: nat, s: Segment)
    requires i < |invs|
    ensures VisitedBy(p, fuel, invs, i + 1, s) == (VisitedBy(p, fuel, invs, i, s) ||
                                                   Visited(Invoked(p, fuel, invs[i]).visits, s))
  {
  }

  lemma NextIsTold(p: Program, fuel: nat, w: World, invs: seq<Invocation>, i: nat)
    requires Direct(p, fuel, [], 1, w).Some? && Calm(p, fuel, [], 1, w)
    requires CrashFree(p, fuel, w, invs) && i + 1 < |invs| && Told(p, fuel, w, invs, i)
    ensures Told(p, fuel, w, invs, i + 1)
  {
    var inv, next := invs[i], invs[i + 1];
    var left := LeftBy(p, fuel, inv);
    ResumesRepeats(p, fuel, [], 1, RootMode(inv.log), inv, Previous(p, fuel, invs, i));
    Runs(p, fuel, [], 1, RootMode(inv.log), inv, Previous(p, fuel, invs, i));
    NextFits(p, fuel, w, inv, next, Previous(p, fuel, invs, i));
    UnshadowedStep(left, [], 1);
    assert [] + [1] in left;
    forall s ensures VisitedBy(p, fuel, invs, i + 1, s) == Before(p, fuel, [], 1, Some(left), w, s) {
      NextVisited(p, fuel, invs, i, s);
    }
  }

  lemma {:induction false} AllAreTold(p: Program, fuel: nat, w: World, invs: seq<Invocation>, i: nat)
    requires Direct(p, fuel, [], 1, w).Some? && Calm(p, fuel, [], 1, w)
    requires CrashFree(p, fuel, w, invs) && i < |invs|
    ensures Told(p, fuel, w, invs, i)
  {
    if i == 0 {
      EmptyLogFits(p, fuel, [], 1, w);
    } else {
      AllAreTold(p, fuel, w, invs, i - 1);
      NextIsTold(p, fuel, w, invs, i - 1);
    }
  }

  /** No invocation reports divergence, and each stretch of code is live in the first that runs it and in no other. */
  ghost predicate Clean(p: Program, fuel: nat, invs: seq<Invocation>) {
    forall i :: 0 <= i < |invs| ==>
      !Invoked(p, fuel, invs[i]).violated &&
      forall v :: v in Invoked(p, fuel, invs[i]).visits ==> (v.live <==> !VisitedBy(p, fuel, invs, i, v.segment))
  }

  /** Crash-free runs of a calm handler are clean. */
  lemma LiveExactlyOnce(p: Program, fuel: nat, w: World, invs: seq<Invocation>)
    requires Direct(p, fuel, [], 1, w).Some? && Calm(p, fuel, [], 1, w) && CrashFree(p, fuel, w, invs)
    ensures Clean(p, fuel, invs)
  {
    forall i | 0 <= i < |invs|
      ensures !Invoked(p, fuel, invs[i]).violated
      ensures forall v :: v in Invoked(p, fuel, invs[i]).visits ==>
              (v.live <==> !VisitedBy(p, fuel, invs, i, v.segment))
    {
      AllAreTold(p, fuel, w, invs, i);
      ResumesRepeats(p, fuel, [], 1, RootMode(invs[i].log), invs[i], Previous(p, fuel, invs, i));
      Runs(p, fuel, [], 1, RootMode(invs[i].log), invs[i], Previous(p, fuel, invs, i));
      OneInvocation(p, fuel, [], 1, RootMode(invs[i].log), invs[i]);
    }
  }

  /** When the last invocation finishes, every stretch of code of the direct run has been run, and no other. */
  lemma EverySegmentRuns(p: Program, fuel: nat, w: World, invs: seq<Invocation>, s: Segment)
    requires Direct(p, fuel, [], 1, w).Some? && Calm(p, fuel, [], 1, w)
    requires CrashFree(p, fuel, w, invs) && Invoked(p, fuel, invs[|invs| - 1]).end.Done?
    ensures VisitedBy(p, fuel, invs, |invs|, s) <==> AllSegments(p, fuel, [], 1, w, s)
  {
    var i := |invs| - 1;
    AllAreTold(p, fuel, w, invs, i);
    ResumesRepeats(p, fuel, [], 1, RootMode(invs[i].log), invs[i], Previous(p, fuel, invs, i));
    Runs(p, fuel, [], 1, RootMode(invs[i].log), invs[i], Previous(p, fuel, invs, i));
    assert VisitedBy(p, fuel, invs, |invs|, s) ==
           (VisitedBy(p, fuel, invs, i, s) || Visited(Invoked(p, fuel, invs[i]).visits, s));
  }
}
