/** Replay refines direct execution, for one invocation and for whole histories. */
module ReplaySoundness {
  import opened Ids
  import opened ReplayModel

  // ----- regions of the log -----

  /** x is operation number n or later of context path, or lies beneath such an operation. */
  ghost predicate In(x: Id, path: Id, n: nat) {
    path <= x && |path| < |x| && x[|path|] >= n
  }

  lemma InSplits(x: Id, path: Id, n: nat)
    ensures In(x, path, n) <==> path + [n] <= x || In(x, path, n + 1)
    ensures !(path + [n] <= x && In(x, path, n + 1))
    ensures In(x, path + [n], 1) ==> path + [n] <= x && x != path + [n]
  {
    if path + [n] <= x {
      assert x[|path|] == n;
      assert path == (path + [n])[..|path|] == x[..|path|];
    }
    if In(x, path, n) && x[|path|] == n {
      assert x[..|path| + 1] == path + [n];
    }
  }

  ghost predicate Same(a: Log, b: Log, x: Id) {
    (x in a <==> x in b) && (x in a ==> a[x] == b[x])
  }

  ghost predicate Agree(a: Log, b: Log, path: Id, n: nat) {
    forall x :: In(x, path, n) ==> Same(a, b, x)
  }

  ghost predicate AgreeUnder(a: Log, b: Log, id: Id) {
    forall x :: id <= x ==> Same(a, b, x)
  }

  // ----- what a log may hold -----

  /** Every record the log holds for the direct run of p is one that run writes. */
  ghost predicate Fits(p: Program, fuel: nat, path: Id, n: nat, log: Log, w: World)
    requires Direct(p, fuel, path, n, w).Some?
    decreases fuel, 0
  {
    (p.Invoke? || p.Child?) ==>
      var id := path + [n];
      FitsStep(p, fuel - 1, id, log, w) &&
      Fits(p.then_(DirectStep(p, fuel - 1, id, w).value), fuel - 1, path, n + 1, log, w)
  }

  ghost predicate FitsStep(p: Program, fuel: nat, id: Id, log: Log, w: World)
    requires p.Invoke? || p.Child?
    requires DirectStep(p, fuel, id, w).Some?
    decreases fuel, 1
  {
    match p
    case Invoke(name, options, _) =>
      id in log ==>
        options.input.Good? &&
        var started := InvokeStarted(name, options.input.value);
        log[id] == started || log[id] == Settled(started, w(id))
    case Child(name, subType, options, body, _) =>
      if id in log && log[id].status.Terminal() then
        FinishRecord(name, subType, options, Direct(body, fuel, id, 1, w).value) == Some(log[id]) &&
        (log[id].replayChildren ==> Complete(body, fuel, id, 1, log, w))
      else
        (id in log ==> log[id] == ContextStarted(name, subType)) && Fits(body, fuel, id, 1, log, w)
  }

  /** The log holds the final record of every operation of the direct run that writes one, except beneath a
      context whose result is stored. */
  ghost predicate Complete(p: Program, fuel: nat, path: Id, n: nat, log: Log, w: World)
    requires Direct(p, fuel, path, n, w).Some?
    decreases fuel, 0
  {
    (p.Invoke? || p.Child?) ==>
      var id := path + [n];
      CompleteStep(p, fuel - 1, id, log, w) &&
      Complete(p.then_(DirectStep(p, fuel - 1, id, w).value), fuel - 1, path, n + 1, log, w)
  }

  ghost predicate CompleteStep(p: Program, fuel: nat, id: Id, log: Log, w: World)
    requires p.Invoke? || p.Child?
    requires DirectStep(p, fuel, id, w).Some?
    decreases fuel, 1
  {
    match p
    case Invoke(name, options, _) =>
      if options.input.Good?
      then id in log && log[id] == Settled(InvokeStarted(name, options.input.value), w(id))
      else id !in log
    case Child(name, subType, options, body, _) =>
      var record := FinishRecord(name, subType, options, Direct(body, fuel, id, 1, w).value);
      if record.Some? then
        id in log && log[id] == record.value &&
        (record.value.replayChildren ==> Complete(body, fuel, id, 1, log, w))
      else
        id in log ==> log[id] == ContextStarted(name, subType)
  }

  /** Every operation of the direct run writes a final record, beneath oversized contexts too. */
  ghost predicate Closes(p: Program, fuel: nat, path: Id, n: nat, w: World)
    requires Direct(p, fuel, path, n, w).Some?
    decreases fuel, 0
  {
    (p.Invoke? || p.Child?) ==>
      var id := path + [n];
      ClosesStep(p, fuel - 1, id, w) &&
      Closes(p.then_(DirectStep(p, fuel - 1, id, w).value), fuel - 1, path, n + 1, w)
  }

  ghost predicate ClosesStep(p: Program, fuel: nat, id: Id, w: World)
    requires p.Invoke? || p.Child?
    requires DirectStep(p, fuel, id, w).Some?
    decreases fuel, 1
  {
    match p
    case Invoke(_, options, _) => options.input.Good?
    case Child(name, subType, options, body, _) =>
      var record := FinishRecord(name, subType, options, Direct(body, fuel, id, 1, w).value);
      record.Some? && (record.value.replayChildren ==> Closes(body, fuel, id, 1, w))
  }

  /** No oversized context of the direct run holds an operation that writes no final record. */
  ghost predicate Rerunnable(p: Program, fuel: nat, path: Id, n: nat, w: World)
    requires Direct(p, fuel, path, n, w).Some?
    decreases fuel, 0
  {
    (p.Invoke? || p.Child?) ==>
      var id := path + [n];
      RerunnableStep(p, fuel - 1, id, w) &&
      Rerunnable(p.then_(DirectStep(p, fuel - 1, id, w).value), fuel - 1, path, n + 1, w)
  }

  ghost predicate RerunnableStep(p: Program, fuel: nat, id: Id, w: World)
    requires p.Invoke? || p.Child?
    requires DirectStep(p, fuel, id, w).Some?
    decreases fuel, 1
  {
    p.Child? ==>
      Rerunnable(p.body, fuel, id, 1, w) &&
      var record := FinishRecord(p.name, p.subType, p.options, Direct(p.body, fuel, id, 1, w).value);
      (record.Some? && record.value.replayChildren ==> Closes(p.body, fuel, id, 1, w))
  }

  /** Every oversized context the log makes this run repeat holds only operations that write final records. */
  ghost predicate RepeatsClose(p: Program, fuel: nat, path: Id, n: nat, log: Log, w: World)
    requires Direct(p, fuel, path, n, w).Some?
    decreases fuel, 0
  {
    (p.Invoke? || p.Child?) ==>
      var id := path + [n];
      RepeatsCloseStep(p, fuel - 1, id, log, w) &&
      RepeatsClose(p.then_(DirectStep(p, fuel - 1, id, w).value), fuel - 1, path, n + 1, log, w)
  }

  ghost predicate RepeatsCloseStep(p: Program, fuel: nat, id: Id, log: Log, w: World)
    requires p.Invoke? || p.Child?
    requires DirectStep(p, fuel, id, w).Some?
    decreases fuel, 1
  {
    p.Child? ==>
      if id in log && log[id].status.Terminal() then log[id].replayChildren ==> Closes(p.body, fuel, id, 1, w)
      else RepeatsClose(p.body, fuel, id, 1, log, w)
  }

  /** A handler whose oversized contexts all close repeats only such contexts, whatever fitting log it starts from. */
  lemma {:induction false} RerunnableRepeats(p: Program, fuel: nat, path: Id, n: nat, log: Log, w: World)
    requires Direct(p, fuel, path, n, w).Some? && Fits(p, fuel, path, n, log, w) && Rerunnable(p, fuel, path, n, w)
    ensures RepeatsClose(p, fuel, path, n, log, w)
    decreases fuel
  {
    if p.Invoke? || p.Child? {
      if p.Child? && !(path + [n] in log && log[path + [n]].status.Terminal()) {
        RerunnableRepeats(p.body, fuel - 1, path + [n], 1, log, w);
      }
      RerunnableRepeats(p.then_(DirectStep(p, fuel - 1, path + [n], w).value), fuel - 1, path, n + 1, log, w);
    }
  }

  lemma RerunnableStepRepeats(p: Program, fuel: nat, id: Id, log: Log, w: World)
    requires (p.Invoke? || p.Child?) && DirectStep(p, fuel, id, w).Some?
    requires FitsStep(p, fuel, id, log, w) && RerunnableStep(p, fuel, id, w)
    ensures RepeatsCloseStep(p, fuel, id, log, w)
  {
    if p.Child? && !(id in log && log[id].status.Terminal()) {
      RerunnableRepeats(p.body, fuel, id, 1, log, w);
    }
  }

  // ----- frames -----

  lemma {:induction false} Frame(p: Program, fuel: nat, path: Id, n: nat, a: Log, b: Log, w: World)
    requires Direct(p, fuel, path, n, w).Some?
    requires Agree(a, b, path, n)
    ensures Fits(p, fuel, path, n, a, w) == Fits(p, fuel, path, n, b, w)
    ensures Complete(p, fuel, path, n, a, w) == Complete(p, fuel, path, n, b, w)
    decreases fuel, 0
  {
    if p.Invoke? || p.Child? {
      var id := path + [n];
      forall x ensures In(x, path, n) <==> id <= x || In(x, path, n + 1) { InSplits(x, path, n); }
      FrameStep(p, fuel - 1, id, a, b, w);
      Frame(p.then_(DirectStep(p, fuel - 1, id, w).value), fuel - 1, path, n + 1, a, b, w);
    }
  }

  lemma {:induction false} FrameStep(p: Program, fuel: nat, id: Id, a: Log, b: Log, w: World)
    requires p.Invoke? || p.Child?
    requires DirectStep(p, fuel, id, w).Some?
    requires AgreeUnder(a, b, id)
    ensures FitsStep(p, fuel, id, a, w) == FitsStep(p, fuel, id, b, w)
    ensures CompleteStep(p, fuel, id, a, w) == CompleteStep(p, fuel, id, b, w)
    decreases fuel, 1
  {
    assert Same(a, b, id);
    if p.Child? {
      assert Agree(a, b, id, 1);
      Frame(p.body, fuel, id, 1, a, b, w);
    }
  }

  // ----- applying updates -----

  lemma {:induction false} ApplyAppend(log: Log, e: seq<Event>, f: seq<Event>)
    ensures Apply(log, e + f) == Apply(Apply(log, e), f)
    decreases |e|
  {
    if e == [] {
      assert e + f == f;
    } else {
      assert (e + f)[1..] == e[1..] + f;
      ApplyAppend(log[e[0].id := e[0].op], e[1..], f);
    }
  }

  /** An update changes only the record it names, so logs that agree on x still agree on it. */
  lemma {:induction false} ApplySame(a: Log, b: Log, e: seq<Event>, x: Id)
    requires Same(a, b, x)
    ensures Same(Apply(a, e), Apply(b, e), x)
    decreases |e|
  {
    if e != [] {
      ApplySame(a[e[0].id := e[0].op], b[e[0].id := e[0].op], e[1..], x);
    }
  }

  lemma {:induction false} ApplyElsewhere(log: Log, e: seq<Event>, x: Id)
    requires forall i :: 0 <= i < |e| ==> e[i].id != x
    ensures Same(log, Apply(log, e), x)
    decreases |e|
  {
    if e != [] {
      ApplyElsewhere(log[e[0].id := e[0].op], e[1..], x);
    }
  }

  lemma ApplyTwo(log: Log, e: seq<Event>)
    requires |e| == 2
    ensures Apply(log, e) == log[e[0].id := e[0].op][e[1].id := e[1].op]
  {
    assert e[1..] == [e[1]];
    assert Apply(log[e[0].id := e[0].op], [e[1]]) == log[e[0].id := e[0].op][e[1].id := e[1].op];
  }

  // ----- where an invocation writes -----

  lemma {:induction false} WritesIn(p: Program, fuel: nat, path: Id, n: nat, mode: Mode, inv: Invocation)
    ensures forall e :: e in Exec(p, fuel, path, n, mode, inv).events ==> In(e.id, path, n)
    decreases fuel, 0
  {
    if (p.Invoke? || p.Child?) && fuel > 0 {
      var id := path + [n];
      var claimed := ClaimMode(mode, id, inv.log);
      var sub := Step(p, fuel - 1, id, claimed, inv);
      StepWritesUnder(p, fuel - 1, id, claimed, inv);
      forall x ensures In(x, path, n) <==> id <= x || In(x, path, n + 1) { InSplits(x, path, n); }
      if sub.end.Done? {
        WritesIn(p.then_(sub.end.outcome), fuel - 1, path, n + 1, ObserveMode(claimed, id, inv), inv);
      }
    }
  }

  lemma {:induction false} StepWritesUnder(p: Program, fuel: nat, id: Id, mode: Mode, inv: Invocation)
    requires p.Invoke? || p.Child?
    ensures forall e :: e in Step(p, fuel, id, mode, inv).events ==> id <= e.id
    decreases fuel, 1
  {
    if p.Child? {
      WritesIn(p.body, fuel, id, 1, SucceededContext, inv);
      WritesIn(p.body, fuel, id, 1, ChildReplayMode(id, Lookup(inv.log, id), inv.log), inv);
    }
  }

  // ----- running an oversized child again -----

  /** Over a complete log a re-run records nothing and returns the direct outcome, and it meets an operation it
      must not run exactly when some operation of the body writes no final record. */
  lemma {:induction false} Rerun(p: Program, fuel: nat, path: Id, n: nat, inv: Invocation)
    requires Direct(p, fuel, path, n, inv.world).Some?
    requires Complete(p, fuel, path, n, inv.log, inv.world)
    ensures var r := Exec(p, fuel, path, n, SucceededContext, inv);
            (r.violated <==> !Closes(p, fuel, path, n, inv.world)) &&
            (!r.violated ==> r.events == [] && r.end == Done(Direct(p, fuel, path, n, inv.world).value))
    decreases fuel, 0
  {
    if p.Invoke? || p.Child? {
      var id := path + [n];
      RerunStep(p, fuel - 1, id, inv);
      if !Step(p, fuel - 1, id, SucceededContext, inv).violated {
        Rerun(p.then_(DirectStep(p, fuel - 1, id, inv.world).value), fuel - 1, path, n + 1, inv);
      }
    }
  }

  lemma {:induction false} RerunStep(p: Program, fuel: nat, id: Id, inv: Invocation)
    requires p.Invoke? || p.Child?
    requires DirectStep(p, fuel, id, inv.world).Some?
    requires CompleteStep(p, fuel, id, inv.log, inv.world)
    ensures var r := Step(p, fuel, id, SucceededContext, inv);
            (r.violated <==> !ClosesStep(p, fuel, id, inv.world)) &&
            (!r.violated ==> r.events == [] && r.end == Done(DirectStep(p, fuel, id, inv.world).value))
    decreases fuel, 1
  {
    if p.Child? {
      var record := FinishRecord(p.name, p.subType, p.options, Direct(p.body, fuel, id, 1, inv.world).value);
      if record.Some? && record.value.replayChildren {
        Rerun(p.body, fuel, id, 1, inv);
      }
    }
  }

  // ----- one invocation -----

  ghost predicate AllWake(inv: Invocation) {
    forall id :: inv.wakes(id)
  }

  ghost predicate PrefixesFit(p: Program, fuel: nat, path: Id, n: nat, log: Log, events: seq<Event>, w: World)
    requires Direct(p, fuel, path, n, w).Some?
  {
    forall m :: 0 <= m <= |events| ==> Fits(p, fuel, path, n, Apply(log, events[..m]), w)
  }

  ghost predicate PrefixesFitStep(p: Program, fuel: nat, id: Id, log: Log, events: seq<Event>, w: World)
    requires p.Invoke? || p.Child?
    requires DirectStep(p, fuel, id, w).Some?
  {
    forall m :: 0 <= m <= |events| ==> FitsStep(p, fuel, id, Apply(log, events[..m]), w)
  }

  /** What one invocation of p from inv.log guarantees when it meets no divergence. */
  ghost predicate Faithful(p: Program, fuel: nat, path: Id, n: nat, inv: Invocation, r: Run)
    requires Direct(p, fuel, path, n, inv.world).Some?
  {
    (r.end == Suspended || r.end == Done(Direct(p, fuel, path, n, inv.world).value)) &&
    (AllWake(inv) ==> r.end.Done?) &&
    PrefixesFit(p, fuel, path, n, inv.log, r.events, inv.world) &&
    (r.end.Done? ==> Complete(p, fuel, path, n, Apply(inv.log, r.events), inv.world))
  }

  ghost predicate FaithfulStep(p: Program, fuel: nat, id: Id, inv: Invocation, r: Run)
    requires p.Invoke? || p.Child?
    requires DirectStep(p, fuel, id, inv.world).Some?
  {
    (r.end == Suspended || r.end == Done(DirectStep(p, fuel, id, inv.world).value)) &&
    (AllWake(inv) ==> r.end.Done?) &&
    PrefixesFitStep(p, fuel, id, inv.log, r.events, inv.world) &&
    (r.end.Done? ==> CompleteStep(p, fuel, id, Apply(inv.log, r.events), inv.world))
  }

  lemma {:induction false} OneInvocation(p: Program, fuel: nat, path: Id, n: nat, mode: Mode, inv: Invocation)
    requires mode != SucceededContext
    requires Direct(p, fuel, path, n, inv.world).Some?
    requires Fits(p, fuel, path, n, inv.log, inv.world)
    ensures var r := Exec(p, fuel, path, n, mode, inv);
            (!r.violated ==> Faithful(p, fuel, path, n, inv, r)) &&
            (RepeatsClose(p, fuel, path, n, inv.log, inv.world) ==> !r.violated)
    decreases fuel, 0
  {
    var w, log := inv.world, inv.log;
    if p.Invoke? || p.Child? {
      var id := path + [n];
      var claimed := ClaimMode(mode, id, log);
      var sub := Step(p, fuel - 1, id, claimed, inv);
      OneStep(p, fuel - 1, id, claimed, inv);
      if !sub.violated {
        var rest := p.then_(DirectStep(p, fuel - 1, id, w).value);
        StepWritesUnder(p, fuel - 1, id, claimed, inv);
        if sub.end.Done? {
          var later := ObserveMode(claimed, id, inv);
          var tail := Exec(rest, fuel - 1, path, n + 1, later, inv);
          OneInvocation(rest, fuel - 1, path, n + 1, later, inv);
          WritesIn(rest, fuel - 1, path, n + 1, later, inv);
          if !tail.violated {
            Sequenced(p, fuel, path, n, log, sub.events, tail.events, w);
            if tail.end.Done? {
              SequencedComplete(p, fuel, path, n, log, sub.events, tail.events, w);
            }
          }
        } else {
          Sequenced(p, fuel, path, n, log, sub.events, [], w);
          assert sub.events + [] == Exec(p, fuel, path, n, mode, inv).events;
        }
      }
    }
  }

  /** The updates of the head operation and those of the code after it do not disturb each other. */
  lemma Sequenced(p: Program, fuel: nat, path: Id, n: nat, log: Log, head: seq<Event>, tail: seq<Event>, w: World)
    requires (p.Invoke? || p.Child?) && Direct(p, fuel, path, n, w).Some?
    requires forall e :: e in head ==> path + [n] <= e.id
    requires forall e :: e in tail ==> In(e.id, path, n + 1)
    requires PrefixesFitStep(p, fuel - 1, path + [n], log, head, w)
    requires PrefixesFit(p.then_(DirectStep(p, fuel - 1, path + [n], w).value), fuel - 1, path, n + 1, log, tail, w)
    ensures PrefixesFit(p, fuel, path, n, log, head + tail, w)
  {
    forall m | 0 <= m <= |head + tail|
      ensures Fits(p, fuel, path, n, Apply(log, (head + tail)[..m]), w)
    {
      if m <= |head| {
        assert (head + tail)[..m] == head[..m] + tail[..0];
        SequencedPrefix(p, fuel, path, n, log, head[..m], tail[..0], w);
      } else {
        assert head[..|head|] == head;
        assert (head + tail)[..m] == head + tail[..m - |head|];
        SequencedPrefix(p, fuel, path, n, log, head, tail[..m - |head|], w);
      }
    }
  }

  lemma SequencedComplete(p: Program, fuel: nat, path: Id, n: nat, log: Log, head: seq<Event>, tail: seq<Event>,
                          w: World)
    requires (p.Invoke? || p.Child?) && Direct(p, fuel, path, n, w).Some?
    requires forall e :: e in head ==> path + [n] <= e.id
    requires forall e :: e in tail ==> In(e.id, path, n + 1)
    requires CompleteStep(p, fuel - 1, path + [n], Apply(log, head), w)
    requires Complete(p.then_(DirectStep(p, fuel - 1, path + [n], w).value), fuel - 1, path, n + 1, Apply(log, tail), w)
    ensures Complete(p, fuel, path, n, Apply(log, head + tail), w)
  {
    var id := path + [n];
    Disjoint(log, id, path, n, head, tail);
    FrameStep(p, fuel - 1, id, Apply(log, head), Apply(log, head + tail), w);
    Frame(p.then_(DirectStep(p, fuel - 1, id, w).value), fuel - 1, path, n + 1, Apply(log, tail),
          Apply(log, head + tail), w);
  }

  lemma SequencedPrefix(p: Program, fuel: nat, path: Id, n: nat, log: Log, head: seq<Event>, more: seq<Event>, w: World)
    requires (p.Invoke? || p.Child?) && Direct(p, fuel, path, n, w).Some?
    requires forall e :: e in head ==> path + [n] <= e.id
    requires forall e :: e in more ==> In(e.id, path, n + 1)
    requires FitsStep(p, fuel - 1, path + [n], Apply(log, head), w)
    requires Fits(p.then_(DirectStep(p, fuel - 1, path + [n], w).value), fuel - 1, path, n + 1, Apply(log, more), w)
    ensures Fits(p, fuel, path, n, Apply(log, head + more), w)
  {
    var id := path + [n];
    Disjoint(log, id, path, n, head, more);
    FrameStep(p, fuel - 1, id, Apply(log, head), Apply(log, head + more), w);
    Frame(p.then_(DirectStep(p, fuel - 1, id, w).value), fuel - 1, path, n + 1, Apply(log, more),
          Apply(log, head + more), w);
  }

  lemma Disjoint(log: Log, id: Id, path: Id, n: nat, head: seq<Event>, more: seq<Event>)
    requires id == path + [n]
    requires forall e :: e in head ==> id <= e.id
    requires forall e :: e in more ==> In(e.id, path, n + 1)
    ensures AgreeUnder(Apply(log, head), Apply(log, head + more), id)
    ensures Agree(Apply(log, more), Apply(log, head + more), path, n + 1)
  {
    ApplyAppend(log, head, more);
    forall x | id <= x ensures Same(Apply(log, head), Apply(log, head + more), x) {
      forall i | 0 <= i < |more| ensures more[i].id != x {
        assert more[i] in more;
        InSplits(x, path, n);
      }
      ApplyElsewhere(Apply(log, head), more, x);
    }
    forall x | In(x, path, n + 1) ensures Same(Apply(log, more), Apply(log, head + more), x) {
      forall i | 0 <= i < |head| ensures head[i].id != x {
        assert head[i] in head;
        InSplits(x, path, n);
      }
      ApplyElsewhere(log, head, x);
      ApplySame(log, Apply(log, head), more, x);
    }
  }

  lemma {:induction false} OneStep(p: Program, fuel: nat, id: Id, mode: Mode, inv: Invocation)
    requires p.Invoke? || p.Child?
    requires mode != SucceededContext
    requires DirectStep(p, fuel, id, inv.world).Some?
    requires FitsStep(p, fuel, id, inv.log, inv.world)
    ensures var r := Step(p, fuel, id, mode, inv);
            (!r.violated ==> FaithfulStep(p, fuel, id, inv, r)) &&
            (RepeatsCloseStep(p, fuel, id, inv.log, inv.world) ==> !r.violated)
    decreases fuel, 1
  {
    var w, log := inv.world, inv.log;
    var r := Step(p, fuel, id, mode, inv);
    if p.Invoke? {
      InvokeIsFaithful(p, fuel, id, mode, inv);
    } else if id in log && log[id].status.Terminal() {
      if log[id].replayChildren {
        Rerun(p.body, fuel, id, 1, inv);
      }
      assert r == RunChild(p.name, p.subType, p.options, p.body, fuel, id, mode, inv);
      assert r.violated || r.events == [];
    } else {
      var op := Lookup(log, id);
      OneInvocation(p.body, fuel, id, 1, ChildReplayMode(id, op, log), inv);
      assert r == RunChild(p.name, p.subType, p.options, p.body, fuel, id, mode, inv);
      if !r.violated {
        BodyIsFaithful(p, fuel, id, mode, inv);
      }
    }
  }

  lemma InvokeIsFaithful(p: Program, fuel: nat, id: Id, mode: Mode, inv: Invocation)
    requires p.Invoke? && mode != SucceededContext
    requires FitsStep(p, fuel, id, inv.log, inv.world)
    ensures var r := Step(p, fuel, id, mode, inv);
            !r.violated && FaithfulStep(p, fuel, id, inv, r)
  {
    var w, log := inv.world, inv.log;
    var r := Step(p, fuel, id, mode, inv);
    if |r.events| == 2 { ApplyTwo(log, r.events); }
    forall m | 0 <= m <= |r.events| ensures FitsStep(p, fuel, id, Apply(log, r.events[..m]), w) {
      if m == 1 {
        assert r.events[..1] == [r.events[0]];
      } else if m == 2 {
        assert r.events[..2] == r.events;
      }
    }
  }

  /** A child that is not yet finished: its START, the updates of its body, and its final record. */
  lemma BodyIsFaithful(p: Program, fuel: nat, id: Id, mode: Mode, inv: Invocation)
    requires p.Child? && mode != SucceededContext
    requires DirectStep(p, fuel, id, inv.world).Some?
    requires FitsStep(p, fuel, id, inv.log, inv.world)
    requires !(id in inv.log && inv.log[id].status.Terminal())
    requires var r := Exec(p.body, fuel, id, 1, ChildReplayMode(id, Lookup(inv.log, id), inv.log), inv);
             !r.violated && Faithful(p.body, fuel, id, 1, inv, r)
    ensures FaithfulStep(p, fuel, id, inv, Step(p, fuel, id, mode, inv))
  {
    var w, log := inv.world, inv.log;
    var op := Lookup(log, id);
    var sub := Exec(p.body, fuel, id, 1, ChildReplayMode(id, op, log), inv);
    var r := Step(p, fuel, id, mode, inv);
    assert r == RunChild(p.name, p.subType, p.options, p.body, fuel, id, mode, inv);
    var begin := Opening(p, id, log);
    WritesIn(p.body, fuel, id, 1, ChildReplayMode(id, op, log), inv);
    OpenPrefixes(p, fuel, id, log, sub.events, w);
    if sub.end.Done? {
      var record := FinishRecord(p.name, p.subType, p.options, sub.end.outcome);
      var finish := if record.Some? then [Event(Finish, id, record.value)] else [];
      assert r.events == begin + sub.events + finish;
      Closing(p, fuel, id, log, sub.events, finish, w);
      forall m | 0 <= m <= |r.events| ensures FitsStep(p, fuel, id, Apply(log, r.events[..m]), w) {
        if m <= |begin| + |sub.events| {
          assert r.events[..m] == (begin + sub.events)[..m];
        } else {
          assert r.events[..m] == r.events;
        }
      }
    } else {
      assert r.events == begin + sub.events;
    }
  }

  ghost function Opening(p: Program, id: Id, log: Log): seq<Event>
    requires p.Child?
  {
    if id in log then [] else [Event(Start, id, ContextStarted(p.name, p.subType))]
  }

  lemma OpenPrefixes(p: Program, fuel: nat, id: Id, log: Log, nested: seq<Event>, w: World)
    requires p.Child? && DirectStep(p, fuel, id, w).Some? && FitsStep(p, fuel, id, log, w)
    requires !(id in log && log[id].status.Terminal())
    requires forall e :: e in nested ==> In(e.id, id, 1)
    requires PrefixesFit(p.body, fuel, id, 1, log, nested, w)
    ensures PrefixesFitStep(p, fuel, id, log, Opening(p, id, log) + nested, w)
  {
    var begin := Opening(p, id, log);
    forall m | 0 <= m <= |begin| + |nested|
      ensures FitsStep(p, fuel, id, Apply(log, (begin + nested)[..m]), w)
    {
      if m < |begin| {
        assert (begin + nested)[..m] == [];
      } else {
        var some := nested[..m - |begin|];
        assert (begin + nested)[..m] == begin + some;
        Beneath(log, id, ContextStarted(p.name, p.subType), begin, some);
        Frame(p.body, fuel, id, 1, Apply(log, some), Apply(log, begin + some), w);
      }
    }
  }

  lemma Closing(p: Program, fuel: nat, id: Id, log: Log, nested: seq<Event>, finish: seq<Event>, w: World)
    requires p.Child? && DirectStep(p, fuel, id, w).Some? && FitsStep(p, fuel, id, log, w)
    requires !(id in log && log[id].status.Terminal())
    requires forall e :: e in nested ==> In(e.id, id, 1)
    requires PrefixesFit(p.body, fuel, id, 1, log, nested, w)
    requires Complete(p.body, fuel, id, 1, Apply(log, nested), w)
    requires var record := FinishRecord(p.name, p.subType, p.options, Direct(p.body, fuel, id, 1, w).value);
             finish == if record.Some? then [Event(Finish, id, record.value)] else []
    ensures var after := Apply(log, Opening(p, id, log) + nested + finish);
            FitsStep(p, fuel, id, after, w) && CompleteStep(p, fuel, id, after, w)
  {
    var begin := Opening(p, id, log);
    Beneath(log, id, ContextStarted(p.name, p.subType), begin, nested);
    var before := Apply(log, begin + nested);
    var after := Apply(log, begin + nested + finish);
    ApplyAppend(log, begin + nested, finish);
    assert Agree(Apply(log, nested), after, id, 1);
    assert nested[..|nested|] == nested;
    Frame(p.body, fuel, id, 1, Apply(log, nested), after, w);
    if finish != [] {
      assert after == before[id := finish[0].op];
    } else {
      assert after == before;
    }
  }

  lemma Beneath(log: Log, id: Id, started: Operation, begin: seq<Event>, nested: seq<Event>)
    requires begin == if id in log then [] else [Event(Start, id, started)]
    requires forall e :: e in nested ==> In(e.id, id, 1)
    ensures Agree(Apply(log, nested), Apply(log, begin + nested), id, 1)
    ensures id in Apply(log, begin + nested)
    ensures Apply(log, begin + nested)[id] == if id in log then log[id] else started
  {
    ApplyAppend(log, begin, nested);
    forall i | 0 <= i < |nested| ensures nested[i].id != id {
      assert nested[i] in nested;
    }
    ApplyElsewhere(Apply(log, begin), nested, id);
    forall x | In(x, id, 1) ensures Same(Apply(log, nested), Apply(log, begin + nested), x) {
      ApplySame(log, Apply(log, begin), nested, x);
    }
  }
}
