/**
  A handler whose second invocation returns another result than its first.

  A child context returns a value too large to store. Inside it, a nested child fails to marshal its result, so it
  never records an outcome. The next invocation runs the outer body again to rebuild the value and finds the nested
  child unfinished inside a context whose result is recorded.
 */
module ReplayCounterexample {
  import opened Ids
  import opened ReplayModel
  import opened ReplaySoundness
  import opened ReplayHistories
  import opened ReplayLiveness
  import opened ReplayStops
  import opened ReplayTwice

  const BROKEN := Application(ErrorRecord("SerdesError", "", ""), 0)

  function Large(v: Value): Payload {
    if v >= 0 then seq(CHECKPOINT_SIZE_LIMIT + 1 + v, _ => 'x') else ""
  }

  /** The outer context stores values in payloads above the limit, with an empty summary. */
  function LargeOptions(): ChildOptions {
    ChildOptions(v => Good(Large(v)), (p: Payload) => Good(|p| - CHECKPOINT_SIZE_LIMIT - 1), v => Good(""),
                 r => Application(r, 0))
  }

  function BrokenOptions(): ChildOptions {
    ChildOptions(v => Bad(BROKEN), p => Bad(BROKEN), v => Good(""), r => Application(r, 0))
  }

  /** Tells the nested child's own failure from a reported divergence. */
  function AfterNested(o: Outcome): Program {
    if o == Err(BROKEN) then Return(1) else Return(2)
  }

  function Body(): Program {
    Child("nested", "RunInChildContext", BrokenOptions(), Return(0), AfterNested)
  }

  function AfterOuter(o: Outcome): Program {
    match o
    case Ok(v) => Return(v)
    case Err(e) => Fail(e)
  }

  function Handler(): Program {
    Child("outer", "RunInChildContext", LargeOptions(), Body(), AfterOuter)
  }

  lemma DirectResult(w: World)
    ensures Direct(Body(), 2, [1], 1, w) == Some(Ok(1))
    ensures Direct(Handler(), 3, [], 1, w) == Some(Ok(1))
  {
    var inner := DirectStep(Body(), 1, [1, 1], w);
    assert [1] + [1] == [1, 1] && [] + [1] == [1];
    assert Direct(Return(0), 1, [1, 1], 1, w) == Some(Ok(0));
    assert inner == Some(LiveReturn(BrokenOptions(), Ok(0))) == Some(Err(BROKEN));
    assert Direct(Body(), 2, [1], 1, w) == Direct(AfterNested(Err(BROKEN)), 1, [1], 2, w);
    assert |Large(1)| == CHECKPOINT_SIZE_LIMIT + 2;
    assert DirectStep(Handler(), 2, [1], w) == Some(Ok(1));
  }

  lemma HandlerNotRerunnable(w: World)
    ensures Direct(Handler(), 3, [], 1, w).Some? && !Rerunnable(Handler(), 3, [], 1, w)
  {
    DirectResult(w);
    assert [] + [1] == [1] && [1] + [1] == [1, 1];
    assert FinishRecord("nested", "RunInChildContext", BrokenOptions(), Ok(0)) == None;
    assert !ClosesStep(Body(), 1, [1, 1], w);
    assert !Closes(Body(), 2, [1], 1, w);
    assert |Large(1)| == CHECKPOINT_SIZE_LIMIT + 2;
    assert !RerunnableStep(Handler(), 2, [1], w);
  }

  /** The log holds the oversized outer context, and nothing final of the nested one. */
  ghost predicate HoldsOuter(log: Log) {
    [1] in log && log[[1]].opType == CONTEXT && log[[1]].subType == "RunInChildContext" && log[[1]].name == "outer" &&
    log[[1]].status == Succeeded && log[[1]].replayChildren &&
    ([1, 1] in log ==> log[[1, 1]].status == Started)
  }

  lemma CompleteHoldsOuter(log: Log, w: World)
    requires Complete(Handler(), 3, [], 1, log, w)
    ensures HoldsOuter(log)
  {
    DirectResult(w);
    assert [] + [1] == [1] && [1] + [1] == [1, 1];
    assert CompleteStep(Handler(), 2, [1], log, w);
    assert |Large(1)| == CHECKPOINT_SIZE_LIMIT + 2;
    assert [1] in log && log[[1]].status == Succeeded && log[[1]].replayChildren;
    assert Complete(Body(), 2, [1], 1, log, w);
    assert CompleteStep(Body(), 1, [1, 1], log, w);
  }

  lemma FirstInvocation(w: World)
    ensures var first := Invoked(Handler(), 3, Awake(map[], w));
            first.end == Done(Ok(1)) && !first.violated && HoldsOuter(Apply(map[], first.events))
  {
    DirectResult(w);
    EmptyLogFits(Handler(), 3, [], 1, w);
    OneInvocation(Handler(), 3, [], 1, Execution, Awake(map[], w));
    var first := Invoked(Handler(), 3, Awake(map[], w));
    assert first.events[..|first.events|] == first.events;
    CompleteHoldsOuter(Apply(map[], first.events), w);
  }

  lemma NextInvocation(log: Log, w: World)
    requires HoldsOuter(log)
    ensures var next := Invoked(Handler(), 3, Awake(log, w)); next.end == Done(Ok(2)) && next.violated
  {
    assert [] + [1] == [1];
    assert |Large(2)| == CHECKPOINT_SIZE_LIMIT + 3;
    NestedIsUnfinished(log, w);
    var inv := Awake(log, w);
    assert RunChild("outer", "RunInChildContext", LargeOptions(), Body(), 2, [1], ClaimMode(RootMode(log), [1], log),
                    inv).end ==
           Done(RerunReturn(LargeOptions(), Ok(2)));
  }

  /** The first invocation gives 1 and records everything it can; the next one gives 2 and reports divergence. */
  lemma SecondInvocationDiffers(w: World)
    ensures var first := Invoked(Handler(), 3, Awake(map[], w));
            var next := Invoked(Handler(), 3, Awake(Apply(map[], first.events), w));
            first.end == Done(Ok(1)) && !first.violated && next.end == Done(Ok(2)) && next.violated
  {
    FirstInvocation(w);
    NextInvocation(Apply(map[], Invoked(Handler(), 3, Awake(map[], w)).events), w);
  }

  lemma NestedIsUnfinished(log: Log, w: World)
    requires [1, 1] in log ==> !log[[1, 1]].status.Terminal()
    ensures var r := Exec(Body(), 2, [1], 1, SucceededContext, Awake(log, w)); r.end == Done(Ok(2)) && r.violated
  {
    assert [1] + [1] == [1, 1];
    var inv := Awake(log, w);
    var sub := Step(Body(), 1, [1, 1], SucceededContext, inv);
    assert sub == RunChild("nested", "RunInChildContext", BrokenOptions(), Return(0), 1, [1, 1], SucceededContext, inv);
    assert sub == Run([], [], true, Done(Err(NonDeterministic([1, 1]))));
  }

  // ----- code that is live twice -----

  function PlainInvoke(): InvokeOptions {
    InvokeOptions(Good(""), (p: Payload) => Good(0), (s: Status, r: ErrorRecord) => Application(r, 0))
  }

  function AfterInvoke(o: Outcome): Program {
    Return(0)
  }

  function ThenInvoke(o: Outcome): Program {
    Invoke("later", PlainInvoke(), AfterInvoke)
  }

  /** A child that fails to marshal its result, and an invoke after it. */
  function Unfirm(): Program {
    Child("nested", "RunInChildContext", BrokenOptions(), Return(0), ThenInvoke)
  }

  function ChildRecord(): Operation {
    ContextStarted("nested", "RunInChildContext")
  }

  function InvokeRecord(): Operation {
    InvokeStarted("later", "")
  }

  function Asleep(log: Log, w: World): Invocation {
    Invocation(log, {}, (id: Id) => false, w)
  }

  /** The head of the handler, in either invocation. */
  lemma ChildStep(inv: Invocation, mode: Mode)
    requires mode != SucceededContext && ([1] in inv.log ==> inv.log[[1]] == ChildRecord())
    ensures var r := Step(Unfirm(), 1, [1], mode, inv);
            r.end.Done? && r.events == if [1] in inv.log then [] else [Event(Start, [1], ChildRecord())]
  {
    var r := Step(Unfirm(), 1, [1], mode, inv);
    assert FinishRecord("nested", "RunInChildContext", BrokenOptions(), Ok(0)) == None;
    assert r == RunChild("nested", "RunInChildContext", BrokenOptions(), Return(0), 1, [1], mode, inv);
  }

  /** The code after the child is live in either invocation. */
  lemma UnfirmRun(inv: Invocation, mode: Mode)
    requires mode != SucceededContext && ([1] in inv.log ==> inv.log[[1]] == ChildRecord()) && [1] !in inv.updated
    requires [1] !in inv.log ==> mode == Execution
    ensures var r := Exec(Unfirm(), 2, [], 1, mode, inv);
            var sub := Step(Unfirm(), 1, [1], mode, inv);
            Visit(Segment([], 2), true) in r.visits && sub.end.Done? &&
            var rest := Exec(ThenInvoke(sub.end.outcome), 1, [], 2, Execution, inv);
            r.events == (if [1] in inv.log then [] else [Event(Start, [1], ChildRecord())]) + rest.events &&
            r.end == rest.end
  {
    assert [] + [1] == [1];
    assert ClaimMode(mode, [1], inv.log) == mode && ObserveMode(mode, [1], inv) == Execution;
    ChildStep(inv, mode);
    var sub := Step(Unfirm(), 1, [1], mode, inv);
    var rest := Exec(ThenInvoke(sub.end.outcome), 1, [], 2, Execution, inv);
    assert rest.visits[0] == Visit(Segment([], 2), true);
    assert Exec(Unfirm(), 2, [], 1, mode, inv) ==
           rest.After(sub.events, [Visit(Segment([], 1), mode == Execution)] + sub.visits, sub.violated);
  }

  lemma InvokeStep(o: Outcome, w: World)
    ensures var r := Exec(ThenInvoke(o), 1, [], 2, Execution, Asleep(map[], w));
            r.end == Suspended && r.events == [Event(Start, [2], InvokeRecord())]
  {
    assert [] + [2] == [2];
    var sub := Step(ThenInvoke(o), 0, [2], Execution, Asleep(map[], w));
    assert sub == RunInvoke("later", PlainInvoke(), [2], Execution, Asleep(map[], w));
  }

  function RecordedLog(): Log {
    map[[1] := ChildRecord(), [2] := InvokeRecord()]
  }

  lemma FirstLeaves(w: World)
    ensures var first := Asleep(map[], w);
            LeftBy(Unfirm(), 2, first) == RecordedLog() && Invoked(Unfirm(), 2, first).end == Suspended &&
            Visit(Segment([], 2), true) in Invoked(Unfirm(), 2, first).visits
  {
    var first := Asleep(map[], w);
    UnfirmRun(first, Execution);
    InvokeStep(Step(Unfirm(), 1, [1], Execution, first).end.outcome, w);
    var events := Invoked(Unfirm(), 2, first).events;
    assert events == [Event(Start, [1], ChildRecord()), Event(Start, [2], InvokeRecord())];
    ApplyTwo(map[], events);
  }

  /** The first invocation stops at the invoke. */
  lemma FirstStops(w: World)
    requires Invoked(Unfirm(), 2, Asleep(map[], w)).end == Suspended
    ensures StoppedAt(Unfirm(), 2, [], 1, Execution, Asleep(map[], w)) == [2]
  {
    var first := Asleep(map[], w);
    UnfirmRun(first, Execution);
    InvokeStep(Step(Unfirm(), 1, [1], Execution, first).end.outcome, w);
    assert [] + [1] == [1] && [] + [2] == [2];
    var rest := ThenInvoke(Step(Unfirm(), 1, [1], Execution, first).end.outcome);
    assert StoppedAt(rest, 1, [], 2, Execution, first) == [2];
  }

  lemma FollowingPair(w: World)
    ensures var first, second := Asleep(map[], w), AnsweredAt(RecordedLog(), [2], w);
            CrashFree(Unfirm(), 2, w, [first, second]) && Listed(Unfirm(), 2, [first, second])
  {
    var first, second := Asleep(map[], w), AnsweredAt(RecordedLog(), [2], w);
    FirstLeaves(w);
    FirstStops(w);
    AnswerFollows(RecordedLog(), [2], w);
  }

  /** The code between the two operations is live in the first invocation and live again in the next, which lists the
      answered invoke as updated, because the child never recorded an outcome. */
  lemma LiveTwice(w: World)
    ensures var first, second := Asleep(map[], w), AnsweredAt(RecordedLog(), [2], w);
            CrashFree(Unfirm(), 2, w, [first, second]) && Listed(Unfirm(), 2, [first, second]) &&
            Visit(Segment([], 2), true) in Invoked(Unfirm(), 2, first).visits &&
            Visit(Segment([], 2), true) in Invoked(Unfirm(), 2, second).visits
  {
    FirstLeaves(w);
    FollowingPair(w);
    var second := AnsweredAt(RecordedLog(), [2], w);
    assert [1] in RecordedLog() && [1] in second.log;
    UnfirmRun(second, Replay);
  }
}
