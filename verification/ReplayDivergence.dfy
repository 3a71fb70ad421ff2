/**
  When recorded operations and code do not match: what one operation answers, over its record's fields alone, and what
  becomes of a log that other code replays.
 */
module ReplayDivergence {
  import opened Ids
  import opened ReplayModel
  import opened ReplaySoundness
  import opened ReplayHistories
  import opened ReplayTwice

  // ----- one operation -----

  /** The record is of an operation the code does not ask for; a record without a type is not compared. */
  ghost predicate OtherRecord(log: Log, id: Id, opType: string, subType: string, name: string) {
    id in log && log[id].opType != "" &&
    (log[id].opType != opType || (subType != "" && log[id].subType != subType) || log[id].name != name)
  }

  /** Inside a context whose result is recorded, the operation has no final record. */
  ghost predicate MustNotRun(log: Log, id: Id, mode: Mode) {
    mode == SucceededContext &&
    (id !in log || log[id].status == Started || log[id].status == Pending || log[id].status == Ready)
  }

  function Divergence(id: Id): Run {
    Run([], [], true, Done(Err(NonDeterministic(id))))
  }

  /** An invoke reports divergence exactly when its record is of another operation, or it must not run. */
  lemma InvokeDivergesIff(name: string, options: InvokeOptions, id: Id, mode: Mode, inv: Invocation)
    ensures var r := RunInvoke(name, options, id, mode, inv);
            var diverges :=
              OtherRecord(inv.log, id, "CHAINED_INVOKE", "ChainedInvoke", name) || MustNotRun(inv.log, id, mode);
            (r.violated <==> diverges) && (r == Divergence(id) <==> diverges)
  {
  }

  /** So does a child; any other divergence it reports is one of its body. */
  lemma ChildDivergesIff(name: string, subType: string, options: ChildOptions, body: Program, fuel: nat, id: Id,
                         mode: Mode, inv: Invocation)
    ensures var r := RunChild(name, subType, options, body, fuel, id, mode, inv);
            r == Divergence(id) <==> OtherRecord(inv.log, id, "CONTEXT", subType, name) || MustNotRun(inv.log, id, mode)
  {
    HasVisits(body, fuel, id, 1, SucceededContext, inv);
    HasVisits(body, fuel, id, 1, ChildReplayMode(id, Lookup(inv.log, id), inv.log), inv);
  }

  lemma HasVisits(p: Program, fuel: nat, path: Id, n: nat, mode: Mode, inv: Invocation)
    ensures Exec(p, fuel, path, n, mode, inv).visits != []
  {
  }

  /** How the invoked function ended, as far as this invocation learns of it. */
  ghost predicate Ends(options: InvokeOptions, id: Id, inv: Invocation, status: Status, payload: Payload,
                       error: ErrorRecord) {
    if id in inv.log && Final(inv.log[id].status) then
      inv.log[id].status == status && inv.log[id].payload == payload && inv.log[id].error == error
    else
      inv.wakes(id) && (id in inv.log || options.input.Good?) &&
      inv.world(id).status == status && inv.world(id).payload == payload && inv.world(id).error == error
  }

  ghost predicate Final(s: Status) {
    s == Succeeded || s == Failed || s == Cancelled || s == TimedOut || s == Stopped
  }

  /**
    An invoke that does not diverge returns a value exactly when the function succeeded with a payload that unmarshals,
    fails with what any other ending says, and waits for an ending that has not come.
   */
  lemma InvokeAnswersIff(name: string, options: InvokeOptions, id: Id, mode: Mode, inv: Invocation)
    requires !RunInvoke(name, options, id, mode, inv).violated && (id in inv.log || options.input.Good?)
    ensures var r := RunInvoke(name, options, id, mode, inv);
            (forall v :: r.end == Done(Ok(v)) <==>
               exists payload, error :: Ends(options, id, inv, Succeeded, payload, error) &&
                                        options.unmarshal(payload) == Good(v)) &&
            (forall status, payload, error :: Ends(options, id, inv, status, payload, error) && status != Succeeded ==>
               r.end == Done(Err(options.failure(status, error)))) &&
            (forall payload, error, e ::
               Ends(options, id, inv, Succeeded, payload, error) && options.unmarshal(payload) == Bad(e) ==>
               r.end == Done(Err(e))) &&
            (r.end == Suspended <==> forall status, payload, error :: !Ends(options, id, inv, status, payload, error))
  {
    var r := RunInvoke(name, options, id, mode, inv);
    var status, payload, error := inv.world(id).status, inv.world(id).payload, inv.world(id).error;
    if id in inv.log && Final(inv.log[id].status) {
      assert Ends(options, id, inv, inv.log[id].status, inv.log[id].payload, inv.log[id].error);
    } else if inv.wakes(id) {
      assert Ends(options, id, inv, status, payload, error);
    }
  }

  /** The START of an invoke that was never recorded, and the ending it waited for, are all that an invoke records. */
  lemma InvokeRecordsIff(name: string, options: InvokeOptions, id: Id, mode: Mode, inv: Invocation)
    requires !RunInvoke(name, options, id, mode, inv).violated && (id in inv.log || options.input.Good?)
    ensures var started := Operation("CHAINED_INVOKE", "ChainedInvoke", name, Started,
                                     if id in inv.log then "" else options.input.value, false, ErrorRecord("", "", ""));
            var op := if id in inv.log then inv.log[id] else started;
            var ended := Operation(op.opType, op.subType, op.name, inv.world(id).status, inv.world(id).payload,
                                   op.replayChildren, inv.world(id).error);
            RunInvoke(name, options, id, mode, inv).events ==
            (if id in inv.log then [] else [Event(Start, id, started)]) +
            (if inv.wakes(id) && !Final(op.status) then [Event(External, id, ended)] else [])
  {
  }

  /** A child returns a value exactly when its body did, the value marshals and comes back from its bytes, and a result
      too large to store has a summary; a failed body's error is the one built from its record. */
  lemma ChildReturnsIff(options: ChildOptions, o: Outcome)
    ensures match o
            case Err(Application(record, _)) => LiveReturn(options, o) == Err(options.failure(record))
            case Err(NonDeterministic(_)) =>
              LiveReturn(options, o) == Err(options.failure(ErrorRecord("NonDeterministicExecutionError", "", "")))
            case Ok(v) =>
              forall u :: LiveReturn(options, o) == Ok(u) <==>
                exists payload :: options.marshal(v) == Good(payload) && options.unmarshal(payload) == Good(u) &&
                                  (|payload| > 262144 ==> options.summary(v).Good?)
  {
  }

  /** What a child records once its body ended: the failure, the stored result, or a summary and that it must re-run. */
  lemma ChildRecordsIff(name: string, subType: string, options: ChildOptions, o: Outcome, op: Operation)
    ensures FinishRecord(name, subType, options, o) == Some(op) <==>
            op.opType == "CONTEXT" && op.subType == subType && op.name == name &&
            match o
            case Err(e) =>
              op.status == Failed && op.payload == "" && !op.replayChildren &&
              op.error == (if e.Application? then e.record else ErrorRecord("NonDeterministicExecutionError", "", ""))
            case Ok(v) =>
              op.status == Succeeded && op.error == ErrorRecord("", "", "") && options.marshal(v).Good? &&
              (op.replayChildren <==> |options.marshal(v).value| > 262144) &&
              (if op.replayChildren then options.summary(v) == Good(op.payload)
               else options.marshal(v) == Good(op.payload))
  {
  }

  // ----- code that changed -----

  /** The code of q asks for another operation than the one p recorded here. */
  ghost predicate Unlike(p: Program, q: Program) {
    (p.Invoke? && q.Child?) || (p.Child? && q.Invoke?) || (p.Invoke? && q.Invoke? && p.name != q.name) ||
    (p.Child? && q.Child? && (p.name != q.name || (q.subType != "" && p.subType != q.subType)))
  }

  ghost predicate SameHead(p: Program, q: Program) {
    (p.Invoke? && q.Invoke? && p.name == q.name && p.invoke == q.invoke) ||
    (p.Child? && q.Child? && p.name == q.name && p.subType == q.subType && p.options == q.options && p.body == q.body)
  }

  /** Two children that validation does not tell apart. */
  ghost predicate SameChild(p: Program, q: Program) {
    p.Child? && q.Child? && p.name == q.name && (q.subType == "" || p.subType == q.subType)
  }

  /** Followed along the direct run of p, q first differs from it at operation x. */
  ghost predicate DiffersAt(p: Program, q: Program, fuel: nat, path: Id, n: nat, w: World, x: Id)
    requires Direct(p, fuel, path, n, w).Some?
    decreases fuel
  {
    (p.Invoke? || p.Child?) &&
    var id := path + [n];
    var d := DirectStep(p, fuel - 1, id, w).value;
    if x == id then Unlike(p, q)
    else if id <= x then SameChild(p, q) && DiffersAt(p.body, q.body, fuel - 1, id, 1, w, x)
    else SameHead(p, q) && DiffersAt(p.then_(d), q.then_(d), fuel - 1, path, n + 1, w, x)
  }

  /** The record is the one p writes, whatever its state. */
  ghost predicate Bears(p: Program, op: Operation) {
    if p.Invoke? then op.opType == "CHAINED_INVOKE" && op.subType == "ChainedInvoke" && op.name == p.name
    else p.Child? && op.opType == "CONTEXT" && op.subType == p.subType && op.name == p.name
  }

  /** Over this log a replay of p gets to operation x: what comes before it is complete, and no recorded result of an
      enclosing context spares the way there. */
  ghost predicate Reached(p: Program, fuel: nat, path: Id, n: nat, log: Log, w: World, x: Id)
    requires Direct(p, fuel, path, n, w).Some?
    decreases fuel
  {
    (p.Invoke? || p.Child?) &&
    var id := path + [n];
    var d := DirectStep(p, fuel - 1, id, w).value;
    if x == id then x in log && Bears(p, log[x])
    else if id <= x then
      p.Child? && (id in log ==> Bears(p, log[id])) &&
      (id in log && log[id].status.Terminal() ==> log[id].status == Succeeded && log[id].replayChildren) &&
      Reached(p.body, fuel - 1, id, 1, log, w, x)
    else
      WholeStep(p, fuel - 1, id, log, w) &&
      Reached(p.then_(d), fuel - 1, path, n + 1, log, w, x)
  }

  lemma SameStep(p: Program, q: Program, fuel: nat, id: Id, mode: Mode, inv: Invocation)
    requires SameHead(p, q)
    ensures Step(q, fuel, id, mode, inv) == Step(p, fuel, id, mode, inv)
  {
    if p.Child? {
      assert Step(q, fuel, id, mode, inv) == RunChild(p.name, p.subType, p.options, p.body, fuel, id, mode, inv);
    } else {
      assert Step(q, fuel, id, mode, inv) == RunInvoke(p.name, p.invoke, id, mode, inv);
    }
  }

  lemma UnlikeDiverges(p: Program, q: Program, fuel: nat, id: Id, mode: Mode, inv: Invocation)
    requires Unlike(p, q) && id in inv.log && Bears(p, inv.log[id])
    ensures Step(q, fuel, id, mode, inv) == Divergence(id)
  {
    if q.Invoke? {
      InvokeDivergesIff(q.name, q.invoke, id, mode, inv);
    } else {
      ChildDivergesIff(q.name, q.subType, q.options, q.body, fuel, id, mode, inv);
    }
  }

  /** A divergence in the body of a child that is run, or run again, is the child's. */
  lemma InnerDiverges(p: Program, q: Program, fuel: nat, id: Id, mode: Mode, inv: Invocation)
    requires SameChild(p, q) && (id in inv.log ==> Bears(p, inv.log[id]))
    requires id in inv.log && inv.log[id].status.Terminal() ==>
             inv.log[id].status == Succeeded && inv.log[id].replayChildren
    requires Exec(q.body, fuel, id, 1, ChildReplayMode(id, Lookup(inv.log, id), inv.log), inv).violated
    ensures Step(q, fuel, id, mode, inv).violated
  {
    assert Step(q, fuel, id, mode, inv) == RunChild(q.name, q.subType, q.options, q.body, fuel, id, mode, inv);
  }

  lemma PassedHead(p: Program, fuel: nat, id: Id, mode: Mode, inv: Invocation)
    requires (p.Invoke? || p.Child?) && DirectStep(p, fuel, id, inv.world).Some? &&
             WholeStep(p, fuel, id, inv.log, inv.world)
    ensures var r := Step(p, fuel, id, mode, inv); r.violated || r.end == Done(DirectStep(p, fuel, id, inv.world).value)
  {
    if mode == SucceededContext {
      RerunStep(p, fuel, id, inv);
    } else {
      WholeStepReplays(p, fuel, id, mode, inv);
    }
  }

  /** Code that differs at a recorded operation that a replay gets to diverges, in every mode. */
  lemma {:induction false} ReachedDiverges(p: Program, q: Program, fuel: nat, path: Id, n: nat, mode: Mode,
                                           inv: Invocation,
                                           x: Id)
    requires Direct(p, fuel, path, n, inv.world).Some? && DiffersAt(p, q, fuel, path, n, inv.world, x)
    requires Reached(p, fuel, path, n, inv.log, inv.world, x)
    ensures Exec(q, fuel, path, n, mode, inv).violated
    decreases fuel
  {
    var id := path + [n];
    var claimed := ClaimMode(mode, id, inv.log);
    if x == id {
      UnlikeDiverges(p, q, fuel - 1, id, claimed, inv);
    } else if id <= x {
      ReachedDiverges(p.body, q.body, fuel - 1, id, 1, ChildReplayMode(id, Lookup(inv.log, id), inv.log), inv, x);
      InnerDiverges(p, q, fuel - 1, id, claimed, inv);
    } else {
      var d := DirectStep(p, fuel - 1, id, inv.world).value;
      ReachedDiverges(p.then_(d), q.then_(d), fuel - 1, path, n + 1, ObserveMode(claimed, id, inv), inv, x);
      RestDiverges(p, q, fuel, path, n, mode, inv);
    }
  }

  lemma RestDiverges(p: Program, q: Program, fuel: nat, path: Id, n: nat, mode: Mode, inv: Invocation)
    requires fuel > 0 && SameHead(p, q) && DirectStep(p, fuel - 1, path + [n], inv.world).Some?
    requires WholeStep(p, fuel - 1, path + [n], inv.log, inv.world)
    requires var id := path + [n]; var d := DirectStep(p, fuel - 1, id, inv.world).value;
             Exec(q.then_(d), fuel - 1, path, n + 1, ObserveMode(ClaimMode(mode, id, inv.log), id, inv), inv).violated
    ensures Exec(q, fuel, path, n, mode, inv).violated
  {
    var id := path + [n];
    PassedHead(p, fuel - 1, id, ClaimMode(mode, id, inv.log), inv);
    SameStep(p, q, fuel - 1, id, ClaimMode(mode, id, inv.log), inv);
  }
}
