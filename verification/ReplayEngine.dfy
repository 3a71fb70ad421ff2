/** The replay engine in the form the SDK runs it: contexts that mint IDs and change mode, and a queue of updates. */
module ReplayEngine {
  import opened Ids
  import opened ReplayModel

  /** What one invocation produced so far, in order. */
  class Recorder {
    var queued: seq<Event>
    var visits: seq<Visit>
    var violated: bool

    constructor ()
      ensures queued == [] && visits == [] && !violated
    {
      queued, visits, violated := [], [], false;
    }

    /** The run r was recorded after the updates, visits and verdict given. */
    ghost predicate Holds(queued0: seq<Event>, visits0: seq<Visit>, violated0: bool, r: Run)
      reads this
    {
      queued == queued0 + r.events && visits == visits0 + r.visits && violated == (violated0 || r.violated)
    }
  }

  class ExecContext {
    const ids: OpIds
    var mode: Mode

    constructor (ids: OpIds, mode: Mode)
      ensures this.ids == ids && this.mode == mode
    {
      this.ids := ids;
      this.mode := mode;
    }

    /** refreshReplayMode, then opIDs.next. */
    method ClaimOperation(inv: Invocation) returns (id: Id)
      modifies this, ids
      ensures id == old(ids.Peek())
      ensures ids.counter == old(ids.counter) + 1
      ensures mode == ClaimMode(old(mode), id, inv.log)
      ensures mode.SucceededContext? <==> old(mode.SucceededContext?)
      ensures mode.Execution? <==>
                old(mode.Execution?) || (old(mode.Replay?) && id !in inv.log && id + [1] !in inv.log)
    {
      var pending := ids.Peek();
      if mode == Replay {
        if pending !in inv.log && pending + [1] !in inv.log {
          mode := Execution;
        }
      }
      id := ids.Next();
    }

    method ObserveOutcome(id: Id, inv: Invocation)
      modifies this
      ensures mode == ObserveMode(old(mode), id, inv)
      ensures mode.SucceededContext? <==> old(mode.SucceededContext?)
      ensures mode.Execution? <==>
                old(mode.Execution?) ||
                (old(mode.Replay?) &&
                 (id in inv.updated || id !in inv.log || inv.log[id].status in {Started, Pending, Ready}))
    {
      if mode == Replay {
        if NewOutcome(id, inv) {
          mode := Execution;
        }
      }
    }
  }

  method AwaitOperation(options: InvokeOptions, id: Id, op: Operation, inv: Invocation, rec: Recorder)
    returns (end: End)
    modifies rec
    ensures var r := AwaitInvoke(options, id, op, inv);
            end == r.end && rec.Holds(old(rec.queued), old(rec.visits), old(rec.violated), r)
  {
    if inv.wakes(id) {
      var settled := Settled(op, inv.world(id));
      rec.queued := rec.queued + [Event(External, id, settled)];
      end := Done(InvokeOutcome(options, settled));
    } else {
      end := Suspended;
    }
  }

  method RunClaimedInvoke(id: Id, mode: Mode, name: string, options: InvokeOptions, inv: Invocation, rec: Recorder)
    returns (end: End)
    modifies rec
    ensures var r := RunInvoke(name, options, id, mode, inv);
            end == r.end && rec.Holds(old(rec.queued), old(rec.visits), old(rec.violated), r)
    ensures rec.violated <==>
              old(rec.violated) ||
              (id in inv.log && inv.log[id].opType != "" &&
               (inv.log[id].opType != CHAINED_INVOKE || inv.log[id].subType != INVOKE_SUBTYPE ||
                inv.log[id].name != name)) ||
              (mode == SucceededContext && (id !in inv.log || inv.log[id].status in {Started, Pending, Ready}))
  {
    var op := Lookup(inv.log, id);
    if !Consistent(op, CHAINED_INVOKE, INVOKE_SUBTYPE, name) || UnfinishedInSucceededContext(mode, op) {
      rec.violated := true;
      return Done(Err(NonDeterministic(id)));
    }
    if op.Some? {
      if op.value.status.Terminal() {
        return Done(InvokeOutcome(options, op.value));
      }
      end := AwaitOperation(options, id, op.value, inv, rec);
      return;
    }
    match options.input {
      case Bad(e) =>
        end := Done(Err(e));
      case Good(input) =>
        var started := InvokeStarted(name, input);
        rec.queued := rec.queued + [Event(Start, id, started)];
        end := AwaitOperation(options, id, started, inv, rec);
    }
  }

  /** runClaimedChild, up to the point where the body runs. */
  method RunClaimedChild(ids: OpIds, id: Id, mode: Mode, p: Program, fuel: nat, inv: Invocation, rec: Recorder)
    returns (end: End)
    requires p.Child?
    modifies rec
    ensures var r := RunChild(p.name, p.subType, p.options, p.body, fuel, id, mode, inv);
            end == r.end && rec.Holds(old(rec.queued), old(rec.visits), old(rec.violated), r)
    decreases fuel, 2
  {
    var op := Lookup(inv.log, id);
    if !Consistent(op, CONTEXT, p.subType, p.name) || UnfinishedInSucceededContext(mode, op) {
      rec.violated := true;
      return Done(Err(NonDeterministic(id)));
    }
    if op.Some? && op.value.status == Succeeded {
      if op.value.replayChildren {
        end := RunBody(ids, id, SucceededContext, p, fuel, inv, rec);
        if end.Done? {
          end := Done(RerunReturn(p.options, end.outcome));
        }
      } else {
        end := Done(Delivered(p.options.unmarshal(op.value.payload)));
      }
      return;
    }
    if op.Some? && op.value.status == Failed {
      return Done(Err(p.options.failure(op.value.error)));
    }
    end := RunLiveBody(ids, id, op, p, fuel, inv, rec);
  }

  /** The rest of runClaimedChild: START, the body, and the record of its completion. */
  method RunLiveBody(ids: OpIds, id: Id, op: Option<Operation>, p: Program, fuel: nat, inv: Invocation, rec: Recorder)
    returns (end: End)
    requires p.Child? && op == Lookup(inv.log, id)
    requires Consistent(op, CONTEXT, p.subType, p.name)
    requires op.Some? ==> op.value.status != Succeeded && op.value.status != Failed
    modifies rec
    ensures var r := RunChild(p.name, p.subType, p.options, p.body, fuel, id, Execution, inv);
            end == r.end && rec.Holds(old(rec.queued), old(rec.visits), old(rec.violated), r)
    decreases fuel, 1
  {
    BodySplits(op, p, fuel, id, inv);
    if op.None? {
      rec.queued := rec.queued + [Event(Start, id, ContextStarted(p.name, p.subType))];
    }
    end := RunBody(ids, id, ChildReplayMode(id, op, inv.log), p, fuel, inv, rec);
    if end.Done? {
      var record := FinishRecord(p.name, p.subType, p.options, end.outcome);
      if record.Some? {
        rec.queued := rec.queued + [Event(Finish, id, record.value)];
      }
      end := Done(LiveReturn(p.options, end.outcome));
    }
  }

  lemma BodySplits(op: Option<Operation>, p: Program, fuel: nat, id: Id, inv: Invocation)
    requires p.Child? && op == Lookup(inv.log, id)
    requires Consistent(op, CONTEXT, p.subType, p.name)
    requires op.Some? ==> op.value.status != Succeeded && op.value.status != Failed
    ensures var r := RunChild(p.name, p.subType, p.options, p.body, fuel, id, Execution, inv);
            var sub := Exec(p.body, fuel, id, 1, ChildReplayMode(id, op, inv.log), inv);
            var begin := if op.None? then [Event(Start, id, ContextStarted(p.name, p.subType))] else [];
            var finish := if !sub.end.Done? then [] else
              var record := FinishRecord(p.name, p.subType, p.options, sub.end.outcome);
              if record.Some? then [Event(Finish, id, record.value)] else [];
            (forall q: seq<Event> :: q + r.events == ((q + begin) + sub.events) + finish) &&
            r.visits == sub.visits && r.violated == sub.violated &&
            r.end == if sub.end.Done? then Done(LiveReturn(p.options, sub.end.outcome)) else sub.end
  {
  }

  /** The body of a child runs on a context of its own, which mints IDs under the child's ID. */
  method RunBody(ids: OpIds, id: Id, mode: Mode, p: Program, fuel: nat, inv: Invocation, rec: Recorder)
    returns (end: End)
    requires p.Child?
    modifies rec
    ensures var r := Exec(p.body, fuel, id, 1, mode, inv);
            end == r.end && rec.Holds(old(rec.queued), old(rec.visits), old(rec.violated), r)
    decreases fuel, 0, 1
  {
    var childIds := ids.Child(id);
    var child := new ExecContext(childIds, mode);
    end := Drive(child, p.body, fuel, inv, rec);
  }

  /** Runs handler code on ec. The invocation it performs is the one `Exec` describes. */
  method Drive(ec: ExecContext, p: Program, fuel: nat, inv: Invocation, rec: Recorder) returns (end: End)
    modifies ec, ec.ids, rec
    ensures var r := Exec(p, fuel, ec.ids.prefix, old(ec.ids.counter) + 1, old(ec.mode), inv);
            end == r.end && rec.Holds(old(rec.queued), old(rec.visits), old(rec.violated), r)
    decreases fuel, 0, 0
  {
    ghost var queued0, visits0, path, n, mode := rec.queued, rec.visits, ec.ids.prefix, ec.ids.counter + 1, ec.mode;
    rec.visits := rec.visits + [Visit(Segment(ec.ids.prefix, ec.ids.counter + 1), ec.mode == Execution)];
    if p.Return? {
      return Done(Ok(p.value));
    }
    if p.Fail? {
      return Done(Err(p.failure));
    }
    if fuel == 0 {
      return Exhausted;
    }
    ExecSplits(p, fuel, path, n, mode, inv);
    var id := ec.ClaimOperation(inv);
    end := RunOperation(ec.ids, id, ec.mode, p, fuel - 1, inv, rec);
    if end.Done? {
      ec.ObserveOutcome(id, inv);
      end := Drive(ec, p.then_(end.outcome), fuel - 1, inv, rec);
    }
  }

  lemma ExecSplits(p: Program, fuel: nat, path: Id, n: nat, mode: Mode, inv: Invocation)
    requires (p.Invoke? || p.Child?) && fuel > 0
    ensures var r := Exec(p, fuel, path, n, mode, inv);
            var here := [Visit(Segment(path, n), mode == Execution)];
            var claimed := ClaimMode(mode, path + [n], inv.log);
            var sub := Step(p, fuel - 1, path + [n], claimed, inv);
            if sub.end.Done? then
              var rest := Exec(p.then_(sub.end.outcome), fuel - 1, path, n + 1, ObserveMode(claimed, path + [n], inv),
                               inv);
              (forall q: seq<Event> :: q + r.events == (q + sub.events) + rest.events) &&
              (forall v: seq<Visit> :: v + r.visits == ((v + here) + sub.visits) + rest.visits) &&
              r.violated == (sub.violated || rest.violated) && r.end == rest.end
            else
              r.events == sub.events && (forall v: seq<Visit> :: v + r.visits == (v + here) + sub.visits) &&
              r.violated == sub.violated && r.end == sub.end
  {
  }

  method RunOperation(ids: OpIds, id: Id, mode: Mode, p: Program, fuel: nat, inv: Invocation, rec: Recorder)
    returns (end: End)
    requires p.Invoke? || p.Child?
    modifies rec
    ensures var r := Step(p, fuel, id, mode, inv);
            end == r.end && rec.Holds(old(rec.queued), old(rec.visits), old(rec.violated), r)
    decreases fuel, 3
  {
    if p.Invoke? {
      end := RunClaimedInvoke(id, mode, p.name, p.invoke, inv, rec);
    } else {
      end := RunClaimedChild(ids, id, mode, p, fuel, inv, rec);
    }
  }
}
