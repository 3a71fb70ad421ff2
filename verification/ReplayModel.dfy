/**
  The replay engine as functions.

  A handler is a tree of blocking durable operations whose next step depends on every outcome
  received so far. One invocation walks that tree against the operation log it started from and
  queues updates; `Direct` is the same handler run once, without a log and without interruption.
 */
module ReplayModel {
  import opened Ids

  // ----- values, outcomes and serializers -----

  /** A handler value. Values are only passed on and compared, so a number stands for any of them. */
  type Value = int
  type Payload = string

  datatype Option<+T> = None | Some(value: T)

  datatype ErrorRecord = ErrorRecord(errType: string, message: string, data: string)

  datatype Failure =
    | NonDeterministic(id: Id)
    | Application(record: ErrorRecord, detail: int)

  datatype Outcome = Ok(value: Value) | Err(failure: Failure)

  datatype Conversion<+T> = Good(value: T) | Bad(failure: Failure)

  function Delivered(c: Conversion<Value>): Outcome {
    match c
    case Good(v) => Ok(v)
    case Bad(e) => Err(e)
  }

  /** What the checkpoint stores for an error that escapes a child body. */
  function RecordOf(e: Failure): ErrorRecord {
    match e
    case NonDeterministic(_) => ErrorRecord("NonDeterministicExecutionError", "", "")
    case Application(record, _) => record
  }

  // ----- the operation log -----

  datatype Status = Started | Pending | Ready | Succeeded | Failed | Cancelled | TimedOut | Stopped {
    predicate Terminal() {
      Succeeded? || Failed? || Cancelled? || TimedOut? || Stopped?
    }
  }

  datatype Operation = Operation(opType: string, subType: string, name: string, status: Status,
                                 payload: Payload, replayChildren: bool, error: ErrorRecord)

  type Log = map<Id, Operation>

  const CONTEXT := "CONTEXT"
  const CHAINED_INVOKE := "CHAINED_INVOKE"
  const INVOKE_SUBTYPE := "ChainedInvoke"
  const CHECKPOINT_SIZE_LIMIT := 256 * 1024
  const NO_ERROR := ErrorRecord("", "", "")

  function Lookup(log: Log, id: Id): Option<Operation> {
    if id in log then Some(log[id]) else None
  }

  /** True when the recorded operation matches the operation the code asks for. */
  predicate Consistent(op: Option<Operation>, opType: string, subType: string, name: string) {
    op.None? || op.value.opType == "" ||
    (op.value.opType == opType && (subType == "" || op.value.subType == subType) && op.value.name == name)
  }

  predicate HasChildOf(log: Log, id: Id) {
    exists x | x in log :: |x| == |id| + 1 && id <= x
  }

  // ----- handlers -----

  datatype ChildOptions = ChildOptions(
    marshal: Value -> Conversion<Payload>,
    unmarshal: Payload -> Conversion<Value>,
    summary: Value -> Conversion<Payload>,
    failure: ErrorRecord -> Failure)

  datatype InvokeOptions = InvokeOptions(
    input: Conversion<Payload>,
    unmarshal: Payload -> Conversion<Value>,
    failure: (Status, ErrorRecord) -> Failure)

  /** A deterministic handler, or the body of a child context. `then` is the code that runs on the operation's
      outcome. */
  datatype Program =
    | Return(value: Value)
    | Fail(failure: Failure)
    | Invoke(name: string, invoke: InvokeOptions, then_: Outcome -> Program)
    | Child(name: string, subType: string, options: ChildOptions, body: Program, then_: Outcome -> Program)

  // ----- the service -----

  datatype Answer = Answer(status: Status, payload: Payload, error: ErrorRecord)

  /** The terminal answer an invoked function eventually gives. */
  type Settlement = a: Answer | a.status.Terminal() witness Answer(Succeeded, "", NO_ERROR)

  type World = Id -> Settlement

  function InvokeStarted(name: string, input: Payload): Operation {
    Operation(CHAINED_INVOKE, INVOKE_SUBTYPE, name, Started, input, false, NO_ERROR)
  }

  function Settled(op: Operation, a: Settlement): Operation {
    op.(status := a.status, payload := a.payload, error := a.error)
  }

  predicate OpenInvoke(op: Operation) {
    op.opType == CHAINED_INVOKE && !op.status.Terminal()
  }

  // ----- one invocation -----

  datatype Mode = Execution | Replay | SucceededContext

  datatype Invocation = Invocation(log: Log, updated: set<Id>, wakes: Id -> bool, world: World)

  datatype EventKind = Start | Finish | External

  /** One update that reaches the log: queued by the SDK (Start, Finish) or recorded by the service (External). */
  datatype Event = Event(kind: EventKind, id: Id, op: Operation)

  /** The code of context `path` that runs before its operation number `n` is claimed. */
  datatype Segment = Segment(path: Id, n: nat)

  datatype Visit = Visit(segment: Segment, live: bool)

  datatype End = Done(outcome: Outcome) | Suspended | Exhausted

  datatype Run = Run(events: seq<Event>, visits: seq<Visit>, violated: bool, end: End) {
    function After(e: seq<Event>, v: seq<Visit>, bad: bool): Run {
      Run(e + events, v + visits, bad || violated, end)
    }
  }

  /** refreshReplayMode: an operation with no checkpoint ends replay. */
  function ClaimMode(mode: Mode, id: Id, log: Log): Mode {
    if mode == Replay && id !in log && id + [1] !in log then Execution else mode
  }

  /** newOutcome: the previous invocation did not have this outcome. */
  predicate NewOutcome(id: Id, inv: Invocation) {
    id in inv.updated || id !in inv.log || !inv.log[id].status.Terminal()
  }

  /** observeOutcome: the first new outcome ends replay. */
  function ObserveMode(mode: Mode, id: Id, inv: Invocation): Mode {
    if mode == Replay && NewOutcome(id, inv) then Execution else mode
  }

  function ChildReplayMode(id: Id, op: Option<Operation>, log: Log): Mode {
    if op.Some? && op.value.status == Succeeded then SucceededContext
    else if id + [1] in log || HasChildOf(log, id) then Replay
    else Execution
  }

  predicate UnfinishedInSucceededContext(mode: Mode, op: Option<Operation>) {
    mode == SucceededContext && (op.None? || !op.value.status.Terminal())
  }

  function InvokeOutcome(options: InvokeOptions, op: Operation): Outcome {
    if op.status == Succeeded then Delivered(options.unmarshal(op.payload))
    else Err(options.failure(op.status, op.error))
  }

  /** awaitInvoke: the operation settles while this invocation is parked on it, or the invocation suspends. */
  function AwaitInvoke(options: InvokeOptions, id: Id, op: Operation, inv: Invocation): Run {
    if inv.wakes(id) then
      var settled := Settled(op, inv.world(id));
      Run([Event(External, id, settled)], [], false, Done(InvokeOutcome(options, settled)))
    else
      Run([], [], false, Suspended)
  }

  function RunInvoke(name: string, options: InvokeOptions, id: Id, mode: Mode, inv: Invocation): Run {
    var op := Lookup(inv.log, id);
    if !Consistent(op, CHAINED_INVOKE, INVOKE_SUBTYPE, name) || UnfinishedInSucceededContext(mode, op) then
      Run([], [], true, Done(Err(NonDeterministic(id))))
    else if op.Some? then
      if op.value.status.Terminal() then Run([], [], false, Done(InvokeOutcome(options, op.value)))
      else AwaitInvoke(options, id, op.value, inv)
    else
      match options.input
      case Bad(e) => Run([], [], false, Done(Err(e)))
      case Good(input) =>
        var started := InvokeStarted(name, input);
        AwaitInvoke(options, id, started, inv).After([Event(Start, id, started)], [], false)
  }

  function ContextStarted(name: string, subType: string): Operation {
    Operation(CONTEXT, subType, name, Started, "", false, NO_ERROR)
  }

  function ContextFinished(name: string, subType: string, status: Status, payload: Payload, replayChildren: bool,
                           error: ErrorRecord): Operation {
    Operation(CONTEXT, subType, name, status, payload, replayChildren, error)
  }

  /** What a child records when its body ends with `o`, or None when a serializer or the summary function fails
      first. */
  function FinishRecord(name: string, subType: string, options: ChildOptions, o: Outcome): Option<Operation> {
    match o
    case Err(e) => Some(ContextFinished(name, subType, Failed, "", false, RecordOf(e)))
    case Ok(v) =>
      match options.marshal(v)
      case Bad(_) => None
      case Good(payload) =>
        if |payload| <= CHECKPOINT_SIZE_LIMIT then
          Some(ContextFinished(name, subType, Succeeded, payload, false, NO_ERROR))
        else
          match options.summary(v)
          case Bad(_) => None
          case Good(s) => Some(ContextFinished(name, subType, Succeeded, s, true, NO_ERROR))
  }

  /** What the caller of a child receives on the invocation that runs its body to the outcome `o`. */
  function LiveReturn(options: ChildOptions, o: Outcome): Outcome {
    match o
    case Err(e) => Err(options.failure(RecordOf(e)))
    case Ok(v) =>
      match options.marshal(v)
      case Bad(e) => Err(e)
      case Good(payload) =>
        if |payload| <= CHECKPOINT_SIZE_LIMIT then Delivered(options.unmarshal(payload))
        else
          match options.summary(v)
          case Bad(e) => Err(e)
          case Good(_) => Delivered(options.unmarshal(payload))
  }

  /** What the caller receives when the body is run again because its result was too large to store. */
  function RerunReturn(options: ChildOptions, o: Outcome): Outcome {
    match o
    case Err(e) => Err(options.failure(RecordOf(e)))
    case Ok(v) =>
      match options.marshal(v)
      case Bad(e) => Err(e)
      case Good(payload) => Delivered(options.unmarshal(payload))
  }

  function RunChild(name: string, subType: string, options: ChildOptions, body: Program, fuel: nat,
                    id: Id, mode: Mode, inv: Invocation): Run
    decreases fuel, 1
  {
    var op := Lookup(inv.log, id);
    if !Consistent(op, CONTEXT, subType, name) || UnfinishedInSucceededContext(mode, op) then
      Run([], [], true, Done(Err(NonDeterministic(id))))
    else if op.Some? && op.value.status == Succeeded then
      if op.value.replayChildren then
        var sub := Exec(body, fuel, id, 1, SucceededContext, inv);
        if sub.end.Done? then sub.(end := Done(RerunReturn(options, sub.end.outcome))) else sub
      else
        Run([], [], false, Done(Delivered(options.unmarshal(op.value.payload))))
    else if op.Some? && op.value.status == Failed then
      Run([], [], false, Done(Err(options.failure(op.value.error))))
    else
      var begin := if op.None? then [Event(Start, id, ContextStarted(name, subType))] else [];
      var sub := Exec(body, fuel, id, 1, ChildReplayMode(id, op, inv.log), inv);
      if !sub.end.Done? then sub.After(begin, [], false)
      else
        var record := FinishRecord(name, subType, options, sub.end.outcome);
        var finish := if record.Some? then [Event(Finish, id, record.value)] else [];
        Run(begin + sub.events + finish, sub.visits, sub.violated, Done(LiveReturn(options, sub.end.outcome)))
  }

  /** Runs the code of context `path` from the point just before its operation number `n`. */
  function Exec(p: Program, fuel: nat, path: Id, n: nat, mode: Mode, inv: Invocation): Run
    decreases fuel, 0
  {
    var here := [Visit(Segment(path, n), mode == Execution)];
    match p
    case Return(v) => Run([], here, false, Done(Ok(v)))
    case Fail(e) => Run([], here, false, Done(Err(e)))
    case _ =>
      if fuel == 0 then Run([], here, false, Exhausted) else
      var id := path + [n];
      var claimed := ClaimMode(mode, id, inv.log);
      var sub := Step(p, fuel - 1, id, claimed, inv);
      if !sub.end.Done? then sub.After([], here, false)
      else
        Exec(p.then_(sub.end.outcome), fuel - 1, path, n + 1, ObserveMode(claimed, id, inv), inv)
          .After(sub.events, here + sub.visits, sub.violated)
  }

  /** The operation at the head of `p`, claimed as `id`. */
  function Step(p: Program, fuel: nat, id: Id, mode: Mode, inv: Invocation): Run
    requires p.Invoke? || p.Child?
    decreases fuel, 2
  {
    match p
    case Invoke(name, options, _) => RunInvoke(name, options, id, mode, inv)
    case Child(name, subType, options, body, _) => RunChild(name, subType, options, body, fuel, id, mode, inv)
  }

  // ----- the uninterrupted run -----

  function InvokeReturn(name: string, options: InvokeOptions, a: Settlement): Outcome {
    match options.input
    case Bad(e) => Err(e)
    case Good(input) => InvokeOutcome(options, Settled(InvokeStarted(name, input), a))
  }

  /** The outcome of running `p` once from start to end, or None when that takes more than `fuel` operations in
      a row. */
  function Direct(p: Program, fuel: nat, path: Id, n: nat, world: World): Option<Outcome>
    decreases fuel, 0
  {
    match p
    case Return(v) => Some(Ok(v))
    case Fail(e) => Some(Err(e))
    case _ =>
      if fuel == 0 then None else
      var o := DirectStep(p, fuel - 1, path + [n], world);
      if o.None? then None else Direct(p.then_(o.value), fuel - 1, path, n + 1, world)
  }

  function DirectStep(p: Program, fuel: nat, id: Id, world: World): Option<Outcome>
    requires p.Invoke? || p.Child?
    decreases fuel, 1
  {
    match p
    case Invoke(name, options, _) => Some(InvokeReturn(name, options, world(id)))
    case Child(_, _, options, body, _) =>
      var o := Direct(body, fuel, id, 1, world);
      if o.None? then None else Some(LiveReturn(options, o.value))
  }

  // ----- log evolution -----

  /** The log after the service applied the updates in order. */
  function Apply(log: Log, events: seq<Event>): Log
    decreases |events|
  {
    if events == [] then log else Apply(log[events[0].id := events[0].op], events[1..])
  }
}
