/**
  Every interleaving of the goroutines that share a checkpointer.

  One action is one critical section, one message on a channel, or one atomic load or store that takes no lock. The
  flusher's program counter says what it has read so far, so a batch may be overtaken between any two of its steps.
  The exception is the assembly of a batch, which holds the lock throughout and delivers outcomes meanwhile: while
  the flusher is Dropping, the steps that need the lock wait and the others may run.
 */
module CheckpointRuns {
  import opened Checkpointer

  datatype Result = Awaited | Accepted(token: string) | NoToken | Failed(cause: nat)

  datatype Call = Call(batch: seq<Request>, token: string, result: Result) {
    /** The service recorded the call's updates. A response without a token means so only to the final write. */
    predicate Took() {
      result.Accepted? || (result.NoToken? && HasFinal(batch))
    }
  }

  /** `sent` says whether the batch was handed to the client. Dropping holds the lock. */
  datatype Flusher =
    | Idle
    | AtTop
    | Dropping(drops: seq<Drop>, batch: seq<Request>, token: string)
    | Batched(batch: seq<Request>, token: string)
    | Asking(batch: seq<Request>, token: string)
    | Cleared(batch: seq<Request>, token: string)
    | Calling(batch: seq<Request>)
    | Halting(batch: seq<Request>, outcome: Outcome)
    | Answered(batch: seq<Request>, outcome: Outcome, sent: bool)
    | Delivering(batch: seq<Request>, outcome: Outcome, refuse: bool, sent: bool)

  /** What the flusher's deliver still has to do for the outcome it sent last: lower outstanding, or, once that gave
      0, close the idle channels. */
  datatype Owing = Nothing | Count | Close

  /** The invocation goroutine: the handler runs; it returned and the queue end is fixed; awaitIdle waits on its
      channel; awaitIdle returned, because it saw 0 or its channel was closed, or because the context ended; no halt
      cause was found; it answered SUCCEEDED. Any other ending is Elsewhere. */
  datatype Handler =
    | Running | QueueEnded | Waiting(channel: nat) | Waited(idle: bool) | Succeeded(idle: bool) | Responded(idle: bool)
    | Elsewhere

  datatype FinalWrite = NoFinal | Begun | Queued(pos: nat)

  /** `overtaken` remembers whether awaitIdle registered its channel in an Overtaken state. */
  datatype State = State(core: Core, flusher: Flusher, owing: Owing, submitting: nat, ended: set<nat>, calls: seq<Call>,
                         submitted: seq<Request>, handler: Handler, finalWrite: FinalWrite, overtaken: bool)

  predicate HasFinal(batch: seq<Request>) {
    exists r | r in batch :: r.final
  }

  function InFlight(f: Flusher): seq<Request> {
    if f.Idle? || f.AtTop? then [] else f.batch
  }

  function Drops(f: Flusher): seq<Drop> {
    if f.Dropping? then f.drops else []
  }

  /**
    A deliver has counted down to 0 and not yet closed the channels, and since then a request was queued before the
    cutoff whose context lives. A channel registered now is closed without anyone waiting for that request.
   */
  predicate Overtaken(s: State) {
    s.owing.Close? && s.core.cutoffSet &&
    exists r | r in s.core.queue :: r.pos < s.core.cutoff && r.pos !in s.ended
  }

  // ----- actions -----

  datatype Action =
    | BeginSubmit
    | AppendSubmit(updates: nat, size: nat)
    | BeginFinal
    | AppendFinal(updates: nat, size: nat)
    | EndContext(pos: nat)
    | TakeBatch
    | DropOne
    | Unlock
    | CheckTermination
    | AskHalt
    | IssueCall
    | Respond(result: Result)
    | StoreTerminated
    | Decide
    | DeliverOne
    | LowerCount
    | CloseChannels
    | ForeignHalt(end: Halt)
    | Terminate
    | HandlerReturns
    | AwaitIdle
    | Wake
    | StopWaiting
    | ReadHalt
    | HandlerLeaves
    | Answer

  /** The steps that take the lock; while a batch is assembled they wait. */
  predicate TakesLock(a: Action) {
    a.AppendSubmit? || a.AppendFinal? || a.ForeignHalt? || a.HandlerReturns? || a.ReadHalt?
  }

  /** The steps of the flusher's loop, which wait for its current deliver. */
  predicate OfLoop(a: Action) {
    a.TakeBatch? || a.DropOne? || a.Unlock? || a.DeliverOne?
  }

  predicate Enabled(s: State, a: Action) {
    (TakesLock(a) ==> !s.flusher.Dropping?) && (OfLoop(a) ==> s.owing.Nothing?) &&
    match a
    case BeginSubmit => true
    case AppendSubmit(_, _) => s.submitting > (if s.finalWrite.Begun? then 1 else 0)
    case BeginFinal => s.handler.Succeeded? && s.finalWrite.NoFinal?
    case AppendFinal(_, _) => s.finalWrite.Begun? && s.submitting > 0
    case EndContext(_) => true
    case TakeBatch => s.flusher.AtTop?
    case DropOne => s.flusher.Dropping? && s.flusher.drops != []
    case Unlock => s.flusher.Dropping? && s.flusher.drops == []
    case CheckTermination => s.flusher.Batched?
    case AskHalt => s.flusher.Asking?
    case IssueCall => s.flusher.Cleared?
    case Respond(result) => s.flusher.Calling? && !result.Awaited? && s.calls != []
    case StoreTerminated => s.flusher.Halting?
    case Decide => s.flusher.Answered?
    case DeliverOne => s.flusher.Delivering? && s.flusher.batch != []
    case LowerCount => s.owing.Count?
    case CloseChannels => s.owing.Close?
    case ForeignHalt(_) => true
    case Terminate => s.core.haltErr.Some? || s.handler.Elsewhere? || s.handler.Succeeded? || s.handler.Responded?
    case HandlerReturns => s.handler.Running?
    case AwaitIdle => s.handler.QueueEnded?
    case Wake => s.handler.Waiting? && s.handler.channel < s.core.closed
    case StopWaiting => s.handler.Waiting?
    case ReadHalt => s.handler.Waited?
    case HandlerLeaves => !s.handler.Responded?
    case Answer => s.handler.Succeeded? &&
                   match s.finalWrite
                   case NoFinal => true
                   case Begun => false
                   case Queued(pos) => pos in s.core.settled && s.core.settled[pos] == Recorded
  }

  function Appended(s: State, updates: nat, size: nat, final: bool): State {
    s.(core := s.core.Append(updates, size, final),
       flusher := if s.core.flushing then s.flusher else AtTop,
       submitting := if s.submitting > 0 then s.submitting - 1 else 0,
       submitted := s.submitted + [Request(s.core.nextSeq, updates, size, final)])
  }

  function WithResult(calls: seq<Call>, result: Result): seq<Call>
    requires calls != []
  {
    calls[|calls| - 1 := calls[|calls| - 1].(result := result)]
  }

  function Response(s: State, result: Result): State
    requires Enabled(s, Respond(result))
  {
    var batch := s.flusher.batch;
    var t := s.(calls := WithResult(s.calls, result));
    match result
    case Accepted(token) => t.(core := s.core.(token := token), flusher := Answered(batch, Recorded, true))
    case NoToken =>
      if HasFinal(batch) then t.(flusher := Answered(batch, Recorded, true))
      else t.(core := s.core.RecordHalt(TokenWithdrawn), flusher := Halting(batch, Refused))
    case Failed(cause) => t.(core := s.core.RecordHalt(Failure(cause)), flusher := Halting(batch, CallFailed(cause)))
  }

  function Delivered(s: State): State
    requires Enabled(s, DeliverOne)
  {
    var f := s.flusher;
    var p := f.batch[0];
    var o := if f.refuse && !p.final then Refused else f.outcome;
    s.(core := s.core.Send(p, o), owing := Count,
       flusher := if |f.batch| == 1 then AtTop else Delivering(f.batch[1..], f.outcome, f.refuse, f.sent))
  }

  function Taking(s: State): State
    requires Enabled(s, TakeBatch)
  {
    if s.core.queue == [] then s.(core := s.core.(flushing := false), flusher := Idle)
    else
      var t := s.core.Take(s.ended);
      s.(core := s.core.(queue := t.rest), flusher := Dropping(t.drops, t.batch, s.core.token))
  }

  /** takeBatchLocked delivers one of the outcomes it decided on. */
  function Dropped(s: State): State
    requires Enabled(s, DropOne)
  {
    var d := s.flusher.drops[0];
    s.(core := s.core.Send(d.request, d.outcome), owing := Count, flusher := s.flusher.(drops := s.flusher.drops[1..]))
  }

  function Do(s: State, a: Action): State
    requires Enabled(s, a)
  {
    match a
    case BeginSubmit => s.(core := s.core.(outstanding := s.core.outstanding + 1), submitting := s.submitting + 1)
    case AppendSubmit(updates, size) => Appended(s, updates, size, false)
    case BeginFinal =>
      s.(core := s.core.(outstanding := s.core.outstanding + 1), submitting := s.submitting + 1, finalWrite := Begun)
    case AppendFinal(updates, size) => Appended(s, updates, size, true).(finalWrite := Queued(s.core.nextSeq))
    case EndContext(pos) => s.(ended := s.ended + {pos})
    case TakeBatch => Taking(s)
    case DropOne => Dropped(s)
    case Unlock =>
      s.(flusher := if s.flusher.batch == [] then AtTop else Batched(s.flusher.batch, s.flusher.token))
    case CheckTermination =>
      var f := s.flusher;
      if !s.core.terminated || f.batch == [] then s.(flusher := Cleared(f.batch, f.token))
      else if s.core.Sendable(f.batch[0]) then s.(flusher := Asking(f.batch, f.token))
      else s.(flusher := Answered(f.batch, Refused, false))
    case AskHalt =>
      var f := s.flusher;
      (match s.core.Refusal(true)
       case None => s.(flusher := Cleared(f.batch, f.token))
       case Some(o) => s.(flusher := Answered(f.batch, o, false)))
    case IssueCall =>
      s.(flusher := Calling(s.flusher.batch), calls := s.calls + [Call(s.flusher.batch, s.flusher.token, Awaited)])
    case Respond(result) => Response(s, result)
    case StoreTerminated =>
      s.(core := s.core.Terminate(), flusher := Answered(s.flusher.batch, s.flusher.outcome, true))
    case Decide =>
      var f := s.flusher;
      s.(flusher := Delivering(f.batch, f.outcome, f.outcome == Recorded && s.core.terminated, f.sent))
    case DeliverOne => Delivered(s)
    case LowerCount => s.(core := s.core.Decrement(), owing := if s.core.outstanding == 1 then Close else Nothing)
    case CloseChannels => s.(core := s.core.CloseIdle(), owing := Nothing)
    case ForeignHalt(end) => s.(core := s.core.RecordHalt(end))
    case Terminate => s.(core := s.core.Terminate())
    case HandlerReturns => s.(core := s.core.TerminateAtQueueEnd(), handler := QueueEnded)
    case AwaitIdle =>
      var (c, channel) := s.core.AwaitIdle();
      s.(core := c, handler := if channel.None? then Waited(true) else Waiting(channel.value),
         overtaken := Overtaken(s))
    case Wake => s.(handler := Waited(true))
    case StopWaiting => s.(handler := Waited(false))
    case ReadHalt => s.(handler := if s.core.haltErr.None? then Succeeded(s.handler.idle) else Elsewhere)
    case HandlerLeaves => s.(handler := Elsewhere)
    case Answer => s.(handler := Responded(s.handler.idle))
  }

  function Init(token: string): State {
    State(Core(token, [], false, 0, 0, false, false, None, 0, map[], 0, 0), Idle, Nothing, 0, {}, [], [], Running,
          NoFinal, false)
  }

  // ----- histories of calls -----

  function Handed(calls: seq<Call>): set<nat> {
    if calls == [] then {} else Handed(calls[..|calls| - 1]) + Seqs(calls[|calls| - 1].batch)
  }

  /** The requests in calls the service recorded. */
  function Held(calls: seq<Call>): set<nat> {
    if calls == [] then {}
    else Held(calls[..|calls| - 1]) + (if calls[|calls| - 1].Took() then Seqs(calls[|calls| - 1].batch) else {})
  }

  /** The token the service expects after the calls. */
  function TokenAfter(initial: string, calls: seq<Call>): string {
    if calls == [] then initial
    else if calls[|calls| - 1].result.Accepted? then calls[|calls| - 1].result.token
    else TokenAfter(initial, calls[..|calls| - 1])
  }

  ghost predicate TokensChain(initial: string, calls: seq<Call>) {
    forall i :: 0 <= i < |calls| ==> calls[i].token == TokenAfter(initial, calls[..i])
  }

  // ----- the invariant -----

  ghost predicate Consecutive(q: seq<Request>, lo: nat) {
    forall i :: 0 <= i < |q| ==> q[i].pos == lo + i
  }

  ghost predicate Increasing(q: seq<Request>) {
    forall i, j :: 0 <= i < j < |q| ==> q[i].pos < q[j].pos
  }

  function Head(s: State): int {
    |s.submitted| - |s.core.queue|
  }

  ghost predicate Above(handed: set<nat>, batch: seq<Request>) {
    forall h, r :: h in handed && r in batch ==> h < r.pos
  }

  ghost predicate QueueInv(s: State) {
    |s.submitted| == s.core.nextSeq && Consecutive(s.submitted, 0) &&
    |s.core.queue| <= |s.submitted| && s.core.queue == s.submitted[Head(s)..] &&
    (s.core.flushing <==> !s.flusher.Idle?) && (s.flusher.Idle? ==> s.core.queue == [])
  }

  /** How many outcomes were sent and are still counted. */
  function Uncounted(o: Owing): nat {
    if o.Count? then 1 else 0
  }

  ghost predicate DropsRise(drops: seq<Drop>) {
    forall i, j :: 0 <= i < j < |drops| ==> drops[i].request.pos < drops[j].request.pos
  }

  /** Why a request may be settled without a call. */
  ghost predicate Justified(c: Core, d: Drop, ended: set<nat>) {
    (d.outcome == ContextEnded && d.request.pos in ended) ||
    (d.outcome == Refused && c.terminated && !c.Sendable(d.request))
  }

  ghost predicate FlightInv(s: State) {
    var b := InFlight(s.flusher);
    Increasing(b) && (!s.flusher.Idle? && !s.flusher.AtTop? && !s.flusher.Dropping? ==> b != []) &&
    (forall r :: r in b ==> r.pos < Head(s) && r.pos < |s.submitted| && s.submitted[r.pos] == r) &&
    (forall k: nat :: k in s.core.settled <==> k < Head(s) && k !in Seqs(b) && k !in DroppedSeqs(Drops(s.flusher))) &&
    (s.flusher.Batched? || s.flusher.Asking? || s.flusher.Cleared? || (s.flusher.Dropping? && b != []) ==>
       s.flusher.token == s.core.token && WithinLimits(b, s.core.token))
  }

  /** The outcomes being delivered during the assembly of a batch. */
  ghost predicate DropsInv(s: State) {
    var drops := Drops(s.flusher);
    DropsRise(drops) &&
    forall d :: d in drops ==>
      d.request.pos < Head(s) && d.request.pos < |s.submitted| && s.submitted[d.request.pos] == d.request &&
      d.request.pos !in Seqs(InFlight(s.flusher)) && Justified(s.core, d, s.ended)
  }

  /** outstanding counts what is being submitted, queued, in flight, being dropped, or sent and not yet counted. */
  ghost predicate CountInv(s: State) {
    s.core.outstanding ==
      s.submitting + |s.core.queue| + |InFlight(s.flusher)| + |Drops(s.flusher)| + Uncounted(s.owing) &&
    (!s.owing.Nothing? ==> s.flusher.AtTop? || s.flusher.Dropping? || s.flusher.Delivering?) &&
    (s.owing.Close? ==>
       InFlight(s.flusher) == [] && Drops(s.flusher) == [] && (s.flusher.Dropping? ==> s.core.queue == [])) &&
    s.core.closed <= s.core.registered
  }

  ghost predicate AllTaken(calls: seq<Call>) {
    forall i :: 0 <= i < |calls| ==> calls[i].result.Accepted?
  }

  ghost predicate NothingSendable(c: Core) {
    forall r :: r in c.queue ==> !c.Sendable(r)
  }

  /** The last call failed or came back without a token. */
  ghost predicate Ended(calls: seq<Call>) {
    calls != [] && (calls[|calls| - 1].result.Failed? || calls[|calls| - 1].result.NoToken?)
  }

  /** Every request of the last call was queued after every request of the earlier calls. */
  ghost predicate LastRises(calls: seq<Call>) {
    calls != [] ==> Above(Handed(calls[..|calls| - 1]), calls[|calls| - 1].batch)
  }

  ghost predicate ChainInv(s: State, initial: string) {
    TokensChain(initial, s.calls) && s.core.token == TokenAfter(initial, s.calls) &&
    (forall c :: c in s.calls ==> WithinLimits(c.batch, c.token)) &&
    (s.calls != [] ==> AllTaken(s.calls[..|s.calls| - 1])) && LastRises(s.calls)
  }

  ghost predicate CallsInv(s: State) {
    (s.flusher.Calling? <==> s.calls != [] && s.calls[|s.calls| - 1].result.Awaited?) &&
    (s.flusher.Calling? ==> s.calls[|s.calls| - 1].batch == s.flusher.batch) &&
    (s.flusher.Halting? ==> s.core.haltErr.Some? && s.flusher.outcome != Recorded) &&
    (s.flusher.Cleared? ==> !Ended(s.calls)) &&
    (Ended(s.calls) ==>
       if s.calls[|s.calls| - 1].Took() then
         s.core.terminated && NothingSendable(s.core) && s.finalWrite.Queued? &&
         (s.flusher.Answered? || s.flusher.Delivering? || s.flusher.AtTop? || s.flusher.Idle? ||
          (s.flusher.Dropping? && s.flusher.batch == []))
       else s.core.haltErr.Some? && (s.core.terminated || s.flusher.Halting?))
  }

  ghost predicate FinalInv(s: State) {
    (s.core.cutoffSet ==> s.core.terminated && s.core.cutoff <= s.core.nextSeq) &&
    (s.finalWrite.Begun? ==> s.submitting > 0) &&
    (!s.finalWrite.NoFinal? ==>
       s.core.cutoffSet && (s.handler.Succeeded? || s.handler.Responded? || s.handler.Elsewhere?)) &&
    (forall r :: r in s.submitted && r.final ==> s.finalWrite == Queued(r.pos) && s.core.cutoff <= r.pos)
  }

  /** Either every request of the batch may be sent after termination, or none may. */
  ghost predicate Uniform(c: Core, batch: seq<Request>) {
    (forall r :: r in batch ==> c.Sendable(r)) || (forall r :: r in batch ==> !c.Sendable(r))
  }

  /** Once the queue end is fixed, everything handed to the client was queued before it or is the final write. */
  ghost predicate Timely(c: Core, submitted: seq<Request>, batch: seq<Request>) {
    forall r :: r in batch ==>
      r.pos < |submitted| && submitted[r.pos] == r && (r.final ==> c.cutoffSet) && (c.cutoffSet ==> c.Sendable(r))
  }

  ghost predicate UniformInv(s: State) {
    (forall c :: c in s.calls ==> Timely(s.core, s.submitted, c.batch)) &&
    (s.flusher.Cleared? ==> Timely(s.core, s.submitted, s.flusher.batch)) &&
    (s.flusher.Batched? || s.flusher.Asking? || s.flusher.Dropping? ==> Uniform(s.core, s.flusher.batch)) &&
    (s.flusher.Asking? ==> s.core.terminated && forall r :: r in s.flusher.batch ==> s.core.Sendable(r))
  }

  /** Request k was settled without a call although its context had not ended. */
  ghost predicate Gap(settled: map<nat, Outcome>, handed: set<nat>, k: nat) {
    k in settled && k !in handed && settled[k] != ContextEnded
  }

  /** Nothing that belongs after k will be sent any more. */
  ghost predicate Closed(c: Core, r: Request) {
    c.terminated && (!c.Sendable(r) || c.haltErr.Some?)
  }

  ghost predicate Unsent(f: Flusher) {
    f.Dropping? || f.Batched? || f.Asking? || f.Cleared? || (f.Answered? && !f.sent) || (f.Delivering? && !f.sent)
  }

  ghost predicate OrderInv(s: State) {
    var b := InFlight(s.flusher);
    var f := s.flusher;
    var handed, held := Handed(s.calls), Held(s.calls);
    held <= handed && (forall k :: k in handed ==> k < Head(s)) &&
    (Unsent(f) ==> Above(handed, b)) &&
    (forall h, d :: h in handed && d in Drops(f) ==> h < d.request.pos) &&
    (!Unsent(f) ==> Seqs(b) <= handed) &&
    ((f.Answered? || f.Delivering?) && f.outcome == Recorded ==> f.sent && Seqs(b) <= held) &&
    ((f.Answered? || f.Delivering?) && !f.sent ==> forall r :: r in b ==> Closed(s.core, r)) &&
    (f.Answered? || f.Delivering? || f.Halting? ==> f.outcome != ContextEnded)
  }

  ghost predicate SettledInv(settled: map<nat, Outcome>, calls: seq<Call>, ended: set<nat>) {
    (forall k: nat :: k in settled && settled[k] == ContextEnded ==> k in ended && k !in Handed(calls)) &&
    (forall k: nat :: k in settled && settled[k] == Recorded ==> k in Held(calls))
  }

  /** Every gap is closed. */
  ghost predicate GapsClosed(c: Core, handed: set<nat>, submitted: seq<Request>) {
    forall k: nat :: Gap(c.settled, handed, k) && k < |submitted| ==> Closed(c, submitted[k])
  }

  function Bar(c: Core): nat {
    if c.cutoffSet then c.cutoff else 0
  }

  /** The service must record request k before r: a final write waits only for what precedes the cutoff. */
  ghost predicate Owed(bar: nat, k: nat, r: Request) {
    !r.final || k < bar
  }

  /** No request is handed to the client after a gap it depends on. */
  ghost predicate GapsLast(settled: map<nat, Outcome>, bar: nat, handed: set<nat>, submitted: seq<Request>) {
    forall k: nat, j: nat ::
      Gap(settled, handed, k) && j in handed && j < |submitted| && Owed(bar, k, submitted[j]) ==> j < k
  }

  ghost predicate GapsAbove(settled: map<nat, Outcome>, bar: nat, handed: set<nat>, batch: seq<Request>) {
    forall k: nat, r :: Gap(settled, handed, k) && r in batch && Owed(bar, k, r) ==> r.pos < k
  }

  ghost predicate GapInv(s: State) {
    var handed := Handed(s.calls);
    SettledInv(s.core.settled, s.calls, s.ended) &&
    GapsClosed(s.core, handed, s.submitted) && GapsLast(s.core.settled, Bar(s.core), handed, s.submitted) &&
    (s.flusher.Cleared? ==> GapsAbove(s.core.settled, Bar(s.core), handed, s.flusher.batch))
  }

  ghost predicate AllRecorded(cutoff: nat, calls: seq<Call>, ended: set<nat>) {
    forall k: nat :: k < cutoff ==> k in Held(calls) || k in ended
  }

  ghost predicate AllSettled(cutoff: nat, settled: map<nat, Outcome>, ended: set<nat>) {
    forall k: nat :: k < cutoff ==> k in settled || k in ended
  }

  ghost predicate HandlerInv(s: State) {
    (s.handler.Running? && s.core.terminated ==> s.core.haltErr.Some?) &&
    (s.handler.QueueEnded? || s.handler.Waiting? || s.handler.Waited? ==>
       s.core.terminated && (s.core.cutoffSet || s.core.haltErr.Some?)) &&
    (s.handler.Succeeded? || s.handler.Responded? ==>
       s.core.terminated && s.core.cutoffSet &&
       (s.handler.idle && !s.overtaken ==> AllRecorded(s.core.cutoff, s.calls, s.ended))) &&
    (s.handler.Responded? && s.finalWrite.Queued? ==>
       s.finalWrite.pos in s.core.settled && s.core.settled[s.finalWrite.pos] == Recorded) &&
    (s.handler.Responded? ==> !s.finalWrite.Begun?)
  }

  /** Whoever closes the channel awaitIdle waits on saw everything before the cutoff settled. */
  ghost predicate IdleInv(s: State) {
    (s.handler.Waiting? ==> s.handler.channel < s.core.registered) &&
    (s.handler.Waiting? && s.core.cutoffSet && !s.overtaken && (s.owing.Close? || s.handler.channel < s.core.closed) ==>
       AllSettled(s.core.cutoff, s.core.settled, s.ended)) &&
    (s.handler.Waited? && s.handler.idle && s.core.cutoffSet && !s.overtaken ==>
       AllSettled(s.core.cutoff, s.core.settled, s.ended))
  }

  ghost predicate Inv(s: State, initial: string) {
    QueueInv(s) && FlightInv(s) && DropsInv(s) && CountInv(s) && ChainInv(s, initial) && CallsInv(s) && FinalInv(s) &&
    UniformInv(s) && OrderInv(s) && GapInv(s) && HandlerInv(s) && IdleInv(s)
  }

  lemma InitInv(token: string)
    ensures Inv(Init(token), token)
  {
    var s := Init(token);
    assert QueueInv(s) && FlightInv(s) && ChainInv(s, token) && CallsInv(s);
    assert FinalInv(s) && UniformInv(s) && OrderInv(s) && GapInv(s) && IdleInv(s);
  }
}
