/**
  The stored form of a failed batch item's error: how a chain of wrapped errors is written level by level and
  rebuilt from what was written.

  An error is a value here. Fields the stored form does not carry and a rebuilt error leaves zero, such as
  attempts and callback identifiers, have no counterpart.
 */
module ErrorChain {
  import opened Utf8

  datatype Option<+T> = None | Some(value: T)

  const MAX_DEPTH := 32
  const MAX_DATA_BYTES := 256 * 1024

  type Trace = seq<string>

  datatype Kind =
    | Step | Invoke | Callback | CallbackExternal | CallbackTimeout | CallbackSubmitter
    | ChildContext | WaitForCondition | Retry | Operation
    | StepInterrupted | Combinator | Batch | BatchCompletion | NonDeterministic
    | Serdes

  /** A wire ErrorType: an SDK name, an older callback timeout name, the plain "Error", or any other name. */
  datatype WireType = Known(kind: Kind) | LegacyTimeout | LegacyHeartbeat | Plain | Named(name: string) | Empty

  datatype SentinelKind = CallbackTimedOut | InvokeTimedOut | ExecutionStopped | ExecutionCancelled

  /**
    StandIn is replayedError. Typed covers the SDK types whose fields include ErrorType, Message and Err; Note the
    SDK types that only keep a text. `otherwise` is the text a Note composes when nothing was recorded.
   */
  datatype Err =
    | Sentinel(which: SentinelKind)
    | StandIn(errType: WireType, message: string, sentinel: Option<Err>)
    | WithData(err: Err, data: string)
    | WithTrace(err: Err, trace: Trace)
    | Typed(kind: Kind, name: string, heartbeat: bool, recordedType: WireType, message: string, errorData: string,
            stackTrace: Trace, cause: Option<Err>)
    | Note(kind: Kind, name: string, recorded: string, otherwise: string, errors: seq<Err>)
    | SerdesErr(operation: string, direction: string, inner: Option<Err>)
    | User(typeName: WireType, text: string, wrapped: Option<Err>)

  /** One stored level. */
  datatype Stored = Stored(errType: WireType, message: string, data: string, trace: Trace, cause: Option<Stored>)

  // ----- texts -----

  predicate IsTyped(k: Kind) {
    k.Step? || k.Invoke? || k.Callback? || k.CallbackExternal? || k.CallbackTimeout? || k.CallbackSubmitter? ||
    k.ChildContext? || k.WaitForCondition? || k.Retry? || k.Operation?
  }

  predicate IsNote(k: Kind) {
    !IsTyped(k) && !k.Serdes?
  }

  function SentinelText(s: SentinelKind): string {
    match s
    case CallbackTimedOut => "durable: callback timed out"
    case InvokeTimedOut => "durable: invoke timed out"
    case ExecutionStopped => "durable: execution stopped"
    case ExecutionCancelled => "durable: execution cancelled"
  }

  function TypeText(t: WireType): string {
    match t
    case Known(_) => "SDK"
    case LegacyTimeout => "Callback.Timeout"
    case LegacyHeartbeat => "Callback.Heartbeat"
    case Plain => "Error"
    case Named(name) => name
    case Empty => ""
  }

  /** Error(). The fixed words of each SDK type's text are reduced to its name; only SerdesErr text is ever
      stored again. */
  function Text(e: Err): string {
    match e
    case Sentinel(s) => SentinelText(s)
    case StandIn(t, m, _) => if t.Empty? then m else TypeText(t) + ": " + m
    case WithData(inner, _) => Text(inner)
    case WithTrace(inner, _) => Text(inner)
    case Typed(_, name, _, t, m, _, _, cause) =>
      name + ": " + (if m != "" then TypeText(t) + ": " + m else if cause.Some? then Text(cause.value) else "")
    case Note(_, _, recorded, otherwise, _) => if recorded != "" then recorded else otherwise
    case SerdesErr(op, dir, inner) => "serdes " + dir + op + ": " + (if inner.Some? then Text(inner.value) else "<nil>")
    case User(_, text, _) => text
  }

  /** The text a rebuilt Note composes from zero fields. */
  function ZeroText(k: Kind): (s: string)
    ensures s != ""
  {
    if k.StepInterrupted? then "interrupted" else if k.NonDeterministic? then "non-deterministic replay" else "failed"
  }

  /** A payload is bounded where it is read. */
  function CutData(s: string): string {
    Truncated(s, MAX_DATA_BYTES)
  }

  // ----- storing -----

  /** errorDataOf: the first payload found walking inward. */
  function DataOf(e: Err): string {
    match e
    case Sentinel(_) => ""
    case StandIn(_, _, s) => if s.Some? then DataOf(s.value) else ""
    case WithData(inner, d) => if d != "" then CutData(d) else DataOf(inner)
    case WithTrace(inner, _) => DataOf(inner)
    case Typed(_, _, _, _, _, d, _, cause) =>
      if d != "" then CutData(d) else if cause.Some? then DataOf(cause.value) else ""
    case Note(_, _, _, _, errors) => FirstData(errors)
    case SerdesErr(_, _, inner) => if inner.Some? then DataOf(inner.value) else ""
    case User(_, _, wrapped) => if wrapped.Some? then DataOf(wrapped.value) else ""
  }

  function FirstData(errors: seq<Err>): string {
    if errors == [] then ""
    else if DataOf(errors[0]) != "" then DataOf(errors[0])
    else FirstData(errors[1..])
  }

  /** unwrapErrorData. */
  function Strip(e: Err): (r: Err)
    ensures !r.WithData? && !r.WithTrace?
  {
    match e
    case WithData(inner, _) => Strip(inner)
    case WithTrace(inner, _) => Strip(inner)
    case _ => e
  }

  function HeadTrace(e: Err): Trace {
    match e
    case WithData(inner, _) => HeadTrace(inner)
    case WithTrace(_, trace) => trace
    case _ => []
  }

  function StoreCause(c: Option<Err>, depth: nat): Option<Stored>
    decreases MAX_DEPTH - depth, 1
  {
    if c.None? || depth >= MAX_DEPTH then None else Some(StoreAt(c.value, depth))
  }

  /** newBatchErrorObjectAt, below the depth bound. */
  function StoreAt(e: Err, depth: nat): Stored
    requires depth < MAX_DEPTH
    decreases MAX_DEPTH - depth, 0
  {
    var data, wrapperTrace := DataOf(e), HeadTrace(e);
    match Strip(e)
    case StandIn(t, m, s) =>
      Stored(if t.Empty? then Plain else t, m, data, wrapperTrace, StoreCause(s, depth + 1))
    case Typed(k, _, _, _, m, _, trace, cause) =>
      Stored(Known(k), m, data, if trace == [] then wrapperTrace else trace, StoreCause(cause, depth + 1))
    case Note(k, _, _, _, _) => Stored(Known(k), Text(Strip(e)), data, wrapperTrace, None)
    case SerdesErr(_, _, inner) => Stored(Known(Serdes), Text(Strip(e)), data, wrapperTrace,
                                          StoreCause(inner, depth + 1))
    case User(t, text, wrapped) => Stored(if t.Empty? then Plain else t, text, data, wrapperTrace,
                                          StoreCause(wrapped, depth + 1))
    case Sentinel(s) => Stored(Plain, SentinelText(s), data, wrapperTrace, None)
    case WithData(_, _) => Stored(Plain, "", data, wrapperTrace, None)
    case WithTrace(_, _) => Stored(Plain, "", data, wrapperTrace, None)
  }

  function Store(e: Err): Stored {
    StoreAt(e, 0)
  }

  // ----- rebuilding -----

  function SdkKind(t: WireType): Option<Kind> {
    match t
    case Known(k) => Some(k)
    case LegacyTimeout => Some(CallbackTimeout)
    case LegacyHeartbeat => Some(CallbackTimeout)
    case _ => None
  }

  predicate Legacy(t: WireType) {
    t.LegacyTimeout? || t.LegacyHeartbeat?
  }

  function SentinelFor(o: Stored): Option<SentinelKind> {
    if !o.errType.Plain? || o.cause.Some? || o.data != "" || o.trace != [] then None
    else if o.message == SentinelText(CallbackTimedOut) then Some(CallbackTimedOut)
    else if o.message == SentinelText(InvokeTimedOut) then Some(InvokeTimedOut)
    else if o.message == SentinelText(ExecutionStopped) then Some(ExecutionStopped)
    else if o.message == SentinelText(ExecutionCancelled) then Some(ExecutionCancelled)
    else None
  }

  function Lower(c: char): char {
    if 'A' <= c <= 'Z' then (c as int + 32) as char else c
  }

  predicate MentionsHeartbeat(m: string) {
    exists i :: 0 <= i <= |m| - 9 && HeartbeatAt(m, i)
  }

  predicate HeartbeatAt(m: string, i: nat)
    requires i + 9 <= |m|
  {
    forall j :: 0 <= j < 9 ==> Lower(m[i + j]) == "heartbeat"[j]
  }

  const CALLBACK_TIMED_OUT := "Callback timed out"
  const CALLBACK_FAILED := "Callback failed"

  function WithDefault(k: Kind, message: string): string {
    if message != "" then message
    else if k.CallbackExternal? then CALLBACK_FAILED
    else if k.CallbackTimeout? then CALLBACK_TIMED_OUT
    else message
  }

  /** The Err of a rebuilt type whose live constructor uses errorRecord.cause. */
  function InnerOf(wire: WireType, name: string, errType: WireType, message: string, data: string,
                   trace: Trace): (e: Err)
    ensures e.StandIn? ==> e.sentinel.None?
    decreases if errType == wire then 0 else 2
  {
    if errType != wire && SdkKind(errType).Some? then
      Reconstruct(errType, if errType == Known(Combinator) then name else "", errType, message, data, trace)
    else StandIn(errType, message, None)
  }

  /** reconstructSDKError without a sentinel, for an SDK wire name. */
  function Reconstruct(wire: WireType, name: string, errType: WireType, message: string, data: string, trace: Trace):
    (e: Err)
    requires SdkKind(wire).Some?
    ensures !e.StandIn? && !e.WithData? && !e.WithTrace?
    decreases if errType == wire then 1 else 3
  {
    var k := SdkKind(wire).value;
    var text := WithDefault(k, message);
    if IsTyped(k) then
      var own := k.Callback? || k.CallbackExternal? || k.CallbackSubmitter?;
      var inner :=
        if k.CallbackTimeout? then StandIn(errType, text, Some(Sentinel(CallbackTimedOut)))
        else if own then StandIn(errType, text, None)
        else InnerOf(wire, name, errType, text, data, trace);
      var beat := k.CallbackTimeout? && (errType.LegacyHeartbeat? || MentionsHeartbeat(text));
      Typed(k, name, beat, errType, text, data, trace, Some(inner))
    else if k.Serdes? then SerdesErr(name, "", Some(StandIn(errType, message, None)))
    else if k.Combinator? || k.Batch? then
      Note(k, name, message, ZeroText(k), [InnerOf(wire, name, errType, message, data, trace)])
    else Note(k, name, message, ZeroText(k), [])
  }

  /** reconstructSDKError for a record whose ErrorType may be missing. */
  function Rebuilt(wire: WireType, name: string, errType: WireType, message: string, data: string, trace: Trace): Err
    requires SdkKind(wire).Some?
  {
    if !errType.Empty? then Reconstruct(wire, name, errType, message, data, trace)
    else if wire == Known(Operation) && message == "" then
      Typed(Operation, name, false, Empty, "", data, trace, None)
    else Reconstruct(wire, name, wire, message, data, trace)
  }

  /** setErrorCause. A sentinel the replaced cause carried moves to a stand-in that has none. */
  function SetCause(e: Err, cause: Err): Err {
    match e
    case Typed(_, _, _, _, _, _, _, slot) =>
      var moved :=
        if slot.Some? && slot.value.StandIn? && slot.value.sentinel.Some? && cause.StandIn? && cause.sentinel.None?
        then cause.(sentinel := slot.value.sentinel) else cause;
      e.(cause := Some(moved))
    case SerdesErr(_, _, _) => e.(inner := Some(cause))
    case _ => e
  }

  function Wrapped(leaf: Err, data: string, trace: Trace): Err {
    var d := if data != "" then WithData(leaf, data) else leaf;
    if trace != [] then WithTrace(d, trace) else d
  }

  /** rebuildAt. */
  function RebuildAt(o: Stored, itemName: string, depth: nat): Err
    decreases o
  {
    var cause: Option<Err> :=
      if o.cause.Some? && depth + 1 < MAX_DEPTH then Some(RebuildAt(o.cause.value, "", depth + 1)) else None;
    if SdkKind(o.errType).None? then
      if SentinelFor(o).Some? then Sentinel(SentinelFor(o).value)
      else Wrapped(StandIn(if o.errType.Empty? then Plain else o.errType, o.message, cause), o.data, o.trace)
    else
      var name := if depth == 0 && o.errType == Known(ChildContext) then itemName else "";
      var e := Rebuilt(o.errType, name, if o.cause.Some? then o.cause.value.errType else o.errType,
                           o.message, o.data, o.trace);
      if cause.Some? then SetCause(e, cause.value) else e
  }

  /** storedBatchItemError: what a batch reports for a failed item. */
  function Normalize(e: Err, itemName: string): Err {
    RebuildAt(Store(e), itemName, 0)
  }
}
