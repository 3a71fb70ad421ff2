/**
  The error a failed batch item reports: what a NORMAL item records of its body's error, and the typed error built
  from that record on the first run and on replay alike.

  Attempts and callback identifiers travel with the record but reach no stored form, so they have no counterpart.
 */
module ItemErrors {
  import opened Utf8
  import opened ErrorChain
  import opened ErrorFixpoint

  const MAX_INNER_MESSAGE_BYTES := 1024

  /** childErrorData. */
  datatype Meta = Meta(name: string, direction: string, timedOut: bool, innerType: WireType, innerMessage: string,
                       data: string)

  const NO_META := Meta("", "", false, Empty, "", "")

  /** The record of a failed item; no metadata object is written when there is nothing to put in it. */
  datatype Record = Record(errType: WireType, message: string, meta: Option<Meta>)

  // ----- what is recorded -----

  /** outermostSDKError. */
  function Outermost(e: Err): Option<Err> {
    match e
    case Sentinel(_) => None
    case StandIn(_, _, s) => if s.Some? then Outermost(s.value) else None
    case WithData(inner, _) => Outermost(inner)
    case WithTrace(inner, _) => Outermost(inner)
    case User(_, _, wrapped) => if wrapped.Some? then Outermost(wrapped.value) else None
    case _ => Some(e)
  }

  function KindOf(e: Err): Kind
    requires e.Typed? || e.Note? || e.SerdesErr?
  {
    if e.SerdesErr? then Serdes else e.kind
  }

  /** wireErrorType. */
  function WireTypeOf(e: Err): WireType {
    var sdk := Outermost(e);
    if sdk.Some? && (sdk.value.Typed? || sdk.value.Note? || sdk.value.SerdesErr?) then Known(KindOf(sdk.value))
    else match Strip(e)
      case StandIn(t, _, _) => t
      case User(t, _, _) => t
      case _ => Plain
  }

  /** The message recordOf keeps: a stand-in's own, without its type. */
  function RecordedMessage(e: Err): string {
    if Strip(e).StandIn? then Strip(e).message else Text(e)
  }

  function WithInner(m: Meta, cause: Option<Err>): Meta {
    if cause.None? then m
    else m.(innerType := WireTypeOf(cause.value),
            innerMessage := Truncated(RecordedMessage(cause.value), MAX_INNER_MESSAGE_BYTES))
  }

  /** wrapperErrorData. */
  function WrapperMeta(e: Err): Option<Meta> {
    var none := NO_META.(data := DataOf(e));
    match Outermost(e)
    case Some(Typed(k, name, _, _, _, _, _, cause)) =>
      (match k
       case Step => Some(WithInner(none.(name := name), cause))
       case WaitForCondition => Some(WithInner(none.(name := name), cause))
       case Callback => Some(WithInner(none.(name := name, timedOut := Is(Outermost(e).value, CallbackTimedOut)),
                                       cause))
       case CallbackExternal => Some(WithInner(none.(name := name), cause))
       case CallbackTimeout => Some(WithInner(none.(name := name, timedOut := true), cause))
       case CallbackSubmitter => Some(WithInner(none.(name := name), cause))
       case _ => None)
    case Some(SerdesErr(op, dir, inner)) => Some(WithInner(none.(name := op, direction := dir), inner))
    case _ => None
  }

  /** encodeChildErrorData, up to its JSON text. */
  function RecordedMeta(e: Err): Option<Meta> {
    if WrapperMeta(e).Some? then WrapperMeta(e)
    else if DataOf(e) != "" then Some(NO_META.(data := DataOf(e)))
    else None
  }

  /** The record a NORMAL item writes when its body fails with e. */
  function RecordOf(e: Err): Record {
    Record(WireTypeOf(e), RecordedMessage(e), RecordedMeta(e))
  }

  // ----- what is built from it -----

  /** errorRecord.cause. */
  function CauseFor(t: WireType, name: string, message: string, data: string): Err {
    if SdkKind(t).Some? then Reconstruct(t, if t == Known(Combinator) then name else "", t, message, data, [])
    else StandIn(t, message, None)
  }

  function TimeoutOr(timedOut: bool): Option<Err> {
    if timedOut then Some(Sentinel(CallbackTimedOut)) else None
  }

  /** The type and message of the wrapped failure: the item's own message when none was recorded. */
  function InnerRecord(message: string, meta: Meta): (WireType, string) {
    if meta.innerType.Empty? && meta.innerMessage == "" then (Plain, message) else (meta.innerType, meta.innerMessage)
  }

  function CallbackLike(k: Kind, meta: Meta, t: WireType, message: string, timedOut: bool): Err {
    var beat := k.CallbackTimeout? && (t.LegacyHeartbeat? || MentionsHeartbeat(message));
    Typed(k, meta.name, beat, t, message, meta.data, [], Some(StandIn(t, message, TimeoutOr(timedOut))))
  }

  /** newCallbackExternalError and newCallbackTimeoutError name a failure that has no type after themselves. */
  function NamedAfter(k: Kind, t: WireType): WireType {
    if t.Empty? && (k.CallbackExternal? || k.CallbackTimeout?) then Known(k) else t
  }

  /** reconstructInnerError. */
  function InnerError(t: WireType, message: string, meta: Meta): Err {
    var (it, im) := InnerRecord(message, meta);
    match t
    case Known(Step) => Typed(Step, meta.name, false, it, im, meta.data, [], Some(CauseFor(it, "", im, meta.data)))
    case Known(WaitForCondition) =>
      Typed(WaitForCondition, meta.name, false, it, im, meta.data, [], Some(CauseFor(it, "", im, meta.data)))
    case Known(Callback) => CallbackLike(Callback, meta, it, im, meta.timedOut)
    case Known(CallbackExternal) =>
      CallbackLike(CallbackExternal, meta, NamedAfter(CallbackExternal, it), WithDefault(CallbackExternal, im), false)
    case Known(CallbackTimeout) =>
      CallbackLike(CallbackTimeout, meta, NamedAfter(CallbackTimeout, it), WithDefault(CallbackTimeout, im), true)
    case Known(CallbackSubmitter) => CallbackLike(CallbackSubmitter, meta, it, im, false)
    case Known(Serdes) => SerdesErr(meta.name, meta.direction, Some(StandIn(it, im, None)))
    case _ => CauseFor(t, "", message, meta.data)
  }

  /** batchItemError. */
  function ItemError(itemName: string, t: WireType, message: string, meta: Meta, trace: Trace): Err {
    Typed(ChildContext, itemName, false, t, message, meta.data, trace, Some(InnerError(t, message, meta)))
  }

  /** liveBatchItemError. */
  function LiveItemError(itemName: string, e: Err, trace: Trace): Err {
    var w := WrapperMeta(e);
    var meta := if w.Some? && w.value != NO_META then w.value else NO_META.(data := DataOf(e));
    ItemError(itemName, WireTypeOf(e), Text(e), meta, trace)
  }

  /** What replay builds from the item's record; a metadata object that is absent reads as an empty one. */
  function ReplayedItemError(itemName: string, r: Record, trace: Trace): Err {
    ItemError(itemName, r.errType, r.message, if r.meta.Some? then r.meta.value else NO_META, trace)
  }

  /** The first run builds the error from the metadata that is recorded. */
  lemma MetaSurvives(itemName: string, e: Err, trace: Trace)
    ensures ReplayedItemError(itemName, RecordOf(e).(message := Text(e)), trace) == LiveItemError(itemName, e, trace)
  {
  }

  lemma TopMessage(e: Err, itemName: string)
    requires e.Typed? && e.kind.ChildContext?
    ensures Normalize(e, itemName).Typed? && Normalize(e, itemName).message == e.message
  {
    StoringIsImage(e, 0);
    assert Strip(e) == e;
    TypedShape(Store(e), itemName, 0);
  }

  /**
    The error built from the record is the first run's, exactly when the recorded message is the body's error text: a
    body that returns the stand-in inside one of the SDK's errors records a message without its type.
   */
  lemma RecordKeepsItemErrorIff(itemName: string, e: Err, trace: Trace)
    ensures (Normalize(ReplayedItemError(itemName, RecordOf(e), trace), itemName) ==
             Normalize(LiveItemError(itemName, e, trace), itemName)) <==> RecordedMessage(e) == Text(e)
  {
    var replayed, live := ReplayedItemError(itemName, RecordOf(e), trace), LiveItemError(itemName, e, trace);
    MetaSurvives(itemName, e, trace);
    assert replayed.message == RecordedMessage(e) && live.message == Text(e);
    if RecordedMessage(e) == Text(e) {
      assert RecordOf(e) == RecordOf(e).(message := Text(e));
    } else {
      TopMessage(replayed, itemName);
      TopMessage(live, itemName);
    }
  }

  // ----- when the first run and replay agree -----

  /** A stored stand-in of this type is stable, and may be the cause of a typed level; caused says it has a cause. */
  predicate StandInSettles(t: WireType, message: string, caused: bool) {
    match SdkKind(t)
    case None => true
    case Some(k) => if IsNote(k) then message != "" && (k.Combinator? || k.Batch? ==> !caused) else caused && !Legacy(t)
  }

  /** A cause rebuilt from this type and a text is stored in a stable form. */
  predicate CauseSettles(t: WireType) {
    SdkKind(t).None? || IsNote(SdkKind(t).value) || t == Known(CallbackTimeout)
  }

  /** Checked on the record: the item's type, and the type and message of the failure inside it. */
  predicate Settles(t: WireType, message: string, meta: Meta) {
    var (it, im) := InnerRecord(message, meta);
    match t
    case Known(Step) => CauseSettles(it)
    case Known(WaitForCondition) => CauseSettles(it)
    case Known(Callback) => StandInSettles(it, im, meta.timedOut)
    case Known(CallbackExternal) => StandInSettles(NamedAfter(CallbackExternal, it), WithDefault(CallbackExternal, im),
                                                   false)
    case Known(CallbackTimeout) => StandInSettles(NamedAfter(CallbackTimeout, it), WithDefault(CallbackTimeout, im),
                                                  true)
    case Known(CallbackSubmitter) => StandInSettles(it, im, false)
    case Known(Serdes) => StandInSettles(it, im, false)
    case _ => CauseSettles(t)
  }

  /** A level below a typed or serdes level is stored as settled: stable, and not under an older name. */
  ghost predicate SettledLevel(low: Stored, depth: nat) {
    Stable(low, depth) && !Legacy(low.errType)
  }

  function CauseIn(e: Err): Option<Err> {
    match e
    case StandIn(_, _, s) => s
    case Typed(_, _, _, _, _, _, _, c) => c
    case SerdesErr(_, _, c) => c
    case User(_, _, c) => c
    case _ => None
  }

  lemma StoredCause(e: Err, depth: nat)
    requires depth + 1 < MAX_DEPTH && Strip(e) == e && (e.StandIn? || e.Typed? || e.SerdesErr?)
    ensures StoreAt(e, depth).cause == if CauseIn(e).Some? then Some(StoreAt(CauseIn(e).value, depth + 1)) else None
  {
    assert StoreAt(e, depth).cause == StoreCause(CauseIn(e), depth + 1);
  }

  lemma StandInLevel(t: WireType, message: string, timedOut: bool, depth: nat)
    requires depth + 2 < MAX_DEPTH
    ensures var low := StoreAt(StandIn(t, message, TimeoutOr(timedOut)), depth);
            (SettledLevel(low, depth) <==> StandInSettles(t, message, timedOut)) && Payload(low) == "" &&
            (!timedOut ==> (Stable(low, depth) <==> StandInSettles(t, message, false)))
  {
    var e := StandIn(t, message, TimeoutOr(timedOut));
    var low := StoreAt(e, depth);
    assert Strip(e) == e && DataOf(e) == "" && HeadTrace(e) == [];
    StoredCause(e, depth);
    if timedOut {
      var s := StoreAt(Sentinel(CallbackTimedOut), depth + 1);
      assert s == Stored(Plain, SentinelText(CallbackTimedOut), "", [], None);
      assert low.cause == Some(s) && Stable(s, depth + 1) && Payload(s) == "";
    }
  }

  lemma NoteLevel(t: WireType, message: string, data: string, depth: nat)
    requires depth < MAX_DEPTH && SdkKind(t).Some? && IsNote(SdkKind(t).value)
    ensures var low := StoreAt(CauseFor(t, "", message, data), depth); SettledLevel(low, depth) && Payload(low) == ""
  {
    var k := SdkKind(t).value;
    var inner := CauseFor(t, "", message, data);
    assert Strip(inner) == inner;
    assert StoreAt(inner, depth) == Stored(Known(k), Text(inner), DataOf(inner), [], None);
  }

  lemma TypedLevel(t: WireType, message: string, data: string, depth: nat)
    requires depth + 3 < MAX_DEPTH && SdkKind(t).Some? && IsTyped(SdkKind(t).value)
    ensures var low := StoreAt(CauseFor(t, "", message, data), depth);
            (SettledLevel(low, depth) <==> t == Known(CallbackTimeout)) && (CutData(data) == "" ==> Payload(low) == "")
  {
    var k := SdkKind(t).value;
    var inner := CauseFor(t, "", message, data);
    var text := WithDefault(k, message);
    assert inner.cause == Some(StandIn(t, text, TimeoutOr(k.CallbackTimeout?))) && Strip(inner) == inner;
    StandInLevel(t, text, k.CallbackTimeout?, depth + 1);
    var low := StoreAt(inner, depth);
    StoredCause(inner, depth);
    assert low.errType == Known(k) && low.cause == Some(StoreAt(inner.cause.value, depth + 1));
    assert DataOf(inner.cause.value) == "";
    assert low.data == CutData(data) || low.data == "";
  }

  lemma SerdesLevel(message: string, data: string, depth: nat)
    requires depth + 3 < MAX_DEPTH
    ensures var low := StoreAt(CauseFor(Known(Serdes), "", message, data), depth);
            !SettledLevel(low, depth) && Payload(low) == ""
  {
    var inner := CauseFor(Known(Serdes), "", message, data);
    assert inner == SerdesErr("", "", Some(StandIn(Known(Serdes), message, TimeoutOr(false)))) && Strip(inner) == inner;
    StandInLevel(Known(Serdes), message, false, depth + 1);
    var low := StoreAt(inner, depth);
    StoredCause(inner, depth);
    assert DataOf(inner) == "" && low.data == "";
  }

  lemma CauseLevel(t: WireType, message: string, data: string, depth: nat)
    requires depth + 3 < MAX_DEPTH
    ensures var low := StoreAt(CauseFor(t, "", message, data), depth);
            (SettledLevel(low, depth) <==> CauseSettles(t)) && (CutData(data) == "" ==> Payload(low) == "")
  {
    if SdkKind(t).None? {
      StandInLevel(t, message, false, depth);
    } else if IsNote(SdkKind(t).value) {
      NoteLevel(t, message, data, depth);
    } else if IsTyped(SdkKind(t).value) {
      TypedLevel(t, message, data, depth);
    } else {
      SerdesLevel(message, data, depth);
    }
  }

  lemma CauseData(t: WireType, message: string, data: string)
    ensures CutData(data) == "" ==> DataOf(CauseFor(t, "", message, data)) == ""
  {
    var e := CauseFor(t, "", message, data);
    var k := SdkKind(t);
    if k.Some? && IsTyped(k.value) {
      assert e.cause == Some(StandIn(t, WithDefault(k.value, message), TimeoutOr(k.value.CallbackTimeout?)));
      assert DataOf(e.cause.value) == "";
    } else if k.Some? && (k.value.Combinator? || k.value.Batch?) {
      OnePayload(StandIn(t, message, None));
      assert e.errors == [StandIn(t, message, None)];
    }
  }

  /** A typed level over a settled cause is settled when it carries its own payload or there is none. */
  lemma AboveLevel(e: Err, depth: nat)
    requires depth + 1 < MAX_DEPTH && e.Typed? && IsTyped(e.kind) && e.cause.Some?
    requires e.errorData == "" ==> Payload(StoreAt(e.cause.value, depth + 1)) == ""
    requires CutData(e.errorData) == "" ==> Payload(StoreAt(e.cause.value, depth + 1)) == ""
    ensures SettledLevel(StoreAt(e, depth), depth) <==> SettledLevel(StoreAt(e.cause.value, depth + 1), depth + 1)
    ensures CutData(e.errorData) == "" && DataOf(e.cause.value) == "" ==> Payload(StoreAt(e, depth)) == ""
  {
    var o := StoreAt(e, depth);
    StoredCause(e, depth);
    assert Strip(e) == e && o.errType == Known(e.kind) && o.cause == Some(StoreAt(e.cause.value, depth + 1));
  }

  lemma InnerLevel(t: WireType, message: string, meta: Meta)
    ensures var c := StoreAt(InnerError(t, message, meta), 1);
            (SettledLevel(c, 1) <==> Settles(t, message, meta)) && (CutData(meta.data) == "" ==> Payload(c) == "")
  {
    var (it, im) := InnerRecord(message, meta);
    var e := InnerError(t, message, meta);
    match t
    case Known(Step) => CauseLevel(it, im, meta.data, 2); AboveCause(e, it, im, meta.data);
    case Known(WaitForCondition) => CauseLevel(it, im, meta.data, 2); AboveCause(e, it, im, meta.data);
    case Known(Callback) => AboveStandIn(e, it, im, meta.timedOut);
    case Known(CallbackExternal) =>
      AboveStandIn(e, NamedAfter(CallbackExternal, it), WithDefault(CallbackExternal, im), false);
    case Known(CallbackTimeout) => AboveStandIn(e, NamedAfter(CallbackTimeout, it), WithDefault(CallbackTimeout, im),
                                                true);
    case Known(CallbackSubmitter) => AboveStandIn(e, it, im, false);
    case Known(Serdes) =>
      StandInLevel(it, im, false, 2);
      StoredCause(e, 1);
      assert e.inner == Some(StandIn(it, im, TimeoutOr(false))) && DataOf(e) == "" &&
             StoreAt(e, 1).errType == Known(Serdes);
    case _ => CauseLevel(t, message, meta.data, 1);
  }

  lemma AboveStandIn(e: Err, t: WireType, message: string, timedOut: bool)
    requires e.Typed? && IsTyped(e.kind) && e.cause == Some(StandIn(t, message, TimeoutOr(timedOut)))
    ensures SettledLevel(StoreAt(e, 1), 1) <==> StandInSettles(t, message, timedOut)
    ensures CutData(e.errorData) == "" ==> Payload(StoreAt(e, 1)) == ""
  {
    StandInLevel(t, message, timedOut, 2);
    AboveLevel(e, 1);
    assert DataOf(e.cause.value) == "";
  }

  lemma AboveCause(e: Err, t: WireType, message: string, data: string)
    requires e.Typed? && IsTyped(e.kind) && e.cause == Some(CauseFor(t, "", message, data)) && e.errorData == data
    ensures SettledLevel(StoreAt(e, 1), 1) <==> CauseSettles(t)
    ensures CutData(data) == "" ==> Payload(StoreAt(e, 1)) == ""
  {
    CauseLevel(t, message, data, 2);
    AboveLevel(e, 1);
    CauseData(t, message, data);
  }

  /**
    A failed NORMAL item reports the same error on the first run and on replay exactly when its record settles: the
    failure was not an SDK error with a cause of its own, or the recorded cause names no such error either.
   */
  lemma ItemErrorFixedIff(itemName: string, t: WireType, message: string, meta: Meta, trace: Trace)
    ensures var e := ItemError(itemName, t, message, meta, trace);
            Normalize(Normalize(e, itemName), itemName) == Normalize(e, itemName) <==> Settles(t, message, meta)
  {
    var e := ItemError(itemName, t, message, meta, trace);
    LiveEqualsReplayIff(e, itemName);
    InnerLevel(t, message, meta);
    AboveLevel(e, 0);
  }
}
