/** What a caller still finds in a reported item error: the type, the name and the cause of the body's own error. */
module ErrorKinds {
  import opened Utf8
  import opened ErrorChain
  import opened ErrorFixpoint
  import opened ItemErrors

  // ----- the SDK error inside -----

  /** The errors that a failed item is rebuilt as, with their fields. */
  predicate Wrapper(e: Err) {
    e.SerdesErr? ||
    (e.Typed? && (e.kind == Step || e.kind == WaitForCondition || e.kind == Callback || e.kind == CallbackExternal ||
                  e.kind == CallbackTimeout || e.kind == CallbackSubmitter))
  }

  /** errors.As: the first SDK error along the causes. */
  ghost predicate Finds(e: Err, sdk: Err)
    decreases e
  {
    match e
    case Typed(_, _, _, _, _, _, _, _) => sdk == e
    case Note(_, _, _, _, _) => sdk == e
    case SerdesErr(_, _, _) => sdk == e
    case Sentinel(_) => false
    case StandIn(_, _, c) => c.Some? && Finds(c.value, sdk)
    case WithData(inner, _) => Finds(inner, sdk)
    case WithTrace(inner, _) => Finds(inner, sdk)
    case User(_, _, c) => c.Some? && Finds(c.value, sdk)
  }

  lemma {:induction false} FoundIsOutermost(e: Err, sdk: Err)
    requires Finds(e, sdk)
    ensures Outermost(e) == Some(sdk)
    ensures forall s :: Is(e, s) == Is(sdk, s)
    decreases e
  {
    match e
    case StandIn(_, _, c) => FoundIsOutermost(c.value, sdk);
    case WithData(inner, _) => FoundIsOutermost(inner, sdk);
    case WithTrace(inner, _) => FoundIsOutermost(inner, sdk);
    case User(_, _, c) => FoundIsOutermost(c.value, sdk);
    case _ =>
  }

  function CauseOfSdk(sdk: Err): Option<Err>
    requires Wrapper(sdk)
  {
    if sdk.SerdesErr? then sdk.inner else sdk.cause
  }

  function KindFound(sdk: Err): Kind
    requires Wrapper(sdk)
  {
    if sdk.SerdesErr? then Serdes else sdk.kind
  }

  // ----- the first run -----

  /** What is recorded of the body's error. */
  ghost predicate MetaFor(m: Meta, e: Err, sdk: Err)
    requires Wrapper(sdk)
  {
    m.name == (if sdk.SerdesErr? then sdk.operation else sdk.name) &&
    m.direction == (if sdk.SerdesErr? then sdk.direction else "") &&
    (m.timedOut <==> sdk.Typed? && (sdk.kind.CallbackTimeout? || (sdk.kind.Callback? && Is(e, CallbackTimedOut)))) &&
    (match CauseOfSdk(sdk)
     case None => m.innerType.Empty? && m.innerMessage == ""
     case Some(c) => m.innerType == WireTypeOf(c) && m.innerMessage == Truncated(RecordedMessage(c), 1024))
  }

  lemma WrapperIsRecorded(e: Err, sdk: Err)
    requires Outermost(e) == Some(sdk) && Wrapper(sdk) && Is(e, CallbackTimedOut) == Is(sdk, CallbackTimedOut)
    ensures WireTypeOf(e) == Known(KindFound(sdk)) && WrapperMeta(e).Some? && MetaFor(WrapperMeta(e).value, e, sdk)
  {
  }

  lemma ReportedIs(e: Err, sdk: Err, itemName: string, trace: Trace) returns (m: Meta)
    requires Finds(e, sdk) && Wrapper(sdk)
    ensures MetaFor(m, e, sdk)
    ensures LiveItemError(itemName, e, trace) ==
            Typed(ChildContext, itemName, false, Known(KindFound(sdk)), Text(e), m.data, trace,
                  Some(InnerError(Known(KindFound(sdk)), Text(e), m)))
  {
    FoundIsOutermost(e, sdk);
    WrapperIsRecorded(e, sdk);
    m := WrapperMeta(e).value;
  }

  lemma InnerKind(sdk: Err, e: Err, m: Meta, message: string)
    requires Wrapper(sdk) && MetaFor(m, e, sdk)
    ensures var x := InnerError(Known(KindFound(sdk)), message, m);
            if sdk.SerdesErr? then x.SerdesErr? && x.operation == sdk.operation && x.direction == sdk.direction
            else x.Typed? && x.kind == sdk.kind && x.name == sdk.name && x.cause.Some?
  {
  }

  /**
    The error reported for an item wraps an error of the very type the body failed with, under the same name and, for a
    serializer failure, the same direction.
   */
  lemma KindIsReported(e: Err, sdk: Err, itemName: string, trace: Trace)
    requires Finds(e, sdk) && Wrapper(sdk)
    ensures var r := LiveItemError(itemName, e, trace);
            r.Typed? && r.kind == ChildContext && r.name == itemName && r.message == Text(e) && r.stackTrace == trace &&
            r.cause.Some? &&
            var x := r.cause.value;
            if sdk.SerdesErr? then
              r.recordedType == Known(Serdes) &&
              x.SerdesErr? && x.operation == sdk.operation && x.direction == sdk.direction
            else r.recordedType == Known(sdk.kind) && x.Typed? && x.kind == sdk.kind && x.name == sdk.name
  {
    var m := ReportedIs(e, sdk, itemName, trace);
    InnerKind(sdk, e, m, Text(e));
  }

  /** The type and the message an item's error takes from the failure inside; the item's own when there is neither. */
  function CauseSeen(e: Err, sdk: Err): (WireType, string)
    requires Wrapper(sdk)
  {
    var c := CauseOfSdk(sdk);
    if c.None? then (Plain, Text(e))
    else
      var t, m := WireTypeOf(c.value), Truncated(RecordedMessage(c.value), 1024);
      if t.Empty? && m == "" then (Plain, Text(e)) else (t, m)
  }

  /** The error in an item's error says what caused it; an external failure or a timeout without words names itself. */
  lemma CauseIsReported(e: Err, sdk: Err, itemName: string, trace: Trace)
    requires Finds(e, sdk) && Wrapper(sdk)
    ensures var r := LiveItemError(itemName, e, trace);
            var (t, m) := CauseSeen(e, sdk);
            r.Typed? && r.cause.Some? &&
            var x := r.cause.value;
            if sdk.SerdesErr? then x.SerdesErr? && x.inner == Some(StandIn(t, m, None))
            else
              x.Typed? &&
              x.recordedType == (if t.Empty? && (sdk.kind == CallbackExternal || sdk.kind == CallbackTimeout)
                                 then Known(sdk.kind) else t) &&
              x.message == (if m == "" && sdk.kind == CallbackExternal then "Callback failed"
                            else if m == "" && sdk.kind == CallbackTimeout then "Callback timed out" else m)
  {
    var meta := ReportedIs(e, sdk, itemName, trace);
    assert InnerRecord(Text(e), meta) == CauseSeen(e, sdk);
  }

  lemma StandInTimesOut(t: WireType, message: string, timedOut: bool)
    ensures Is(StandIn(t, message, TimeoutOr(timedOut)), CallbackTimedOut) <==> timedOut
  {
    assert timedOut ==> Is(Sentinel(CallbackTimedOut), CallbackTimedOut);
  }

  lemma CauseTimesOut(t: WireType, message: string, data: string)
    ensures Is(CauseFor(t, "", message, data), CallbackTimedOut) <==> TimeoutType(t)
  {
    var k := SdkKind(t);
    var x := CauseFor(t, "", message, data);
    if k.Some? && IsTyped(k.value) {
      var text := WithDefault(k.value, message);
      assert x.cause == Some(StandIn(t, text, TimeoutOr(k.value.CallbackTimeout?)));
      StandInTimesOut(t, text, k.value.CallbackTimeout?);
    } else if k.Some? && k.value.Serdes? {
      assert x.inner == Some(StandIn(t, message, None));
    }
  }

  predicate TimeoutType(t: WireType) {
    t == Known(CallbackTimeout) || t == LegacyTimeout || t == LegacyHeartbeat
  }

  lemma InnerTimesOut(sdk: Err, e: Err, m: Meta, message: string)
    requires Wrapper(sdk) && MetaFor(m, e, sdk)
    ensures Is(InnerError(Known(KindFound(sdk)), message, m), CallbackTimedOut) <==>
            m.timedOut || (sdk.Typed? && (sdk.kind.Step? || sdk.kind.WaitForCondition?) && TimeoutType(m.innerType))
  {
    var (it, im) := InnerRecord(message, m);
    var x := InnerError(Known(KindFound(sdk)), message, m);
    if sdk.SerdesErr? {
      assert x.inner == Some(StandIn(it, im, None));
    } else if sdk.kind.Step? || sdk.kind.WaitForCondition? {
      CauseTimesOut(it, im, m.data);
      assert x.cause == Some(CauseFor(it, "", im, m.data));
    } else {
      assert x.cause == Some(StandIn(x.recordedType, x.message, TimeoutOr(m.timedOut)));
      StandInTimesOut(x.recordedType, x.message, m.timedOut);
    }
  }

  /**
    A callback's timeout is still matched: of a callback error exactly when it was, of a timeout error always, and of a
    step or condition when the cause recorded for it is a callback timeout, under its name or an older one.
   */
  lemma TimeoutIsReported(e: Err, sdk: Err, itemName: string, trace: Trace)
    requires Finds(e, sdk) && Wrapper(sdk)
    ensures Is(LiveItemError(itemName, e, trace), CallbackTimedOut) <==>
            sdk.Typed? && (sdk.kind.CallbackTimeout? || (sdk.kind.Callback? && Is(e, CallbackTimedOut)) ||
                           ((sdk.kind.Step? || sdk.kind.WaitForCondition?) && sdk.cause.Some? &&
                            TimeoutType(WireTypeOf(sdk.cause.value))))
  {
    var m := ReportedIs(e, sdk, itemName, trace);
    InnerTimesOut(sdk, e, m, Text(e));
  }

  /** A step that failed because of an error of the caller's that wraps the timeout no longer matches it. */
  lemma TimeoutMayBeLost(itemName: string, trace: Trace)
    ensures var own := User(Named("E"), "late", Some(Sentinel(CallbackTimedOut)));
            var e := Typed(Step, "s", false, Named("E"), "late", "", [], Some(own));
            Is(e, CallbackTimedOut) && !Is(LiveItemError(itemName, e, trace), CallbackTimedOut)
  {
    var own := User(Named("E"), "late", Some(Sentinel(CallbackTimedOut)));
    var e := Typed(Step, "s", false, Named("E"), "late", "", [], Some(own));
    assert Is(own, CallbackTimedOut) && WireTypeOf(own) == Named("E");
    TimeoutIsReported(e, e, itemName, trace);
  }

  // ----- what a rebuild keeps -----

  /** A level of an SDK type comes back as that type, with its message, its payload and its trace. */
  lemma TypedLevelKept(e: Err, name: string, depth: nat)
    requires depth < MAX_DEPTH && Strip(e).Typed? && IsTyped(Strip(e).kind)
    ensures var sdk, r := Strip(e), RebuildAt(StoreAt(e, depth), name, depth);
            r.Typed? && r.kind == sdk.kind && r.errorData == DataOf(e) &&
            r.name == (if depth == 0 && sdk.kind == ChildContext then name else "") &&
            r.message == WithDefault(sdk.kind, sdk.message) && r.cause.Some? &&
            r.stackTrace == (if sdk.stackTrace != [] then sdk.stackTrace else HeadTrace(e))
  {
    StoringIsImage(e, depth);
    TypedShape(StoreAt(e, depth), name, depth);
  }

  /** A level with a cause is rebuilt around the rebuilt cause. */
  lemma CauseLevelKept(e: Err, name: string, depth: nat, c: Err)
    requires depth + 1 < MAX_DEPTH && Strip(e).Typed? && IsTyped(Strip(e).kind) && Strip(e).cause == Some(c)
    ensures var r := RebuildAt(StoreAt(e, depth), name, depth);
            r.Typed? && r.recordedType == StoreAt(c, depth + 1).errType &&
            r.cause == Some(Moved(Strip(e).kind, RebuildAt(StoreAt(c, depth + 1), "", depth + 1)))
  {
    StoringIsImage(e, depth);
    TypedShape(StoreAt(e, depth), name, depth);
    assert StoreAt(e, depth).cause == StoreCause(Some(c), depth + 1) == Some(StoreAt(c, depth + 1));
  }

  /** An error that is not an SDK type comes back as a stand-in of its type, text and payload, or as a sentinel. */
  lemma PlainLevelKept(e: Err, name: string, depth: nat)
    requires depth < MAX_DEPTH && (Strip(e).User? || Strip(e).StandIn?)
    requires var t := if Strip(e).User? then Strip(e).typeName else Strip(e).errType; SdkKind(t).None?
    ensures var u, r := Strip(e), RebuildAt(StoreAt(e, depth), name, depth);
            var t := if u.User? then u.typeName else u.errType;
            var m := if u.User? then u.text else u.message;
            (r.Sentinel? ==>
               t in {Plain, Empty} && m == SentinelText(r.which) && DataOf(e) == "" && HeadTrace(e) == []) &&
            (!r.Sentinel? ==>
               Strip(r).StandIn? && Strip(r).message == m && Strip(r).errType == (if t.Empty? then Plain else t) &&
               HeadTrace(r) == HeadTrace(e) && (DataOf(e) != "" ==> DataOf(r) == DataOf(e)))
  {
    StoringIsImage(e, depth);
    var o := StoreAt(e, depth);
    if SentinelFor(o).None? {
      StandInShape(o, name, depth);
      WrappedParts(StandIn(o.errType, o.message, CauseOf(o, depth)), o.data, o.trace);
    }
  }

  /** A serializer failure and an error that only keeps a text come back as what they were. */
  lemma OtherLevelKept(e: Err, name: string, depth: nat)
    requires depth < MAX_DEPTH
    requires Strip(e).SerdesErr? || (Strip(e).Note? && IsNote(Strip(e).kind)) || (e.Sentinel? && depth > 0)
    ensures var r := RebuildAt(StoreAt(e, depth), name, depth);
            match Strip(e)
            case SerdesErr(_, _, _) => r.SerdesErr?
            case Note(k, _, _, _, _) => r.Note? && r.kind == k && r.recorded == Text(Strip(e))
            case _ => r == e
  {
    StoringIsImage(e, depth);
    var o := StoreAt(e, depth);
    if Strip(e).SerdesErr? {
      SerdesShape(o, name, depth);
    } else if Strip(e).Note? {
      NoteShape(o, name, depth);
    }
  }

  // ----- the normalized error -----

  lemma InnerIsTyped(k: Kind, message: string, m: Meta)
    requires k == Step || k == WaitForCondition || k == Callback || k == CallbackExternal || k == CallbackTimeout ||
             k == CallbackSubmitter || k == Serdes
    ensures var x := InnerError(Known(k), message, m);
            Strip(x) == x && if k.Serdes? then x.SerdesErr? else x.Typed? && x.kind == k && IsTyped(k)
  {
  }

  lemma InnerSurvives(k: Kind, message: string, m: Meta)
    requires k == Step || k == WaitForCondition || k == Callback || k == CallbackExternal || k == CallbackTimeout ||
             k == CallbackSubmitter || k == Serdes
    ensures var o := StoreAt(InnerError(Known(k), message, m), 1);
            var y := RebuildAt(o, "", 1);
            o.errType == Known(k) && if k.Serdes? then y.SerdesErr? else y.Typed? && y.kind == k
  {
    var x := InnerError(Known(k), message, m);
    InnerIsTyped(k, message, m);
    if k.Serdes? {
      OtherLevelKept(x, "", 1);
    } else {
      TypedLevelKept(x, "", 1);
    }
  }

  lemma ItemLevelKept(r: Err, itemName: string, x: Err)
    requires r.Typed? && r.kind == ChildContext && r.cause == Some(x)
    ensures var n := Normalize(r, itemName); var o := StoreAt(x, 1);
            n.Typed? && n.kind == ChildContext && n.name == itemName && n.message == r.message &&
            n.recordedType == o.errType && n.cause == Some(RebuildAt(o, "", 1))
  {
    assert Strip(r) == r;
    TypedLevelKept(r, itemName, 0);
    CauseLevelKept(r, itemName, 0, x);
  }

  /** After it was stored and rebuilt, the reported error still wraps an error of the body's type. */
  lemma KindSurvives(e: Err, sdk: Err, itemName: string, trace: Trace)
    requires Finds(e, sdk) && Wrapper(sdk)
    ensures var n := Normalize(LiveItemError(itemName, e, trace), itemName);
            n.Typed? && n.kind == ChildContext && n.name == itemName && n.message == Text(e) && n.cause.Some? &&
            n.recordedType == Known(KindFound(sdk)) &&
            if sdk.SerdesErr? then n.cause.value.SerdesErr?
            else n.cause.value.Typed? && n.cause.value.kind == sdk.kind
  {
    var m := ReportedIs(e, sdk, itemName, trace);
    InnerSurvives(KindFound(sdk), Text(e), m);
    ItemLevelKept(LiveItemError(itemName, e, trace), itemName, InnerError(Known(KindFound(sdk)), Text(e), m));
  }

  /** So is a callback's timeout, unless the recorded cause is of an SDK type that keeps no cause. */
  lemma TimeoutSurvives(e: Err, sdk: Err, itemName: string, trace: Trace)
    requires Finds(e, sdk) && sdk.Typed? && (sdk.kind.CallbackTimeout? || sdk.kind.Callback?) && Is(e, CallbackTimedOut)
    requires sdk.cause.Some? ==> !Drops(WireTypeOf(sdk.cause.value))
    ensures Is(Normalize(LiveItemError(itemName, e, trace), itemName), CallbackTimedOut)
  {
    var m := ReportedIs(e, sdk, itemName, trace);
    var r := LiveItemError(itemName, e, trace);
    var x := InnerError(Known(sdk.kind), Text(e), m);
    assert x.Typed? && x.cause == Some(StandIn(x.recordedType, x.message, Some(Sentinel(CallbackTimedOut))));
    TimeoutIsVisible(x, 1);
    assert Strip(r) == r;
    SentinelSurvives(r, CallbackTimedOut, itemName);
  }

  lemma TimeoutIsVisible(x: Err, depth: nat)
    requires depth + 2 < MAX_DEPTH && x.Typed? && IsTyped(x.kind) && !Drops(x.recordedType)
    requires x.cause == Some(StandIn(x.recordedType, x.message, Some(Sentinel(CallbackTimedOut))))
    ensures Visible(x, CallbackTimedOut, depth)
  {
    var s := Sentinel(CallbackTimedOut);
    assert Strip(s) == s && Visible(s, CallbackTimedOut, depth + 2);
    assert Strip(x.cause.value) == x.cause.value && Visible(x.cause.value, CallbackTimedOut, depth + 1);
    assert Strip(x) == x;
  }
}
