/**
  When a stored error reaches a fixpoint: storing and rebuilding the rebuilt error gives the rebuilt error again.

  The first run reports an item's error rebuilt from its stored form and stores that; replay rebuilds from what was
  stored, so first run and replay report equal errors exactly at a fixpoint.
 */
module ErrorFixpoint {
  import opened ErrorChain

  // ----- what storing produces -----

  /** Levels within the bound, types named, payloads bounded. */
  ghost predicate Image(o: Stored, depth: nat)
    decreases o
  {
    depth < MAX_DEPTH && !o.errType.Empty? && |o.data| <= MAX_DATA_BYTES &&
    (o.cause.Some? ==> Image(o.cause.value, depth + 1))
  }

  lemma CutIsBounded(s: string)
    ensures |CutData(s)| <= MAX_DATA_BYTES
  {
  }

  lemma {:induction false} DataIsBounded(e: Err)
    ensures |DataOf(e)| <= MAX_DATA_BYTES
    decreases e
  {
    match e
    case Sentinel(_) =>
    case StandIn(_, _, s) => if s.Some? { DataIsBounded(s.value); }
    case WithData(inner, d) => CutIsBounded(d); DataIsBounded(inner);
    case WithTrace(inner, _) => DataIsBounded(inner);
    case Typed(_, _, _, _, _, d, _, cause) =>
      CutIsBounded(d);
      if cause.Some? { DataIsBounded(cause.value); }
    case Note(_, _, _, _, errors) => FirstDataIsBounded(errors);
    case SerdesErr(_, _, inner) => if inner.Some? { DataIsBounded(inner.value); }
    case User(_, _, wrapped) => if wrapped.Some? { DataIsBounded(wrapped.value); }
  }

  lemma {:induction false} FirstDataIsBounded(errors: seq<Err>)
    ensures |FirstData(errors)| <= MAX_DATA_BYTES
    decreases errors
  {
    if errors != [] {
      DataIsBounded(errors[0]);
      FirstDataIsBounded(errors[1..]);
    }
  }

  lemma {:induction false} StoringIsImage(e: Err, depth: nat)
    requires depth < MAX_DEPTH
    ensures Image(StoreAt(e, depth), depth)
    decreases MAX_DEPTH - depth
  {
    DataIsBounded(e);
    var o := StoreAt(e, depth);
    var cause := match Strip(e)
      case StandIn(_, _, s) => s
      case Typed(_, _, _, _, _, _, _, c) => c
      case SerdesErr(_, _, inner) => inner
      case User(_, _, wrapped) => wrapped
      case _ => None;
    assert o.cause == StoreCause(cause, depth + 1);
    if cause.Some? && depth + 1 < MAX_DEPTH {
      StoringIsImage(cause.value, depth + 1);
    }
  }

  // ----- the condition -----

  /** The payload a rebuilt level reports. */
  function Payload(o: Stored): string {
    var k := SdkKind(o.errType);
    if k.Some? && IsNote(k.value) then ""
    else if o.data != "" && !(k.Some? && k.value.Serdes?) then o.data
    else if o.cause.Some? then Payload(o.cause.value)
    else ""
  }

  /**
    Checked on the stored form, level by level: a level that rebuilds with an Err of its own has a stored cause,
    a level that rebuilds from its text has one, no recorded ErrorType is an older callback timeout name, and no
    level lost the payload of a level below it.
   */
  predicate Stable(o: Stored, depth: nat)
    decreases o
  {
    var k := SdkKind(o.errType);
    if k.Some? && IsNote(k.value) then
      o.message != "" && (k.value.Combinator? || k.value.Batch? ==> o.cause.None? || o.cause.value.errType == o.errType)
    else
      (o.cause.Some? ==> Stable(o.cause.value, depth + 1)) &&
      (k.Some? ==> o.cause.Some? || (depth == MAX_DEPTH - 1 && IsTyped(k.value) && !Legacy(o.errType))) &&
      (k.Some? && IsTyped(k.value) && o.cause.Some? ==> !Legacy(o.cause.value.errType)) &&
      (!(k.Some? && k.value.Serdes?) && o.cause.Some? && o.data == "" ==> Payload(o.cause.value) == "")
  }

  ghost predicate Fixed(o: Stored, name: string, depth: nat)
    requires depth < MAX_DEPTH
  {
    RebuildAt(StoreAt(RebuildAt(o, name, depth), depth), name, depth) == RebuildAt(o, name, depth)
  }

  // ----- one level at a time -----

  function CauseOf(o: Stored, depth: nat): Option<Err> {
    if o.cause.Some? && depth + 1 < MAX_DEPTH then Some(RebuildAt(o.cause.value, "", depth + 1)) else None
  }

  lemma WrappedParts(leaf: Err, data: string, trace: Trace)
    requires !leaf.WithData? && !leaf.WithTrace? && |data| <= MAX_DATA_BYTES
    ensures Strip(Wrapped(leaf, data, trace)) == leaf && HeadTrace(Wrapped(leaf, data, trace)) == trace
    ensures DataOf(Wrapped(leaf, data, trace)) == if data != "" then data else DataOf(leaf)
  {
    var d := if data != "" then WithData(leaf, data) else leaf;
    assert Strip(d) == leaf && HeadTrace(d) == [];
    assert DataOf(d) == if data != "" then data else DataOf(leaf);
  }

  /** A callback timeout's cause carries the timeout sentinel when it is a stand-in without one. */
  function Moved(k: Kind, c: Err): Err {
    if k.CallbackTimeout? && c.StandIn? && c.sentinel.None? then c.(sentinel := Some(Sentinel(CallbackTimedOut))) else c
  }

  function Leaf(k: Kind, t: WireType, message: string): Err {
    StandIn(t, message, if k.CallbackTimeout? then Some(Sentinel(CallbackTimedOut)) else None)
  }

  predicate IsTypedLevel(o: Stored) {
    SdkKind(o.errType).Some? && IsTyped(SdkKind(o.errType).value)
  }

  function InnerType(o: Stored): WireType {
    if o.cause.Some? then o.cause.value.errType else o.errType
  }

  lemma TypedShape(o: Stored, name: string, depth: nat)
    requires Image(o, depth) && IsTypedLevel(o)
    ensures var k := SdkKind(o.errType).value; var text := WithDefault(k, o.message); var c := CauseOf(o, depth);
            RebuildAt(o, name, depth) ==
            Typed(k, if depth == 0 && o.errType == Known(ChildContext) then name else "",
                  k.CallbackTimeout? && (InnerType(o).LegacyHeartbeat? || MentionsHeartbeat(text)), InnerType(o), text,
                  o.data, o.trace, Some(if c.Some? then Moved(k, c.value) else Leaf(k, o.errType, text)))
  {
    var k := SdkKind(o.errType).value;
    var nm := if depth == 0 && o.errType == Known(ChildContext) then name else "";
    assert Image(o, depth) ==> !InnerType(o).Empty?;
    var e := Rebuilt(o.errType, nm, InnerType(o), o.message, o.data, o.trace);
    assert e == Reconstruct(o.errType, nm, InnerType(o), o.message, o.data, o.trace);
    assert RebuildAt(o, name, depth) == if CauseOf(o, depth).Some? then SetCause(e, CauseOf(o, depth).value) else e;
  }

  lemma NoteShape(o: Stored, name: string, depth: nat)
    requires Image(o, depth) && SdkKind(o.errType).Some? && IsNote(SdkKind(o.errType).value)
    ensures var k := SdkKind(o.errType).value;
            RebuildAt(o, name, depth) ==
            Note(k, "", o.message, ZeroText(k),
                 if k.Combinator? || k.Batch?
                 then [InnerOf(o.errType, "", InnerType(o), o.message, o.data, o.trace)] else [])
  {
    var e := Rebuilt(o.errType, "", InnerType(o), o.message, o.data, o.trace);
    assert e == Reconstruct(o.errType, "", InnerType(o), o.message, o.data, o.trace);
    assert RebuildAt(o, name, depth) == if CauseOf(o, depth).Some? then SetCause(e, CauseOf(o, depth).value) else e;
  }

  lemma SerdesShape(o: Stored, name: string, depth: nat)
    requires Image(o, depth) && o.errType == Known(Serdes)
    ensures RebuildAt(o, name, depth) ==
            SerdesErr("", "", Some(if CauseOf(o, depth).Some? then CauseOf(o, depth).value
                                   else StandIn(Known(Serdes), o.message, None)))
  {
    var e := Rebuilt(o.errType, "", InnerType(o), o.message, o.data, o.trace);
    assert e == Reconstruct(o.errType, "", InnerType(o), o.message, o.data, o.trace);
    assert RebuildAt(o, name, depth) == if CauseOf(o, depth).Some? then SetCause(e, CauseOf(o, depth).value) else e;
  }

  lemma StandInShape(o: Stored, name: string, depth: nat)
    requires Image(o, depth) && SdkKind(o.errType).None? && SentinelFor(o).None?
    ensures var leaf := StandIn(o.errType, o.message, CauseOf(o, depth));
            RebuildAt(o, name, depth) == Wrapped(leaf, o.data, o.trace)
    ensures var r := RebuildAt(o, name, depth);
            StoreAt(r, depth) == Stored(o.errType, o.message, DataOf(r), o.trace,
                                        StoreCause(CauseOf(o, depth), depth + 1))
  {
    WrappedParts(StandIn(o.errType, o.message, CauseOf(o, depth)), o.data, o.trace);
  }

  lemma OnePayload(e: Err)
    ensures FirstData([e]) == DataOf(e)
  {
    assert [e][1..] == [];
  }

  lemma {:induction false} PayloadIsReported(o: Stored, name: string, depth: nat)
    requires Image(o, depth) && Stable(o, depth)
    ensures DataOf(RebuildAt(o, name, depth)) == Payload(o)
    decreases o
  {
    var k := SdkKind(o.errType);
    var c := CauseOf(o, depth);
    if k.Some? && IsNote(k.value) {
      NoteShape(o, name, depth);
      OnePayload(StandIn(o.errType, o.message, None));
    } else {
      if o.cause.Some? {
        PayloadIsReported(o.cause.value, "", depth + 1);
        assert c.Some? && DataOf(c.value) == Payload(o.cause.value);
      }
      if k.None? {
        if SentinelFor(o).None? {
          WrappedParts(StandIn(o.errType, o.message, c), o.data, o.trace);
        }
      } else if IsTyped(k.value) {
        TypedShape(o, name, depth);
        assert c.Some? ==> DataOf(Moved(k.value, c.value)) == DataOf(c.value);
        assert DataOf(Leaf(k.value, o.errType, WithDefault(k.value, o.message))) == "";
      } else {
        SerdesShape(o, name, depth);
      }
    }
  }

  ghost predicate CauseSettled(o: Stored, depth: nat) {
    o.cause.Some? && depth + 1 < MAX_DEPTH ==>
      (Fixed(o.cause.value, "", depth + 1) <==> Stable(o.cause.value, depth + 1))
  }

  lemma StandInFixed(o: Stored, name: string, depth: nat)
    requires Image(o, depth) && SdkKind(o.errType).None? && CauseSettled(o, depth)
    ensures Fixed(o, name, depth) <==> Stable(o, depth)
  {
    if SentinelFor(o).None? {
      var r := RebuildAt(o, name, depth);
      StandInShape(o, name, depth);
      var t := StoreAt(r, depth);
      var leaf := StandIn(o.errType, o.message, CauseOf(o, depth));
      var again := StandIn(o.errType, o.message, CauseOf(t, depth));
      WrappedParts(leaf, o.data, o.trace);
      assert RebuildAt(t, name, depth) == Wrapped(again, t.data, o.trace);
      SameWrapping(leaf, o.data, again, t.data, o.trace);
      if o.cause.Some? && Stable(o.cause.value, depth + 1) {
        PayloadIsReported(o.cause.value, "", depth + 1);
      }
    }
  }

  lemma SameWrapping(a: Err, da: string, b: Err, db: string, trace: Trace)
    requires a.StandIn? && b.StandIn?
    ensures Wrapped(a, da, trace) == Wrapped(b, db, trace) <==> a == b && da == db
  {
  }

  lemma NoteFixed(o: Stored, name: string, depth: nat)
    requires Image(o, depth) && SdkKind(o.errType).Some? && IsNote(SdkKind(o.errType).value)
    ensures Fixed(o, name, depth) <==> Stable(o, depth)
  {
    var k := SdkKind(o.errType).value;
    var r := RebuildAt(o, name, depth);
    NoteShape(o, name, depth);
    var t := StoreAt(r, depth);
    assert t == Stored(Known(k), Text(r), DataOf(r), [], None);
    DataIsBounded(r);
    NoteShape(t, name, depth);
    assert o.errType == Known(k);
  }

  lemma SerdesFixed(o: Stored, name: string, depth: nat)
    requires Image(o, depth) && o.errType == Known(Serdes) && CauseSettled(o, depth)
    ensures Fixed(o, name, depth) <==> Stable(o, depth)
  {
    var r := RebuildAt(o, name, depth);
    SerdesShape(o, name, depth);
    var t := StoreAt(r, depth);
    assert t == Stored(Known(Serdes), Text(r), DataOf(r), [], StoreCause(r.inner, depth + 1));
    StoringIsImage(r, depth);
    SerdesShape(t, name, depth);
    if o.cause.None? {
      assert |Text(r)| > |o.message|;
      if depth + 1 < MAX_DEPTH {
        var leaf := StandIn(Known(Serdes), o.message, None);
        assert t.cause == Some(StoreAt(leaf, depth + 1));
        assert t.cause.value.errType == Known(Serdes);
        SerdesShape(t.cause.value, "", depth + 1);
      }
    }
  }

  // ----- typed levels -----

  /** A level that rebuilds to a bare stand-in carries nothing else. */
  lemma BareStandIn(c: Stored, depth: nat)
    requires Image(c, depth) && RebuildAt(c, "", depth).StandIn?
    ensures SdkKind(c.errType).None? && SentinelFor(c).None? && c.data == "" && c.trace == []
    ensures RebuildAt(c, "", depth) == StandIn(c.errType, c.message, CauseOf(c, depth))
  {
    var k := SdkKind(c.errType);
    if k.Some? {
      if IsTyped(k.value) {
        TypedShape(c, "", depth);
      } else if IsNote(k.value) {
        NoteShape(c, "", depth);
      } else {
        SerdesShape(c, "", depth);
      }
    } else if SentinelFor(c).None? {
      StandInShape(c, "", depth);
    }
  }

  lemma MovedStandIn(c: Stored, depth: nat)
    requires Image(c, depth) && RebuildAt(c, "", depth).StandIn? && RebuildAt(c, "", depth).sentinel.None?
    ensures var x := RebuildAt(c, "", depth).(sentinel := Some(Sentinel(CallbackTimedOut)));
            var y := RebuildAt(StoreAt(x, depth), "", depth);
            (y == x || y == RebuildAt(c, "", depth)) && StoreAt(x, depth).errType == c.errType
    ensures Fixed(c, "", depth)
  {
    BareStandIn(c, depth);
    StandInFixed(c, "", depth);
    var x := RebuildAt(c, "", depth).(sentinel := Some(Sentinel(CallbackTimedOut)));
    var again := StoreAt(x, depth);
    assert again == Stored(c.errType, c.message, "", [], StoreCause(x.sentinel, depth + 1));
    if depth + 1 < MAX_DEPTH {
      var low := StoreAt(Sentinel(CallbackTimedOut), depth + 1);
      assert low == Stored(Plain, SentinelText(CallbackTimedOut), "", [], None);
      assert RebuildAt(low, "", depth + 1) == Sentinel(CallbackTimedOut);
      assert SentinelFor(again).None? && again.cause == Some(low);
    }
  }

  lemma SentinelStays(c: Stored, depth: nat)
    requires Image(c, depth) && RebuildAt(c, "", depth).StandIn? && RebuildAt(c, "", depth).sentinel.Some?
    ensures var y := RebuildAt(StoreAt(RebuildAt(c, "", depth), depth), "", depth);
            y.StandIn? ==> y.sentinel.Some?
  {
    BareStandIn(c, depth);
    StandInShape(c, "", depth);
    var t := StoreAt(RebuildAt(c, "", depth), depth);
    assert t.cause.Some? && SentinelFor(t).None?;
    assert RebuildAt(t, "", depth) == Wrapped(StandIn(t.errType, t.message, CauseOf(t, depth)), t.data, t.trace);
  }

  /** Moving the timeout sentinel to a rebuilt cause survives storing it. */
  lemma MovedFixed(k: Kind, c: Stored, depth: nat)
    requires Image(c, depth)
    ensures var x := RebuildAt(c, "", depth); var again := StoreAt(Moved(k, x), depth);
            (Moved(k, RebuildAt(again, "", depth)) == Moved(k, x) <==> Fixed(c, "", depth)) &&
            (SdkKind(c.errType).None? ==> again.errType == c.errType)
  {
    var x := RebuildAt(c, "", depth);
    if Moved(k, x) != x {
      MovedStandIn(c, depth);
    } else {
      if x.StandIn? && x.sentinel.Some? {
        SentinelStays(c, depth);
      }
      if SdkKind(c.errType).None? && SentinelFor(c).None? {
        StandInShape(c, "", depth);
      }
    }
  }

  /** The name a rebuilt level is stored under again: an older timeout name becomes the current one. */
  lemma StoredAgainAs(k: Kind, c: Stored, depth: nat)
    requires Image(c, depth)
    ensures StoreAt(Moved(k, RebuildAt(c, "", depth)), depth).errType ==
            if SdkKind(c.errType).Some? then Known(SdkKind(c.errType).value) else c.errType
  {
    var kind := SdkKind(c.errType);
    if kind.None? {
      MovedFixed(k, c, depth);
    } else if IsTyped(kind.value) {
      TypedShape(c, "", depth);
    } else if IsNote(kind.value) {
      NoteShape(c, "", depth);
    } else {
      SerdesShape(c, "", depth);
    }
  }

  lemma TypedStoredAgain(o: Stored, name: string, depth: nat)
    requires Image(o, depth) && IsTypedLevel(o) && o.cause.Some? && depth + 1 < MAX_DEPTH
    ensures var k := SdkKind(o.errType).value; var x := Moved(k, RebuildAt(o.cause.value, "", depth + 1));
            var r := RebuildAt(o, name, depth);
            StoreAt(r, depth) ==
            Stored(Known(k), WithDefault(k, o.message),
                   if o.data != "" then o.data else DataOf(RebuildAt(o.cause.value, "", depth + 1)), o.trace,
                   Some(StoreAt(x, depth + 1)))
  {
    var k := SdkKind(o.errType).value;
    var r := RebuildAt(o, name, depth);
    TypedShape(o, name, depth);
    assert Strip(r) == r && HeadTrace(r) == [];
    var x := RebuildAt(o.cause.value, "", depth + 1);
    assert DataOf(Moved(k, x)) == DataOf(x);
    assert StoreCause(r.cause, depth + 1) == Some(StoreAt(Moved(k, x), depth + 1));
  }

  /** Two typed levels of one kind rebuilt under the same name are equal when these parts are. */
  lemma TypedEqual(o: Stored, t: Stored, name: string, depth: nat)
    requires Image(o, depth) && Image(t, depth) && IsTypedLevel(o) && SdkKind(t.errType) == SdkKind(o.errType)
    requires o.cause.Some? && t.cause.Some? && depth + 1 < MAX_DEPTH
    requires t.message == WithDefault(SdkKind(o.errType).value, o.message) && t.trace == o.trace
    requires o.errType == Known(ChildContext) <==> t.errType == Known(ChildContext)
    ensures var k := SdkKind(o.errType).value;
            RebuildAt(t, name, depth) == RebuildAt(o, name, depth) <==>
            t.cause.value.errType == o.cause.value.errType && t.data == o.data &&
            Moved(k, RebuildAt(t.cause.value, "", depth + 1)) == Moved(k, RebuildAt(o.cause.value, "", depth + 1))
  {
    TypedShape(o, name, depth);
    TypedShape(t, name, depth);
  }

  lemma TypedFixedParts(o: Stored, name: string, depth: nat)
    requires Image(o, depth) && IsTypedLevel(o) && o.cause.Some? && depth + 1 < MAX_DEPTH
    ensures var x := Moved(SdkKind(o.errType).value, RebuildAt(o.cause.value, "", depth + 1));
            var again := StoreAt(x, depth + 1);
            Fixed(o, name, depth) <==>
            again.errType == o.cause.value.errType &&
            (o.data != "" || DataOf(RebuildAt(o.cause.value, "", depth + 1)) == "") &&
            Moved(SdkKind(o.errType).value, RebuildAt(again, "", depth + 1)) == x
  {
    TypedStoredAgain(o, name, depth);
    var t := StoreAt(RebuildAt(o, name, depth), depth);
    StoringIsImage(RebuildAt(o, name, depth), depth);
    TypedEqual(o, t, name, depth);
  }

  /** A typed level is fixed when its cause is, its recorded type is current and its payload is its own. */
  lemma TypedIsFixedBy(o: Stored, name: string, depth: nat)
    requires Image(o, depth) && IsTypedLevel(o) && o.cause.Some? && depth + 1 < MAX_DEPTH
    ensures Fixed(o, name, depth) <==>
            Fixed(o.cause.value, "", depth + 1) && !Legacy(o.cause.value.errType) &&
            (o.data != "" || DataOf(RebuildAt(o.cause.value, "", depth + 1)) == "")
  {
    var k := SdkKind(o.errType).value;
    TypedFixedParts(o, name, depth);
    MovedFixed(k, o.cause.value, depth + 1);
    StoredAgainAs(k, o.cause.value, depth + 1);
  }

  lemma TypedWithCauseFixed(o: Stored, name: string, depth: nat)
    requires Image(o, depth) && IsTypedLevel(o) && o.cause.Some? && CauseSettled(o, depth)
    ensures Fixed(o, name, depth) <==> Stable(o, depth)
  {
    TypedIsFixedBy(o, name, depth);
    if Stable(o.cause.value, depth + 1) {
      PayloadIsReported(o.cause.value, "", depth + 1);
    }
  }

  lemma TypedLeafFixed(o: Stored, name: string, depth: nat)
    requires Image(o, depth) && IsTypedLevel(o) && o.cause.None?
    ensures Fixed(o, name, depth) <==> Stable(o, depth)
  {
    var k := SdkKind(o.errType).value;
    var r := RebuildAt(o, name, depth);
    TypedShape(o, name, depth);
    var t := StoreAt(r, depth);
    assert Strip(r) == r && DataOf(Leaf(k, o.errType, r.message)) == "" && DataOf(r) == o.data;
    assert t == Stored(Known(k), r.message, o.data, o.trace, StoreCause(r.cause, depth + 1));
    StoringIsImage(r, depth);
    TypedShape(t, name, depth);
    if depth + 1 < MAX_DEPTH {
      assert t.cause == Some(StoreAt(r.cause.value, depth + 1)) && t.cause.value.errType == o.errType;
      TypedShape(t.cause.value, "", depth + 1);
    }
  }

  // ----- the theorem -----

  lemma {:induction false} FixedIffStable(o: Stored, name: string, depth: nat)
    requires Image(o, depth)
    ensures Fixed(o, name, depth) <==> Stable(o, depth)
    decreases o
  {
    if o.cause.Some? {
      FixedIffStable(o.cause.value, "", depth + 1);
    }
    var k := SdkKind(o.errType);
    if k.None? {
      StandInFixed(o, name, depth);
    } else if IsNote(k.value) {
      NoteFixed(o, name, depth);
    } else if k.value.Serdes? {
      SerdesFixed(o, name, depth);
    } else if o.cause.Some? {
      TypedWithCauseFixed(o, name, depth);
    } else {
      TypedLeafFixed(o, name, depth);
    }
  }

  /** The first run and replay report equal item errors exactly when the stored form is stable. */
  lemma LiveEqualsReplayIff(e: Err, itemName: string)
    ensures Normalize(Normalize(e, itemName), itemName) == Normalize(e, itemName) <==> Stable(Store(e), 0)
  {
    StoringIsImage(e, 0);
    FixedIffStable(Store(e), itemName, 0);
  }

  // ----- sentinels and the bound -----

  function Levels(o: Stored): nat {
    1 + if o.cause.Some? then Levels(o.cause.value) else 0
  }

  lemma {:induction false} ImageIsBounded(o: Stored, depth: nat)
    requires Image(o, depth)
    ensures Levels(o) <= MAX_DEPTH - depth
    decreases o
  {
    if o.cause.Some? {
      ImageIsBounded(o.cause.value, depth + 1);
    }
  }

  /** Whatever the chain, at most 32 levels are stored. */
  lemma StoredLevelsBounded(e: Err)
    ensures Levels(Store(e)) <= MAX_DEPTH
  {
    StoringIsImage(e, 0);
    ImageIsBounded(Store(e), 0);
  }

  /** errors.Is for a sentinel, along single causes. */
  predicate Is(e: Err, s: SentinelKind) {
    match e
    case Sentinel(w) => w == s
    case StandIn(_, _, c) => c.Some? && Is(c.value, s)
    case WithData(inner, _) => Is(inner, s)
    case WithTrace(inner, _) => Is(inner, s)
    case Typed(_, _, _, _, _, _, _, c) => c.Some? && Is(c.value, s)
    case Note(_, _, _, _, _) => false
    case SerdesErr(_, _, c) => c.Some? && Is(c.value, s)
    case User(_, _, c) => c.Some? && Is(c.value, s)
  }

  predicate Drops(t: WireType) {
    SdkKind(t).Some? && IsNote(SdkKind(t).value)
  }

  /** The stored chain ends in the sentinel and no level drops its cause. */
  predicate EndsIn(o: Stored, s: SentinelKind)
    decreases o
  {
    !Drops(o.errType) &&
    if o.cause.Some? then EndsIn(o.cause.value, s) else SdkKind(o.errType).None? && SentinelFor(o) == Some(s)
  }

  lemma {:induction false} RebuildKeepsSentinel(o: Stored, name: string, depth: nat, s: SentinelKind)
    requires Image(o, depth) && EndsIn(o, s)
    ensures Is(RebuildAt(o, name, depth), s)
    decreases o
  {
    if o.cause.Some? {
      RebuildKeepsSentinel(o.cause.value, "", depth + 1, s);
      var k := SdkKind(o.errType);
      if k.None? {
        var leaf := StandIn(o.errType, o.message, CauseOf(o, depth));
        StandInShape(o, name, depth);
        assert Is(leaf, s) && Is(if o.data != "" then WithData(leaf, o.data) else leaf, s);
      } else if IsTyped(k.value) {
        TypedShape(o, name, depth);
      } else {
        SerdesShape(o, name, depth);
      }
    }
  }

  /** What is stored of an error that matches a sentinel ends in it, unless a level cannot store it. */
  predicate Visible(e: Err, s: SentinelKind, depth: nat)
    decreases MAX_DEPTH - depth
  {
    depth < MAX_DEPTH &&
    match Strip(e)
    case Sentinel(w) => w == s && DataOf(e) == "" && HeadTrace(e) == []
    case StandIn(t, _, c) => !Drops(t) && c.Some? && Visible(c.value, s, depth + 1)
    case Typed(k, _, _, _, _, _, _, c) => IsTyped(k) && c.Some? && Visible(c.value, s, depth + 1)
    case SerdesErr(_, _, c) => c.Some? && Visible(c.value, s, depth + 1)
    case User(t, _, c) => !Drops(t) && c.Some? && Visible(c.value, s, depth + 1)
    case _ => false
  }

  /** The error a level stores as its cause. */
  function StoredBelow(e: Err): Option<Err> {
    match Strip(e)
    case StandIn(_, _, c) => c
    case Typed(_, _, _, _, _, _, _, c) => c
    case SerdesErr(_, _, c) => c
    case User(_, _, c) => c
    case _ => None
  }

  lemma EndsBelow(e: Err, s: SentinelKind, depth: nat)
    requires depth + 1 < MAX_DEPTH && Visible(e, s, depth) && StoredBelow(e).Some?
    requires EndsIn(StoreAt(StoredBelow(e).value, depth + 1), s)
    ensures EndsIn(StoreAt(e, depth), s)
  {
    assert StoreAt(e, depth).cause == StoreCause(StoredBelow(e), depth + 1);
  }

  lemma {:induction false} VisibleIsStored(e: Err, s: SentinelKind, depth: nat)
    requires depth < MAX_DEPTH && Visible(e, s, depth)
    ensures EndsIn(StoreAt(e, depth), s)
    decreases MAX_DEPTH - depth
  {
    if StoredBelow(e).Some? {
      VisibleIsStored(StoredBelow(e).value, s, depth + 1);
      EndsBelow(e, s, depth);
    }
  }

  /** A visible sentinel still matches after a rebuild. */
  lemma SentinelSurvives(e: Err, s: SentinelKind, itemName: string)
    requires Visible(e, s, 0)
    ensures Is(Normalize(e, itemName), s)
  {
    StoringIsImage(e, 0);
    VisibleIsStored(e, s, 0);
    RebuildKeepsSentinel(Store(e), itemName, 0, s);
  }
}
