/** What becomes of an error's text, payload, trace and causes, read off the error itself. */
module ErrorContents {
  import opened Utf8
  import opened ErrorChain
  import opened ErrorFixpoint
  import opened ItemErrors
  import opened ErrorKinds

  // ----- payload and trace -----

  /** The payloads an error offers, in the order of its causes; one of its own hides those of its causes. */
  function Offered(e: Err): seq<string> {
    match e
    case Sentinel(_) => []
    case StandIn(_, _, c) => if c.Some? then Offered(c.value) else []
    case WithData(inner, d) => if d == "" then Offered(inner) else [Truncated(d, 262144)]
    case WithTrace(inner, _) => Offered(inner)
    case Typed(_, _, _, _, _, d, _, c) =>
      if d != "" then [Truncated(d, 262144)] else if c.Some? then Offered(c.value) else []
    case Note(_, _, _, _, errors) => OfferedByAll(errors)
    case SerdesErr(_, _, c) => if c.Some? then Offered(c.value) else []
    case User(_, _, c) => if c.Some? then Offered(c.value) else []
  }

  function OfferedByAll(errors: seq<Err>): seq<string> {
    if errors == [] then [] else Offered(errors[0]) + OfferedByAll(errors[1..])
  }

  ghost predicate IsFirst(all: seq<string>, d: string) {
    (d == "" && forall i :: 0 <= i < |all| ==> all[i] == "") ||
    exists i :: 0 <= i < |all| && all[i] == d && d != "" && forall j :: 0 <= j < i ==> all[j] == ""
  }

  lemma FirstOfTwo(a: seq<string>, b: seq<string>, d: string)
    requires if d == "" then IsFirst(a, "") && IsFirst(b, "") else IsFirst(a, d) || (IsFirst(a, "") && IsFirst(b, d))
    ensures IsFirst(a + b, d)
  {
    var both := a + b;
    if d != "" && IsFirst(a, d) {
      var i :| 0 <= i < |a| && a[i] == d && forall j :: 0 <= j < i ==> a[j] == "";
      assert both[i] == d && forall j :: 0 <= j < i ==> both[j] == "";
    } else if d != "" {
      var i :| 0 <= i < |b| && b[i] == d && forall j :: 0 <= j < i ==> b[j] == "";
      assert both[|a| + i] == d && forall j :: 0 <= j < |a| + i ==> both[j] == "";
    }
  }

  /** The payload that is stored is the first one offered, cut at 256 KiB where a rune begins. */
  lemma {:induction false} PayloadIsFirst(e: Err)
    ensures IsFirst(Offered(e), DataOf(e))
    decreases e
  {
    match e
    case Sentinel(_) =>
    case StandIn(_, _, c) => if c.Some? { PayloadIsFirst(c.value); }
    case WithData(inner, d) =>
      if d == "" {
        PayloadIsFirst(inner);
      } else {
        OwnIsFirst(Truncated(d, 262144));
      }
    case WithTrace(inner, _) => PayloadIsFirst(inner);
    case Typed(_, _, _, _, _, d, _, c) =>
      if d != "" {
        OwnIsFirst(Truncated(d, 262144));
      } else if c.Some? {
        PayloadIsFirst(c.value);
      }
    case Note(_, _, _, _, errors) => PayloadOfAll(errors);
    case SerdesErr(_, _, c) => if c.Some? { PayloadIsFirst(c.value); }
    case User(_, _, c) => if c.Some? { PayloadIsFirst(c.value); }
  }

  lemma OwnIsFirst(d: string)
    ensures IsFirst([d], d)
  {
    assert [d][0] == d;
  }

  lemma {:induction false} PayloadOfAll(errors: seq<Err>)
    ensures IsFirst(OfferedByAll(errors), FirstData(errors))
    decreases errors
  {
    if errors != [] {
      PayloadIsFirst(errors[0]);
      PayloadOfAll(errors[1..]);
      FirstOfTwo(Offered(errors[0]), OfferedByAll(errors[1..]), FirstData(errors));
    }
  }

  /** The traces around an error, outermost first. */
  function Around(e: Err): seq<Trace> {
    match e
    case WithData(inner, _) => Around(inner)
    case WithTrace(inner, trace) => [trace] + Around(inner)
    case _ => []
  }

  lemma {:induction false} TraceIsOutermost(e: Err)
    ensures HeadTrace(e) == if Around(e) == [] then [] else Around(e)[0]
    decreases e
  {
    match e
    case WithData(inner, _) => TraceIsOutermost(inner);
    case _ =>
  }

  // ----- levels -----

  /** How many errors the chain holds, not counting those that only carry a payload or a trace. */
  function ChainLength(e: Err): nat {
    match e
    case WithData(inner, _) => ChainLength(inner)
    case WithTrace(inner, _) => ChainLength(inner)
    case Sentinel(_) => 1
    case Note(_, _, _, _, _) => 1
    case StandIn(_, _, c) => if c.Some? then 1 + ChainLength(c.value) else 1
    case Typed(_, _, _, _, _, _, _, c) => if c.Some? then 1 + ChainLength(c.value) else 1
    case SerdesErr(_, _, c) => if c.Some? then 1 + ChainLength(c.value) else 1
    case User(_, _, c) => if c.Some? then 1 + ChainLength(c.value) else 1
  }

  lemma {:induction false} StrippedLength(e: Err)
    ensures ChainLength(e) == if CauseIn(Strip(e)).Some? then 1 + ChainLength(CauseIn(Strip(e)).value) else 1
    decreases e
  {
    match e
    case WithData(inner, _) => StrippedLength(inner);
    case WithTrace(inner, _) => StrippedLength(inner);
    case _ =>
  }

  lemma {:induction false} LevelsFrom(e: Err, depth: nat)
    requires depth < 32
    ensures Levels(StoreAt(e, depth)) == if ChainLength(e) <= 32 - depth then ChainLength(e) else 32 - depth
    decreases 32 - depth
  {
    StrippedLength(e);
    var c := CauseIn(Strip(e));
    assert StoreAt(e, depth).cause == StoreCause(c, depth + 1);
    if c.Some? && depth + 1 < 32 {
      LevelsFrom(c.value, depth + 1);
    }
  }

  /** Every error of the chain is stored as a level of its own, up to the 32nd. */
  lemma StoredLevelsAre(e: Err)
    ensures Levels(Store(e)) == if ChainLength(e) <= 32 then ChainLength(e) else 32
  {
    LevelsFrom(e, 0);
  }

  /** A stored form of which only the first `kept` causes are left. */
  function Shortened(o: Stored, kept: nat): Stored {
    if o.cause.None? then o
    else if kept == 0 then o.(cause := None)
    else o.(cause := Some(Shortened(o.cause.value, kept - 1)))
  }

  lemma {:induction false} RebuiltFromFirst(o: Stored, name: string, depth: nat)
    requires depth < 32
    ensures RebuildAt(Shortened(o, 32 - depth), name, depth) == RebuildAt(o, name, depth)
    decreases 32 - depth
  {
    if o.cause.Some? && depth + 1 < 32 {
      RebuiltFromFirst(o.cause.value, "", depth + 1);
    }
    assert SentinelFor(Shortened(o, 32 - depth)) == SentinelFor(o);
  }

  /** Whatever was stored, what lies beneath the 32nd level is not read, but for the type of the 33rd. */
  lemma DeepLevelsIgnored(o: Stored, name: string)
    ensures RebuildAt(Shortened(o, 32), name, 0) == RebuildAt(o, name, 0)
  {
    RebuiltFromFirst(o, name, 0);
  }

  // ----- texts -----

  lemma {:induction false} TextOfStripped(e: Err)
    ensures Text(e) == Text(Strip(e))
    decreases e
  {
    match e
    case WithData(inner, _) => TextOfStripped(inner);
    case WithTrace(inner, _) => TextOfStripped(inner);
    case _ =>
  }

  /** What is recorded of an error is its text, unless it is a stand-in that has a type. */
  lemma MessageIsTextIff(e: Err)
    ensures RecordedMessage(e) == Text(e) <==> !(Strip(e).StandIn? && !Strip(e).errType.Empty?)
  {
    TextOfStripped(e);
    var s := Strip(e);
    if s.StandIn? && !s.errType.Empty? {
      assert |Text(s)| == |TypeText(s.errType)| + 2 + |s.message|;
    }
  }

  // ----- the reported error -----

  /** The text says "heartbeat", in small letters, capitals or a mixture. */
  ghost predicate SaysHeartbeat(m: string) {
    exists i :: 0 <= i && i + 9 <= |m| && SaysHeartbeatAt(m, i)
  }

  ghost predicate SaysHeartbeatAt(m: string, i: nat)
    requires i + 9 <= |m|
  {
    forall j :: 0 <= j < 9 ==> m[i + j] == "heartbeat"[j] || m[i + j] == "HEARTBEAT"[j]
  }

  lemma HeartbeatIgnoresCase(m: string)
    ensures MentionsHeartbeat(m) <==> SaysHeartbeat(m)
  {
    forall i: nat | i + 9 <= |m| ensures HeartbeatAt(m, i) <==> SaysHeartbeatAt(m, i) {
      forall j | 0 <= j < 9
        ensures Lower(m[i + j]) == "heartbeat"[j] <==> m[i + j] == "heartbeat"[j] || m[i + j] == "HEARTBEAT"[j]
      {
        LowerIs(m[i + j], j);
      }
    }
  }

  lemma LowerIs(c: char, j: nat)
    requires j < 9
    ensures Lower(c) == "heartbeat"[j] <==> c == "heartbeat"[j] || c == "HEARTBEAT"[j]
  {
  }

  /** A reported timeout is one of a heartbeat exactly when the older heartbeat name or the word was recorded. */
  lemma HeartbeatIsReported(e: Err, sdk: Err, itemName: string, trace: Trace)
    requires Finds(e, sdk) && sdk.Typed? && Wrapper(sdk)
    ensures var x := LiveItemError(itemName, e, trace).cause;
            x.Some? && x.value.Typed? &&
            (x.value.heartbeat <==> sdk.kind.CallbackTimeout? &&
                                    (x.value.recordedType.LegacyHeartbeat? || SaysHeartbeat(x.value.message)))
  {
    var meta := ReportedIs(e, sdk, itemName, trace);
    HeartbeatIgnoresCase(LiveItemError(itemName, e, trace).cause.value.message);
  }

  /** Without an SDK error inside, an item's error takes the body's own type, text and payload. */
  lemma OwnTypeIsReported(e: Err, itemName: string, trace: Trace)
    requires Outermost(e).None?
    ensures var r, own := LiveItemError(itemName, e, trace), Strip(e);
            var t := if own.StandIn? then own.errType else if own.User? then own.typeName else Plain;
            r.Typed? && r.kind == ChildContext && r.name == itemName && r.recordedType == t && r.message == Text(e) &&
            r.errorData == DataOf(e) && r.stackTrace == trace && r.cause.Some? &&
            (SdkKind(t).None? ==> r.cause == Some(StandIn(t, Text(e), None)))
  {
    NotWrapped(e);
  }

  lemma {:induction false} NotWrapped(e: Err)
    requires Outermost(e).None?
    ensures !Strip(e).Typed? && !Strip(e).Note? && !Strip(e).SerdesErr?
    decreases e
  {
    match e
    case WithData(inner, _) => NotWrapped(inner);
    case WithTrace(inner, _) => NotWrapped(inner);
    case _ =>
  }
}
