/**
  A batch stored as its summary record, rebuilt from the records its items left in the log.

  Each item's body is a program of the replay model run in the item's own context, over any number of invocations. A
  NORMAL item leaves a record of its outcome; a FLAT item, and a NORMAL one whose result is too large, is run again.
 */
module BatchReplay {
  import opened Ids
  import opened ReplayModel
  import opened ReplaySoundness
  import opened ReplayHistories
  import opened ItemErrors
  import P = BatchPolicy
  import BatchIds
  import Errors = ErrorChain
  import Records = BatchRecords

  /** marshal is the item serdes; errorOf gives the error value behind a failure of the item's function. */
  datatype Batch<!V> = Batch(codec: Records.Codec<V>, marshal: Value -> P.Option<string>, body: nat -> Program,
                             errorOf: Failure -> Errors.Err, prefix: Id, base: nat, nesting: BatchIds.Nesting,
                             fuel: nat, world: World) {
    function IdOf(i: nat): Id {
      BatchIds.ItemId(prefix, base, nesting, i)
    }
  }

  /** The record of a NORMAL item's context; the operations beneath it, and those of FLAT items, are in the log. */
  datatype ItemRecord = Kept(bytes: string) | Oversized | FailedWith(failure: Record)

  // ----- the live run -----

  /** What the batch reports for an item whose body ended with o; None when its result cannot be encoded or decoded. */
  function LiveOutcome<V>(b: Batch<V>, i: nat, o: Outcome): P.Option<Records.ItemOutcome<V>> {
    match o
    case Ok(v) =>
      (match b.marshal(v)
       case None => P.None
       case Some(bytes) =>
         match b.codec.decode(bytes)
         case None => P.None
         case Some(value) => P.Some(Records.Resulted(bytes, value)))
    case Err(e) =>
      P.Some(Records.Errored(if b.nesting.Normal? then LiveItemError(b.codec.nameOf(i), b.errorOf(e), [])
                             else b.errorOf(e)))
  }

  /** What a NORMAL item records. */
  function Recorded<V>(b: Batch<V>, o: Outcome): P.Option<ItemRecord> {
    match o
    case Ok(v) =>
      (match b.marshal(v)
       case None => P.None
       case Some(bytes) => P.Some(if |bytes| <= CHECKPOINT_SIZE_LIMIT then Kept(bytes) else Oversized))
    case Err(e) => P.Some(FailedWith(ItemErrors.RecordOf(b.errorOf(e))))
  }

  /** A result within 256 KiB is kept, a longer one runs again, and a failure keeps the error's record. */
  lemma RecordedIff<V>(b: Batch<V>, o: Outcome, bytes: string)
    ensures Recorded(b, o) == P.Some(Kept(bytes)) <==>
            o.Ok? && b.marshal(o.value) == P.Some(bytes) && |bytes| <= 262144
    ensures Recorded(b, o) == P.Some(Oversized) <==>
            o.Ok? && exists long :: b.marshal(o.value) == P.Some(long) && |long| > 262144
    ensures o.Err? ==> Recorded(b, o) == P.Some(FailedWith(ItemErrors.RecordOf(b.errorOf(o.failure))))
  {
  }

  /** A NORMAL item reports its failure inside an item error of its name, a FLAT one as it is. */
  lemma FailureIsReported<V>(b: Batch<V>, i: nat, e: Failure, reported: Errors.Err)
    ensures LiveOutcome(b, i, Err(e)) == P.Some(Records.Errored(reported)) <==>
            (b.nesting == BatchIds.Normal && reported == LiveItemError(b.codec.nameOf(i), b.errorOf(e), [])) ||
            (b.nesting == BatchIds.Flat && reported == b.errorOf(e))
  {
  }

  function RunItem<V>(b: Batch<V>, i: nat, mode: Mode, inv: Invocation): Run {
    Exec(b.body(i), b.fuel, b.IdOf(i), 1, mode, inv)
  }

  /** Part of a run of the item reached the log; whatever else was written lies elsewhere. */
  ghost predicate RanTo<V>(b: Batch<V>, i: nat, mode: Mode, inv: Invocation, kept: nat, after: Log) {
    var r := RunItem(b, i, mode, inv);
    mode != SucceededContext && inv.world == b.world && !r.violated && kept <= |r.events| &&
    Agree(Apply(inv.log, r.events[..kept]), after, b.IdOf(i), 1)
  }

  ghost predicate Served<V>(b: Batch<V>, i: nat, before: Log, after: Log) {
    ServiceActs(before, after, b.world) && Unshadowed(before, b.IdOf(i))
  }

  ghost predicate ItemTurn<V>(b: Batch<V>, i: nat, before: Log, after: Log) {
    Served(b, i, before, after) ||
    exists mode, inv: Invocation, kept: nat :: inv.log == before && RanTo(b, i, mode, inv, kept, after)
  }

  /** The logs an item's invocations begin from; the first holds nothing beneath the item. */
  ghost predicate ItemHistory<V>(b: Batch<V>, i: nat, logs: seq<Log>) {
    logs != [] && (forall x :: x in logs[0] ==> !In(x, b.IdOf(i), 1)) &&
    forall k :: 0 <= k < |logs| - 1 ==> ItemTurn(b, i, logs[k], logs[k + 1])
  }

  /** An invocation, the last of such a history, ran the item to the outcome o, and left the log. */
  ghost predicate Ended<V>(b: Batch<V>, i: nat, o: Outcome, logs: seq<Log>, mode: Mode, inv: Invocation, left: Log,
                           log: Log) {
    ItemHistory(b, i, logs) && inv.log == logs[|logs| - 1] && RunItem(b, i, mode, inv).end == Done(o) &&
    RanTo(b, i, mode, inv, |RunItem(b, i, mode, inv).events|, left) && Served(b, i, left, log)
  }

  ghost predicate Finished<V>(b: Batch<V>, i: nat, o: Outcome, log: Log) {
    exists logs, mode, inv, left :: Ended(b, i, o, logs, mode, inv, left, log)
  }

  lemma {:induction false} ItemLogFits<V>(b: Batch<V>, i: nat, logs: seq<Log>, k: nat)
    requires Direct(b.body(i), b.fuel, b.IdOf(i), 1, b.world).Some? && ItemHistory(b, i, logs) && k < |logs|
    ensures Fits(b.body(i), b.fuel, b.IdOf(i), 1, logs[k], b.world)
  {
    var p, id, w := b.body(i), b.IdOf(i), b.world;
    if k == 0 {
      EmptyLogFits(p, b.fuel, id, 1, w);
      Frame(p, b.fuel, id, 1, map[], logs[0], w);
    } else {
      ItemLogFits(b, i, logs, k - 1);
      assert ItemTurn(b, i, logs[k - 1], logs[k]);
      if Served(b, i, logs[k - 1], logs[k]) {
        ServiceKeepsFit(p, b.fuel, id, 1, logs[k - 1], logs[k], w);
      } else {
        var mode, inv: Invocation, kept: nat :| inv.log == logs[k - 1] && RanTo(b, i, mode, inv, kept, logs[k]);
        OneInvocation(p, b.fuel, id, 1, mode, inv);
        Frame(p, b.fuel, id, 1, Apply(inv.log, RunItem(b, i, mode, inv).events[..kept]), logs[k], w);
      }
    }
  }

  /** A finished item ended as its uninterrupted run does, and every operation it could record is recorded. */
  lemma FinishedIsComplete<V>(b: Batch<V>, i: nat, o: Outcome, log: Log)
    requires Direct(b.body(i), b.fuel, b.IdOf(i), 1, b.world).Some? && Finished(b, i, o, log)
    ensures o == Direct(b.body(i), b.fuel, b.IdOf(i), 1, b.world).value
    ensures Complete(b.body(i), b.fuel, b.IdOf(i), 1, log, b.world)
  {
    var p, id, w := b.body(i), b.IdOf(i), b.world;
    var logs, mode, inv, left :| Ended(b, i, o, logs, mode, inv, left, log);
    ItemLogFits(b, i, logs, |logs| - 1);
    OneInvocation(p, b.fuel, id, 1, mode, inv);
    var events := RunItem(b, i, mode, inv).events;
    assert events[..|events|] == events;
    Frame(p, b.fuel, id, 1, Apply(inv.log, events), left, w);
    ServiceKeepsFit(p, b.fuel, id, 1, left, log, w);
  }

  // ----- replay -----

  /** The item's body runs again, over its recorded operations. */
  function Rerun<V>(b: Batch<V>, i: nat, inv: Invocation): Run {
    RunItem(b, i, SucceededContext, inv)
  }

  function RerunResult<V>(b: Batch<V>, end: End): Records.Child {
    if !end.Done? then Records.Unfinished
    else match end.outcome
      case Ok(v) => (match b.marshal(v)
        case None => Records.Unfinished
        case Some(bytes) => Records.ChildResult(bytes))
      case Err(e) => if b.nesting.Flat? then Records.ChildFailure(b.errorOf(e)) else Records.Unfinished
  }

  /** replayTerminalChildItem for a NORMAL item, the re-run of a FLAT one. */
  function ChildOf<V>(b: Batch<V>, inv: Invocation, records: map<Id, ItemRecord>, i: nat): Records.Child {
    var id := b.IdOf(i);
    if b.nesting.Flat? then RerunResult(b, Rerun(b, i, inv).end)
    else if id !in records then Records.Unfinished
    else match records[id]
      case Kept(bytes) => Records.ChildResult(bytes)
      case Oversized => RerunResult(b, Rerun(b, i, inv).end)
      case FailedWith(r) => Records.ChildFailure(ReplayedItemError(b.codec.nameOf(i), r, []))
  }

  function Children<V>(b: Batch<V>, inv: Invocation, records: map<Id, ItemRecord>): nat -> Records.Child {
    (i: nat) => ChildOf(b, inv, records, i)
  }

  predicate IsRerun<V>(b: Batch<V>, records: map<Id, ItemRecord>, i: nat) {
    b.nesting.Flat? || (b.IdOf(i) in records && records[b.IdOf(i)].Oversized?)
  }

  /** The batch's result is rebuilt from the record and the log. */
  method FromLog<V>(b: Batch<V>, inv: Invocation, records: map<Id, ItemRecord>, r: Records.SummaryRecord, total: nat)
    returns (res: Records.Replayed<V>)
    ensures res == Records.ReplayRecord(b.codec, r, Children(b, inv, records), total)
  {
    res := Records.FromSummary(b.codec, r, Children(b, inv, records), total);
  }

  // ----- the two compared -----

  /** Item i ended with o, was accepted as `item`, and left its traces in the log and the records. */
  ghost predicate Accepted<V>(b: Batch<V>, i: nat, item: Records.Item<V>, o: Outcome, log: Log,
                              records: map<Id, ItemRecord>) {
    Direct(b.body(i), b.fuel, b.IdOf(i), 1, b.world).Some? && LiveOutcome(b, i, o) == P.Some(item.outcome) &&
    (b.nesting.Normal? ==> b.IdOf(i) in records && P.Some(records[b.IdOf(i)]) == Recorded(b, o)) &&
    (IsRerun(b, records, i) ==> Finished(b, i, o, log))
  }

  /** The items of a completed batch, in index order: accepted ones, and abandoned ones of which nothing is known. */
  ghost predicate LiveItems<V>(b: Batch<V>, raw: seq<Records.Item<V>>, outcomes: nat -> Outcome, log: Log,
                               records: map<Id, ItemRecord>) {
    forall i :: 0 <= i < |raw| ==>
      raw[i].index == i && raw[i].name == b.codec.nameOf(i) &&
      (raw[i].outcome.Abandoned? || Accepted(b, i, raw[i], outcomes(i), log, records))
  }

  /** Every operation an item's re-run meets has a final record; a failure's recorded message is its text. */
  ghost predicate ItemReplays<V>(b: Batch<V>, i: nat, o: Outcome, records: map<Id, ItemRecord>)
    requires Direct(b.body(i), b.fuel, b.IdOf(i), 1, b.world).Some?
  {
    (IsRerun(b, records, i) ==> Closes(b.body(i), b.fuel, b.IdOf(i), 1, b.world)) &&
    (b.nesting.Normal? && o.Err? ==> RecordedMessage(b.errorOf(o.failure)) == Errors.Text(b.errorOf(o.failure)))
  }

  ghost predicate Diverges<V>(b: Batch<V>, i: nat, inv: Invocation, records: map<Id, ItemRecord>) {
    IsRerun(b, records, i) && Rerun(b, i, inv).violated
  }

  lemma RerunIsLive<V>(b: Batch<V>, i: nat, item: Records.Item<V>, o: Outcome, inv: Invocation,
                       records: map<Id, ItemRecord>)
    requires inv.world == b.world && Accepted(b, i, item, o, inv.log, records) && IsRerun(b, records, i)
    ensures Rerun(b, i, inv).violated <==> !Closes(b.body(i), b.fuel, b.IdOf(i), 1, b.world)
    ensures !Rerun(b, i, inv).violated ==> Rerun(b, i, inv).end == Done(o)
  {
    FinishedIsComplete(b, i, o, inv.log);
    ReplaySoundness.Rerun(b.body(i), b.fuel, b.IdOf(i), 1, inv);
  }

  lemma AcceptedReplaysIff<V>(b: Batch<V>, i: nat, item: Records.Item<V>, o: Outcome, inv: Invocation,
                              records: map<Id, ItemRecord>)
    requires inv.world == b.world && Accepted(b, i, item, o, inv.log, records)
    requires item.index == i && item.name == b.codec.nameOf(i)
    ensures var child := Records.ReplayChild(b.codec, i, ChildOf(b, inv, records, i));
            (child.Some? && Records.NormalizedItem(child.value) == Records.NormalizedItem(item) &&
             !Diverges(b, i, inv, records)) <==> ItemReplays(b, i, o, records)
  {
    if IsRerun(b, records, i) {
      RerunIsLive(b, i, item, o, inv, records);
    }
    if b.nesting.Normal? && o.Err? {
      var e := b.errorOf(o.failure);
      RecordKeepsItemErrorIff(b.codec.nameOf(i), e, []);
      assert records[b.IdOf(i)] == FailedWith(ItemErrors.RecordOf(e));
    }
  }

  ghost predicate NothingDiverges<V>(b: Batch<V>, raw: seq<Records.Item<V>>, inv: Invocation,
                                     records: map<Id, ItemRecord>) {
    forall i: nat :: i < |raw| && !raw[i].outcome.Abandoned? ==> !Diverges(b, i, inv, records)
  }

  /**
    A batch stored as its summary record replays to the live result without divergence, abandoned items included,
    exactly when it has not lost items since, every re-run item's body holds only operations with final records, and
    no NORMAL item failed with a bare stand-in.
   */
  lemma SummaryReplaysIff<V>(b: Batch<V>, raw: seq<Records.Item<V>>, outcomes: nat -> Outcome, inv: Invocation,
                             records: map<Id, ItemRecord>, r: Records.SummaryRecord, total: nat)
    requires inv.world == b.world && LiveItems(b, raw, outcomes, inv.log, records)
    requires r.itemStatuses == Records.Markers(Records.Normalized(raw))
    ensures (Records.ReplayRecord(b.codec, r, Children(b, inv, records), total) ==
             Records.Rebuilt(Records.Normalized(raw), r.reason) && NothingDiverges(b, raw, inv, records)) <==>
            |raw| <= total && forall i: nat :: i < |raw| && !raw[i].outcome.Abandoned? ==>
              ItemReplays(b, i, outcomes(i), records)
  {
    var live, children := Records.Normalized(raw), Children(b, inv, records);
    Records.RecordReplaysIff(b.codec, live, r, children, total);
    forall i: nat | i < |raw|
      ensures if raw[i].outcome.Abandoned? then Records.ReplayItem(b.codec, r, children, i) == P.Some(live[i])
              else (Records.ReplayItem(b.codec, r, children, i) == P.Some(live[i]) &&
                    !Diverges(b, i, inv, records)) <==>
                   ItemReplays(b, i, outcomes(i), records)
    {
      assert r.itemStatuses[i] == Records.Marker(live[i].outcome);
      if raw[i].outcome.Abandoned? {
        assert live[i] == Records.Item(i, b.codec.nameOf(i), Records.Abandoned);
      } else {
        AcceptedReplaysIff(b, i, raw[i], outcomes(i), inv, records);
      }
    }
  }
}
