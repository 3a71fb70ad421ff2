/**
  The two stored forms of a completed batch, the full payload and the summary record, and the result replay
  rebuilds from each.

  JSON of a stored object is the object itself.
 */
module BatchRecords {
  import opened BatchPolicy
  import Errors = ErrorChain
  import Fixpoint = ErrorFixpoint

  /** The item serdes, the JSON check on its output, and the item names, which are derived from the index. */
  datatype Codec<!V> = Codec(decode: string -> Option<V>, isJson: string -> bool, nameOf: nat -> string)

  datatype ItemOutcome<V> = Resulted(bytes: string, value: V) | Errored(error: Errors.Err) | Abandoned

  datatype Item<V> = Item(index: nat, name: string, outcome: ItemOutcome<V>)

  datatype StoredOutcome = StoredResult(bytes: string) | StoredError(error: Errors.Stored) | StoredStarted

  datatype StoredItem = StoredItem(index: nat, outcome: StoredOutcome)

  datatype Payload = Payload(all: seq<StoredItem>, reason: Reason)

  datatype SummaryRecord = SummaryRecord(parallel: bool, totalCount: nat, successCount: nat, failureCount: nat,
                                         startedCount: Option<nat>, reason: Reason, itemStatuses: string)

  /** What an item's own recorded operations rebuild to, or that they do not reach an outcome. */
  datatype Child = ChildResult(bytes: string) | ChildFailure(error: Errors.Err) | Unfinished

  datatype Replayed<V> = Rebuilt(items: seq<Item<V>>, reason: Reason) | ReplayFailed

  // ----- the live result -----

  /** Items in index order under their derived names, each success decoded from the bytes it recorded. */
  predicate WellFormed<V(==)>(c: Codec<V>, items: seq<Item<V>>) {
    forall i :: 0 <= i < |items| ==>
      items[i].index == i && items[i].name == c.nameOf(i) &&
      (items[i].outcome.Resulted? ==> c.decode(items[i].outcome.bytes) == Some(items[i].outcome.value))
  }

  function NormalizedItem<V>(item: Item<V>): Item<V> {
    if item.outcome.Errored? then item.(outcome := Errored(Errors.Normalize(item.outcome.error, item.name))) else item
  }

  function Normalized<V>(items: seq<Item<V>>): (r: seq<Item<V>>)
    ensures |r| == |items| && forall i :: 0 <= i < |items| ==> r[i] == NormalizedItem(items[i])
  {
    seq(|items|, i requires 0 <= i < |items| => NormalizedItem(items[i]))
  }

  /** normalizeBatchItemErrors. */
  method NormalizeErrors<V>(items: array<Item<V>>)
    modifies items
    ensures items[..] == Normalized(old(items[..]))
  {
    for i := 0 to items.Length
      invariant forall k :: 0 <= k < i ==> items[k] == NormalizedItem(old(items[k]))
      invariant forall k :: i <= k < items.Length ==> items[k] == old(items[k])
    {
      if items[i].outcome.Errored? {
        items[i] := items[i].(outcome := Errored(Errors.Normalize(items[i].outcome.error, items[i].name)));
      }
    }
  }

  // ----- the full payload -----

  predicate Storable<V>(c: Codec<V>, item: Item<V>) {
    item.outcome.Resulted? ==> item.outcome.bytes == "" || c.isJson(item.outcome.bytes)
  }

  function StoreItem<V>(item: Item<V>): StoredItem {
    StoredItem(item.index, match item.outcome
      case Resulted(bytes, _) => StoredResult(bytes)
      case Errored(error) => StoredError(Errors.Store(error))
      case Abandoned => StoredStarted)
  }

  function LoadItem<V>(c: Codec<V>, s: StoredItem): Option<Item<V>> {
    var name := c.nameOf(s.index);
    match s.outcome
    case StoredResult(bytes) =>
      (match c.decode(bytes)
       case None => None
       case Some(v) => Some(Item(s.index, name, Resulted(bytes, v))))
    case StoredError(e) => Some(Item(s.index, name, Errored(Errors.RebuildAt(e, name, 0))))
    case StoredStarted => Some(Item(s.index, name, Abandoned))
  }

  /** fromBatchResult; None when an item's bytes are not a JSON value. */
  method ToPayload<V>(c: Codec<V>, items: seq<Item<V>>, reason: Reason) returns (p: Option<Payload>)
    ensures p.Some? <==> forall i :: 0 <= i < |items| ==> Storable(c, items[i])
    ensures p.None? <==> exists i :: 0 <= i < |items| && items[i].outcome.Resulted? && items[i].outcome.bytes != "" &&
                                     !c.isJson(items[i].outcome.bytes)
    ensures p.Some? ==> p.value.reason == reason && |p.value.all| == |items|
    ensures p.Some? ==> forall i :: 0 <= i < |items| ==> p.value.all[i] == StoreItem(items[i])
  {
    var all: seq<StoredItem> := [];
    for i := 0 to |items|
      invariant |all| == i
      invariant forall k :: 0 <= k < i ==> Storable(c, items[k]) && all[k] == StoreItem(items[k])
    {
      match items[i].outcome {
        case Resulted(bytes, _) =>
          if |bytes| > 0 && !c.isJson(bytes) {
            assert !Storable(c, items[i]);
            return None;
          }
          all := all + [StoredItem(items[i].index, StoredResult(bytes))];
        case Errored(error) =>
          all := all + [StoredItem(items[i].index, StoredError(Errors.Store(error)))];
        case Abandoned =>
          all := all + [StoredItem(items[i].index, StoredStarted)];
      }
    }
    p := Some(Payload(all, reason));
  }

  ghost predicate Stores<V>(p: Payload, items: seq<Item<V>>, reason: Reason) {
    p.reason == reason && |p.all| == |items| && forall i :: 0 <= i < |items| ==> p.all[i] == StoreItem(items[i])
  }

  function LoadAll<V>(c: Codec<V>, all: seq<StoredItem>): Option<seq<Item<V>>> {
    if all == [] then Some([])
    else
      var rest, last := LoadAll(c, all[..|all| - 1]), LoadItem(c, all[|all| - 1]);
      if rest.None? || last.None? then None else Some(rest.value + [last.value])
  }

  /** toBatchResult. */
  method FromPayload<V>(c: Codec<V>, p: Payload) returns (r: Replayed<V>)
    ensures r == match LoadAll(c, p.all)
                 case None => ReplayFailed
                 case Some(items) => Rebuilt(items, p.reason)
  {
    var items: seq<Item<V>> := [];
    var i := 0;
    while i < |p.all|
      invariant 0 <= i <= |p.all| && LoadAll(c, p.all[..i]) == Some(items)
    {
      assert p.all[..i + 1][..i] == p.all[..i];
      var item := LoadItem(c, p.all[i]);
      if item.None? {
        LoadFails(c, p.all, i + 1);
        return ReplayFailed;
      }
      items := items + [item.value];
      i := i + 1;
    }
    assert p.all[..i] == p.all;
    r := Rebuilt(items, p.reason);
  }

  lemma {:induction false} LoadFails<V>(c: Codec<V>, all: seq<StoredItem>, n: nat)
    requires n <= |all| && LoadAll(c, all[..n]).None?
    ensures LoadAll(c, all).None?
    decreases |all|
  {
    if n < |all| {
      assert all[..|all| - 1][..n] == all[..n];
      LoadFails(c, all[..|all| - 1], n);
    } else {
      assert all[..n] == all;
    }
  }

  lemma {:induction false} LoadEach<V>(c: Codec<V>, all: seq<StoredItem>, items: seq<Item<V>>)
    requires |all| == |items|
    ensures LoadAll(c, all) == Some(items) <==> forall i :: 0 <= i < |all| ==> LoadItem(c, all[i]) == Some(items[i])
    decreases |all|
  {
    if all != [] {
      var n := |all| - 1;
      LoadEach(c, all[..n], items[..n]);
      assert items == items[..n] + [items[n]];
      if LoadAll(c, all) == Some(items) {
        var rest, last := LoadAll(c, all[..n]), LoadItem(c, all[n]);
        assert items == rest.value + [last.value];
        assert rest.value == (rest.value + [last.value])[..|rest.value|];
        assert |rest.value| == n;
      }
    }
  }

  /** A stored payload is refused exactly when the bytes of some result do not decode. */
  lemma {:induction false} LoadFailsIff<V>(c: Codec<V>, all: seq<StoredItem>)
    ensures LoadAll(c, all).None? <==>
            exists i :: 0 <= i < |all| && all[i].outcome.StoredResult? && c.decode(all[i].outcome.bytes).None?
    decreases |all|
  {
    if all != [] {
      var n := |all| - 1;
      LoadFailsIff(c, all[..n]);
      assert LoadItem(c, all[n]).None? <==> all[n].outcome.StoredResult? && c.decode(all[n].outcome.bytes).None?;
    }
  }

  /** The stored error of a raw item reaches a fixpoint, so the first run and replay agree on it. */
  predicate ErrorIsStable<V>(item: Item<V>) {
    item.outcome.Errored? ==> Fixpoint.Stable(Errors.Store(item.outcome.error), 0)
  }

  lemma StoredItemReplaysIff<V>(c: Codec<V>, raw: Item<V>)
    requires raw.name == c.nameOf(raw.index)
    requires raw.outcome.Resulted? ==> c.decode(raw.outcome.bytes) == Some(raw.outcome.value)
    ensures LoadItem(c, StoreItem(NormalizedItem(raw))) == Some(NormalizedItem(raw)) <==> ErrorIsStable(raw)
  {
    if raw.outcome.Errored? {
      Fixpoint.LiveEqualsReplayIff(raw.outcome.error, raw.name);
    }
  }

  /**
    A batch stored as its full payload replays to the live result, item for item, exactly when every failed item's
    stored error is stable.
   */
  lemma PayloadReplaysIff<V>(c: Codec<V>, raw: seq<Item<V>>, reason: Reason, p: Payload)
    requires WellFormed(c, raw) && Stores(p, Normalized(raw), reason)
    ensures LoadAll(c, p.all) == Some(Normalized(raw)) <==> forall i :: 0 <= i < |raw| ==> ErrorIsStable(raw[i])
  {
    forall i | 0 <= i < |raw|
      ensures LoadItem(c, p.all[i]) == Some(Normalized(raw)[i]) <==> ErrorIsStable(raw[i])
    {
      StoredItemReplaysIff(c, raw[i]);
      assert p.all[i] == StoreItem(Normalized(raw)[i]);
    }
    LoadEach(c, p.all, Normalized(raw));
  }

  // ----- the summary record -----

  function Marker<V>(o: ItemOutcome<V>): char {
    match o
    case Resulted(_, _) => 'S'
    case Errored(_) => 'F'
    case Abandoned => '-'
  }

  function Markers<V>(items: seq<Item<V>>): (s: string)
    ensures |s| == |items| && forall i :: 0 <= i < |s| ==> s[i] == Marker(items[i].outcome)
  {
    seq(|items|, i requires 0 <= i < |items| => Marker(items[i].outcome))
  }

  function Occurrences(s: string, m: char): nat {
    if s == "" then 0 else Occurrences(s[..|s| - 1], m) + (if s[|s| - 1] == m then 1 else 0)
  }

  /** newBatchSummaryRecord. */
  method NewSummaryRecord<V>(parallel: bool, items: seq<Item<V>>, reason: Reason) returns (r: SummaryRecord)
    ensures r.itemStatuses == Markers(items) && r.reason == reason && r.parallel == parallel
    ensures forall i :: 0 <= i < |items| ==>
              (r.itemStatuses[i] == 'S' <==> items[i].outcome.Resulted?) &&
              (r.itemStatuses[i] == 'F' <==> items[i].outcome.Errored?) &&
              (r.itemStatuses[i] == '-' <==> items[i].outcome.Abandoned?)
    ensures r.totalCount == |items| == r.successCount + r.failureCount + Occurrences(r.itemStatuses, '-')
    ensures r.successCount == Occurrences(r.itemStatuses, 'S') && r.failureCount == Occurrences(r.itemStatuses, 'F')
    ensures r.startedCount == if parallel then Some(Occurrences(r.itemStatuses, '-')) else None
  {
    var markers, started, successes, failures := "", 0, 0, 0;
    for i := 0 to |items|
      invariant |markers| == i && forall k :: 0 <= k < i ==> markers[k] == Marker(items[k].outcome)
      invariant started == Occurrences(markers, '-') && successes == Occurrences(markers, 'S')
      invariant failures == Occurrences(markers, 'F') && successes + failures + started == i
    {
      assert forall m :: (markers + [m])[..|markers|] == markers;
      match items[i].outcome {
        case Resulted(_, _) =>
          markers := markers + ['S'];
          successes := successes + 1;
        case Errored(_) =>
          markers := markers + ['F'];
          failures := failures + 1;
        case Abandoned =>
          markers := markers + ['-'];
          started := started + 1;
      }
    }
    assert markers == Markers(items);
    r := SummaryRecord(parallel, |items|, successes, failures,
                       if parallel then Some(started) else None, reason, markers);
  }

  /** replayTerminalChildItem, or the re-run of a FLAT item, on the item's own operations. */
  function ReplayChild<V>(c: Codec<V>, i: nat, child: Child): Option<Item<V>> {
    match child
    case ChildResult(bytes) =>
      (match c.decode(bytes)
       case None => None
       case Some(v) => Some(Item(i, c.nameOf(i), Resulted(bytes, v))))
    case ChildFailure(error) => Some(Item(i, c.nameOf(i), Errored(error)))
    case Unfinished => None
  }

  /** Item i of the record: abandoned, or rebuilt from its own operations with its error normalized. */
  function ReplayItem<V>(c: Codec<V>, r: SummaryRecord, children: nat -> Child, i: nat): Option<Item<V>>
    requires i < |r.itemStatuses|
  {
    if r.itemStatuses[i] == '-' then Some(Item(i, c.nameOf(i), Abandoned))
    else
      var item := ReplayChild(c, i, children(i));
      if item.None? then None else Some(NormalizedItem(item.value))
  }

  function ReplayFirst<V>(c: Codec<V>, r: SummaryRecord, children: nat -> Child, n: nat): Option<seq<Item<V>>>
    requires n <= |r.itemStatuses|
  {
    if n == 0 then Some([])
    else
      var rest, last := ReplayFirst(c, r, children, n - 1), ReplayItem(c, r, children, n - 1);
      if rest.None? || last.None? then None else Some(rest.value + [last.value])
  }

  function ReplayRecord<V>(c: Codec<V>, r: SummaryRecord, children: nat -> Child, total: nat): Replayed<V> {
    if |r.itemStatuses| > total then ReplayFailed
    else
      var items := ReplayFirst(c, r, children, |r.itemStatuses|);
      if items.None? then ReplayFailed else Rebuilt(items.value, r.reason)
  }

  lemma {:induction false} ReplayFails<V>(c: Codec<V>, r: SummaryRecord, children: nat -> Child, n: nat, m: nat)
    requires n <= m <= |r.itemStatuses| && ReplayFirst(c, r, children, n).None?
    ensures ReplayFirst(c, r, children, m).None?
    decreases m
  {
    if n < m {
      ReplayFails(c, r, children, n, m - 1);
    }
  }

  /** replayBatchChildrenFromRecord, then normalizeBatchItemErrors; total is the batch's item count. */
  method FromSummary<V>(c: Codec<V>, r: SummaryRecord, children: nat -> Child, total: nat) returns (res: Replayed<V>)
    ensures res == ReplayRecord(c, r, children, total)
  {
    if |r.itemStatuses| > total {
      return ReplayFailed;
    }
    var items: seq<Item<V>> := [];
    for i := 0 to |r.itemStatuses|
      invariant ReplayFirst(c, r, children, i) == Some(items)
    {
      if r.itemStatuses[i] == '-' {
        items := items + [Item(i, c.nameOf(i), Abandoned)];
      } else {
        var item := ReplayChild(c, i, children(i));
        if item.None? {
          ReplayFails(c, r, children, i + 1, |r.itemStatuses|);
          return ReplayFailed;
        }
        items := items + [NormalizedItem(item.value)];
      }
    }
    res := Rebuilt(items, r.reason);
  }

  /** An item that was accepted and whose own operations do not give it an outcome that decodes. */
  ghost predicate Lost<V>(c: Codec<V>, r: SummaryRecord, children: nat -> Child, i: nat)
    requires i < |r.itemStatuses|
  {
    r.itemStatuses[i] != '-' &&
    (children(i).Unfinished? || (children(i).ChildResult? && c.decode(children(i).bytes).None?))
  }

  lemma {:induction false} FirstFailsIff<V>(c: Codec<V>, r: SummaryRecord, children: nat -> Child, n: nat)
    requires n <= |r.itemStatuses|
    ensures ReplayFirst(c, r, children, n).None? <==> exists i :: 0 <= i < n && Lost(c, r, children, i)
  {
    if n > 0 {
      FirstFailsIff(c, r, children, n - 1);
      assert ReplayItem(c, r, children, n - 1).None? <==> Lost(c, r, children, n - 1);
    }
  }

  /** Replay from a record fails exactly when it names more items than the batch has, or lost one that was accepted. */
  lemma ReplayFailsIff<V>(c: Codec<V>, r: SummaryRecord, children: nat -> Child, total: nat)
    ensures ReplayRecord(c, r, children, total).ReplayFailed? <==>
            |r.itemStatuses| > total || exists i :: 0 <= i < |r.itemStatuses| && Lost(c, r, children, i)
  {
    FirstFailsIff(c, r, children, |r.itemStatuses|);
  }

  lemma {:induction false} ReplayEach<V>(c: Codec<V>, r: SummaryRecord, children: nat -> Child, items: seq<Item<V>>)
    requires |items| <= |r.itemStatuses|
    ensures ReplayFirst(c, r, children, |items|) == Some(items) <==>
            forall i :: 0 <= i < |items| ==> ReplayItem(c, r, children, i) == Some(items[i])
    decreases |items|
  {
    if items != [] {
      var n := |items| - 1;
      ReplayEach(c, r, children, items[..n]);
      assert items == items[..n] + [items[n]];
      var rest := ReplayFirst<V>(c, r, children, n);
      if ReplayFirst(c, r, children, |items|) == Some(items) {
        assert items[..n] == rest.value && items[n] == ReplayItem(c, r, children, n).value by {
          assert |items| == |rest.value| + 1;
        }
      }
    }
  }

  /** The rebuilt result is the live one exactly when it has room for the items and rebuilds each of them. */
  lemma RecordReplaysIff<V>(c: Codec<V>, live: seq<Item<V>>, r: SummaryRecord, children: nat -> Child, total: nat)
    requires r.itemStatuses == Markers(live)
    ensures ReplayRecord(c, r, children, total) == Rebuilt(live, r.reason) <==>
            |live| <= total && forall i :: 0 <= i < |live| ==> ReplayItem(c, r, children, i) == Some(live[i])
  {
    ReplayEach(c, r, children, live);
  }
}
